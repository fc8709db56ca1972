/** backend/middlewares/isActiveUser.js: looks up `req.userAuth._id` and lets the request through
    only for an active, non-deleted user. It is a plain async function (no `express-async-handler`),
    so a missing `req.userAuth` becomes a rejected promise that nothing answers. */
module IsActiveUser {
  import opened Js
  import opened Mongo
  import opened UserModel
  import opened Http

  const InactiveMessage := "Account inactive or deleted"

  /** `User.findById(req.userAuth._id)`: an undefined `_id` is queried as null and matches nothing. */
  function LookedUp(ctx: AuthCtx, users: map<Id, User>): Option<User>
  {
    if ctx.underscoreId.None? then None else FindUserById(users, ctx.underscoreId.value, false)
  }

  /** The decision `isActiveUser` takes. */
  function Decide(userAuth: Option<AuthCtx>, users: map<Id, User>): (r: GateResult)
    ensures userAuth.None? <==> r.NoResponse?
    ensures r.Reject? ==> r == Reject(403, "failed", InactiveMessage)
    ensures userAuth.Some? ==>
              (r.Reject? <==> LookedUp(userAuth.value, users).None? || !LookedUp(userAuth.value, users).value.isActive
                              || LookedUp(userAuth.value, users).value.isDeleted)
    ensures userAuth.Some? ==> (r == Next(None) <==> !r.Reject?)
  {
    if userAuth.None? then NoResponse
    else
      var user := LookedUp(userAuth.value, users);
      if user.None? || !user.value.isActive || user.value.isDeleted then Reject(403, "failed", InactiveMessage)
      else Next(None)
  }

  /** The `isDeleted` test never decides anything: the find filter has already hidden deleted users. */
  lemma DeletedTestIsRedundant(ctx: AuthCtx, users: map<Id, User>)
    ensures Decide(Some(ctx), users).Reject?
            <==> LookedUp(ctx, users).None? || !LookedUp(ctx, users).value.isActive
  {
  }

  /** The gate as evidently intended: it looks up `req.userAuth.id`, which `isLoggedIn` sets,
      where the source reads `_id`. */
  function DecideIntended(userAuth: Option<AuthCtx>, users: map<Id, User>): GateResult
  {
    if userAuth.None? then NoResponse
    else Decide(Some(userAuth.value.(underscoreId := userAuth.value.id)), users)
  }
}
