/** backend/middlewares/isAccountVerified.js: trusts `req.userAuth.isVerified` when the
    previous middleware attached it, and otherwise reads the user's `isVerified` from the store. */
module IsAccountVerified {
  import opened Js
  import opened Mongo
  import opened UserModel
  import opened Http

  const NoAuthMessage := "Authentication required. Please log in again."
  const UnverifiedMessage := "Account not verified. Please verify your email."
  const NoUserMessage := "User not found"
  const FailureMessage := "Something went wrong while verifying account."

  /** The decision `isAccountVerified` takes; `queryThrows` says the fallback query throws. */
  function Decide(userAuth: Option<AuthCtx>, users: map<Id, User>, queryThrows: bool): (r: GateResult)
    ensures userAuth.None? || userAuth.value.id.None? ==> r == Reject(401, "fail", NoAuthMessage)
    ensures userAuth.Some? && userAuth.value.id.Some? && userAuth.value.isVerified.Some?
            ==> r == (if userAuth.value.isVerified.value then Next(None) else Reject(401, "fail", UnverifiedMessage))
    ensures userAuth.Some? && userAuth.value.id.Some? && userAuth.value.isVerified.None?
            ==> var id := userAuth.value.id.value;
                && (queryThrows ==> r == Reject(500, "error", FailureMessage))
                && (!queryThrows && FindUserById(users, id, false).None? ==> r == Reject(404, "fail", NoUserMessage))
                && (!queryThrows && FindUserById(users, id, false).Some? && !users[id].isVerified
                    ==> r == Reject(401, "fail", UnverifiedMessage))
    ensures r.Next? ==> r.userAuth.None?
    ensures r.Next? <==> userAuth.Some? && userAuth.value.id.Some?
                         && (if userAuth.value.isVerified.Some? then userAuth.value.isVerified.value
                             else !queryThrows && FindUserById(users, userAuth.value.id.value, false).Some?
                                  && users[userAuth.value.id.value].isVerified)
  {
    if userAuth.None? || userAuth.value.id.None? then Reject(401, "fail", NoAuthMessage)
    else if userAuth.value.isVerified.Some? then
      if userAuth.value.isVerified.value then Next(None) else Reject(401, "fail", UnverifiedMessage)
    else if queryThrows then Reject(500, "error", FailureMessage)
    else match FindUserById(users, userAuth.value.id.value, false)
      case None => Reject(404, "fail", NoUserMessage)
      case Some(u) => if u.isVerified then Next(None) else Reject(401, "fail", UnverifiedMessage)
  }
}
