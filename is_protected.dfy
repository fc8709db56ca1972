/** backend/middlewares/isProtected.js: `protect`. Its prefix test is "Bearer" without the
    space, it verifies with `JWT_KEY` (tokens are signed with `JWT_SECRET_KEY`, see
    backend/utils/generateToken.js), every exception inside its `try` becomes
    401 "Not authorized, token failed", it has no active check, and on success it attaches
    the whole user document. */
module IsProtected {
  import opened Js
  import opened Mongo
  import opened UserModel
  import opened ErrorHandler
  import opened Jwt
  import opened Http

  const NoTokenMessage := "Not authorized, no token"
  const TokenFailedMessage := "Not authorized, token failed"
  const NoUserMessage := "User not found"
  const StaleMessage := "Password recently changed, please login again"

  /** `req.headers.authorization && req.headers.authorization.startsWith("Bearer")`. */
  predicate HasBearerPrefix(authorization: Option<string>)
  {
    authorization.Some? && StartsWith(authorization.value, "Bearer")
  }

  /** `req.userAuth = user`: the full document, which carries `_id`, the `id` virtual and `isVerified`. */
  function DocumentAuth(id: Id, u: User): (ctx: AuthCtx)
    ensures ctx.id == Some(id) && ctx.underscoreId == Some(id) && ctx.isVerified == Some(u.isVerified)
  {
    AuthCtx(Some(id), Some(id), u.email, u.role, Some(u.isVerified))
  }

  /** The decision `protect` takes at `nowSec`; `queryThrows` says the user query throws. */
  function Decide(authorization: Option<string>, env: Env, issued: map<string, SignedToken>,
                  nowSec: int, users: map<Id, User>, queryThrows: bool): (r: GateResult)
    ensures !HasBearerPrefix(authorization) ==> r == Reject(401, "failed", NoTokenMessage)
    ensures HasBearerPrefix(authorization)
            && (Verify(issued, SplitSecond(authorization.value), env.jwtKey, nowSec).VerifyError? || queryThrows)
            ==> r == Reject(401, "failed", TokenFailedMessage)
    ensures HasBearerPrefix(authorization)
            && Verify(issued, SplitSecond(authorization.value), env.jwtKey, nowSec).Decoded? && !queryThrows
            ==> var claims := Verify(issued, SplitSecond(authorization.value), env.jwtKey, nowSec).claims;
                && (FindUserById(users, claims.id, false).None? ==> r == Reject(401, "failed", NoUserMessage))
                && (FindUserById(users, claims.id, false).Some? && ChangedAfter(users[claims.id], claims.iat)
                    ==> r == Reject(401, "failed", StaleMessage))
                && (r.Next? ==> r.userAuth == Some(DocumentAuth(claims.id, users[claims.id])))
    ensures r.Reject? ==> r.code == 401
    ensures !r.Forward? && !r.NoResponse?
    ensures r.Next? <==> HasBearerPrefix(authorization)
                         && Verify(issued, SplitSecond(authorization.value), env.jwtKey, nowSec).Decoded?
                         && !queryThrows
                         && var claims := Verify(issued, SplitSecond(authorization.value), env.jwtKey, nowSec).claims;
                            FindUserById(users, claims.id, false).Some? && !ChangedAfter(users[claims.id], claims.iat)
  {
    if !HasBearerPrefix(authorization) then Reject(401, "failed", NoTokenMessage)
    else match Verify(issued, SplitSecond(authorization.value), env.jwtKey, nowSec)
      case VerifyError => Reject(401, "failed", TokenFailedMessage)
      case Decoded(claims) =>
        if queryThrows then Reject(401, "failed", TokenFailedMessage)
        else match FindUserById(users, claims.id, false)
          case None => Reject(401, "failed", NoUserMessage)
          case Some(u) =>
            if ChangedAfter(u, claims.iat) then Reject(401, "failed", StaleMessage)
            else Next(Some(DocumentAuth(claims.id, u)))
  }

  /** The `protect` middleware run on `req`. */
  method Protect(req: Request, env: Env, issued: map<string, SignedToken>, nowSec: int,
                 users: Collection<User>, queryThrows: bool) returns (r: GateResult)
    modifies req`userAuth
    ensures r == Decide(req.authorization, env, issued, nowSec, users.docs, queryThrows)
    ensures req.userAuth == if r.Next? then r.userAuth else old(req.userAuth)
  {
    if !(req.authorization.Some? && StartsWith(req.authorization.value, "Bearer")) {
      return Reject(401, "failed", NoTokenMessage);
    }
    var token := SplitSecond(req.authorization.value);
    var decoded := Verify(issued, token, env.jwtKey, nowSec);
    if decoded.VerifyError? || queryThrows {
      return Reject(401, "failed", TokenFailedMessage);
    }
    var user := users.FindById(decoded.claims.id, FindFilter(false));
    if user.None? {
      return Reject(401, "failed", NoUserMessage);
    }
    if user.value.passwordChangedAt.Some? {
      var passwordChangedTimestamp := TruncDiv(user.value.passwordChangedAt.value, 1000);
      if decoded.claims.iat < passwordChangedTimestamp {
        return Reject(401, "failed", StaleMessage);
      }
    }
    r := Next(Some(DocumentAuth(decoded.claims.id, user.value)));
    req.Attach(r);
  }

  /** Without a space after "Bearer" there is no token to split off, and `jwt.verify` throws. */
  lemma NoSpaceMeansTokenFailed(authorization: string, env: Env, issued: map<string, SignedToken>,
                                nowSec: int, users: map<Id, User>, queryThrows: bool)
    requires StartsWith(authorization, "Bearer") && ' ' !in authorization
    ensures Decide(Some(authorization), env, issued, nowSec, users, queryThrows) == Reject(401, "failed", TokenFailedMessage)
  {
  }

  /** An inactive user who is not deleted passes `protect`: there is no active check. */
  lemma InactiveUserPasses(authorization: Option<string>, env: Env, issued: map<string, SignedToken>,
                           nowSec: int, users: map<Id, User>, id: Id)
    requires HasBearerPrefix(authorization)
    requires Verify(issued, SplitSecond(authorization.value), env.jwtKey, nowSec).Decoded?
    requires Verify(issued, SplitSecond(authorization.value), env.jwtKey, nowSec).claims.id == id
    requires id in users && !users[id].isDeleted && !users[id].isActive && users[id].passwordChangedAt.None?
    ensures Decide(authorization, env, issued, nowSec, users, false) == Next(Some(DocumentAuth(id, users[id])))
  {
  }

  /** `protect` as evidently intended: it verifies with `JWT_SECRET_KEY`, the secret the tokens
      are signed with, where the source reads `JWT_KEY`. */
  function DecideIntended(authorization: Option<string>, env: Env, issued: map<string, SignedToken>,
                          nowSec: int, users: map<Id, User>, queryThrows: bool): GateResult
  {
    Decide(authorization, env.(jwtKey := env.jwtSecretKey), issued, nowSec, users, queryThrows)
  }
}
