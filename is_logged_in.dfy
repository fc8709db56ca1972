/** backend/middlewares/isLoggedIn.js: `isLoggedIn(allowInactive)` as a ladder of checks on
    the Bearer header (section 2.1 of RFC 6750), the secret, the token, the user record and
    its flags. The first failing check answers the request; `next()` runs only when all pass. */
module IsLoggedIn {
  import opened Js
  import opened Mongo
  import opened UserModel
  import opened ErrorHandler
  import opened Jwt
  import opened Http

  const NoTokenMessage := "No token provided. Please log in again."
  const NoSecretMessage := "JWT_SECRET_KEY is not defined in environment."
  const BadTokenMessage := "Invalid or expired token. Please log in again."
  const NoUserMessage := "User not found. Please log in again."
  const InactiveMessage := "Your account is inactive. Please reactivate your account."
  const StaleMessage := "Password changed recently. Please log in again."

  /** The header has the form `Bearer <token>`, with the space. */
  predicate HasBearer(authorization: Option<string>)
  {
    authorization.Some? && StartsWith(authorization.value, "Bearer ")
  }

  /** The token text `authHeader.split(" ")[1]`. */
  function TokenOf(authorization: Option<string>): Option<string>
  {
    if authorization.Some? then SplitSecond(authorization.value) else None
  }

  /** `req.userAuth` as the success path attaches it: `{ id, email, role }` and nothing else. */
  function SafeUserAuth(id: Id, u: User): (ctx: AuthCtx)
    ensures ctx.id == Some(id) && ctx.underscoreId.None? && ctx.isVerified.None?
    ensures ctx.email == u.email && ctx.role == u.role
  {
    AuthCtx(Some(id), None, u.email, u.role, None)
  }

  /** Every check of the ladder passes (an independent statement of when `next()` is reached). */
  predicate AllChecksPass(allowInactive: bool, authorization: Option<string>, env: Env,
                          issued: map<string, SignedToken>, nowSec: int, users: map<Id, User>, dbError: Option<AppError>)
  {
    && HasBearer(authorization)
    && Truthy(env.jwtSecretKey)
    && Verify(issued, TokenOf(authorization), env.jwtSecretKey, nowSec).Decoded?
    && dbError.None?
    && var claims := Verify(issued, TokenOf(authorization), env.jwtSecretKey, nowSec).claims;
       && FindUserById(users, claims.id, false).Some?
       && (allowInactive || users[claims.id].isActive)
       && !ChangedAfter(users[claims.id], claims.iat)
  }

  /** The decision `isLoggedIn(allowInactive)` takes at `nowSec` (seconds) against the user
      store; `dbError` is the error the user query throws, if it throws. */
  function Decide(allowInactive: bool, authorization: Option<string>, env: Env,
                  issued: map<string, SignedToken>, nowSec: int, users: map<Id, User>, dbError: Option<AppError>): (r: GateResult)
    ensures r.Next? <==> AllChecksPass(allowInactive, authorization, env, issued, nowSec, users, dbError)
    ensures r.Next? ==> r.userAuth.Some? && r.userAuth.value.id.Some?
                        && r.userAuth.value.underscoreId.None? && r.userAuth.value.isVerified.None?
    ensures !HasBearer(authorization) ==> r == Reject(401, "failed", NoTokenMessage)
    ensures HasBearer(authorization) && !Truthy(env.jwtSecretKey) ==> r == Reject(500, "failed", NoSecretMessage)
    ensures HasBearer(authorization) && Truthy(env.jwtSecretKey)
            && Verify(issued, TokenOf(authorization), env.jwtSecretKey, nowSec).VerifyError?
            ==> r == Reject(401, "failed", BadTokenMessage)
    ensures HasBearer(authorization) && Truthy(env.jwtSecretKey)
            && Verify(issued, TokenOf(authorization), env.jwtSecretKey, nowSec).Decoded? && dbError.Some?
            ==> r == Forward(dbError.value)
    ensures HasBearer(authorization) && Truthy(env.jwtSecretKey)
            && Verify(issued, TokenOf(authorization), env.jwtSecretKey, nowSec).Decoded? && dbError.None?
            ==> var claims := Verify(issued, TokenOf(authorization), env.jwtSecretKey, nowSec).claims;
                && (FindUserById(users, claims.id, false).None? ==> r == Reject(401, "failed", NoUserMessage))
                && (FindUserById(users, claims.id, false).Some? && !allowInactive && !users[claims.id].isActive
                    ==> r == Reject(403, "failed", InactiveMessage))
                && (FindUserById(users, claims.id, false).Some? && (allowInactive || users[claims.id].isActive)
                    && ChangedAfter(users[claims.id], claims.iat)
                    ==> r == Reject(401, "failed", StaleMessage))
                && (r.Next? ==> r.userAuth == Some(SafeUserAuth(claims.id, users[claims.id])))
    ensures r.Forward? ==> dbError.Some? && r.err == dbError.value
    ensures r.Reject? ==> r.code in {401, 403, 500}
  {
    if !HasBearer(authorization) then Reject(401, "failed", NoTokenMessage)
    else if !Truthy(env.jwtSecretKey) then Reject(500, "failed", NoSecretMessage)
    else match Verify(issued, TokenOf(authorization), env.jwtSecretKey, nowSec)
      case VerifyError => Reject(401, "failed", BadTokenMessage)
      case Decoded(claims) =>
        if dbError.Some? then Forward(dbError.value)
        else match FindUserById(users, claims.id, false)
          case None => Reject(401, "failed", NoUserMessage)
          case Some(u) =>
            if !allowInactive && !u.isActive then Reject(403, "failed", InactiveMessage)
            else if ChangedAfter(u, claims.iat) then Reject(401, "failed", StaleMessage)
            else Next(Some(SafeUserAuth(claims.id, u)))
  }

  /** The middleware returned by `isLoggedIn(allowInactive)`, run on `req` at `nowSec`. */
  method IsLoggedIn(req: Request, allowInactive: bool, env: Env, issued: map<string, SignedToken>,
                    nowSec: int, users: Collection<User>, dbError: Option<AppError>) returns (r: GateResult)
    modifies req`userAuth
    ensures r == Decide(allowInactive, req.authorization, env, issued, nowSec, users.docs, dbError)
    ensures req.userAuth == if r.Next? then r.userAuth else old(req.userAuth)
  {
    var authHeader := req.authorization;
    if !(authHeader.Some? && StartsWith(authHeader.value, "Bearer ")) {
      return Reject(401, "failed", NoTokenMessage);
    }
    var token := SplitSecond(authHeader.value);
    if !Truthy(env.jwtSecretKey) {
      return Reject(500, "failed", NoSecretMessage);
    }
    var decoded := Verify(issued, token, env.jwtSecretKey, nowSec);
    if decoded.VerifyError? {
      return Reject(401, "failed", BadTokenMessage);
    }
    if dbError.Some? {
      return Forward(dbError.value);
    }
    var user := users.FindById(decoded.claims.id, FindFilter(false));
    if user.None? {
      return Reject(401, "failed", NoUserMessage);
    }
    if !allowInactive && !user.value.isActive {
      return Reject(403, "failed", InactiveMessage);
    }
    if user.value.passwordChangedAt.Some? {
      var passwordChangedTimestamp := TruncDiv(user.value.passwordChangedAt.value, 1000);
      if decoded.claims.iat < passwordChangedTimestamp {
        return Reject(401, "failed", StaleMessage);
      }
    }
    r := Next(Some(SafeUserAuth(decoded.claims.id, user.value)));
    req.Attach(r);
  }

  /** A token that does not verify is answered 401 before any user is looked up. */
  lemma BadTokenRejectedBeforeLookup(allowInactive: bool, authorization: Option<string>, env: Env,
                                     issued: map<string, SignedToken>, nowSec: int, users: map<Id, User>, dbError: Option<AppError>)
    requires HasBearer(authorization) && Truthy(env.jwtSecretKey)
    requires Verify(issued, TokenOf(authorization), env.jwtSecretKey, nowSec).VerifyError?
    ensures Decide(allowInactive, authorization, env, issued, nowSec, users, dbError) == Reject(401, "failed", BadTokenMessage)
  {
  }

  /** A soft-deleted user is "not found" (401), through the find filter, even with `allowInactive`. */
  lemma DeletedUserNotFound(allowInactive: bool, authorization: Option<string>, env: Env,
                            issued: map<string, SignedToken>, nowSec: int, users: map<Id, User>)
    requires HasBearer(authorization) && Truthy(env.jwtSecretKey)
    requires Verify(issued, TokenOf(authorization), env.jwtSecretKey, nowSec).Decoded?
    requires var id := Verify(issued, TokenOf(authorization), env.jwtSecretKey, nowSec).claims.id;
             id in users && users[id].isDeleted
    ensures Decide(allowInactive, authorization, env, issued, nowSec, users, None) == Reject(401, "failed", NoUserMessage)
  {
  }

  /** `allowInactive` skips the active check and nothing else: it changes the decision only
      where the strict gate answered 403, and there it never answers 403. */
  lemma AllowInactiveSkipsOnlyActiveCheck(authorization: Option<string>, env: Env,
                                          issued: map<string, SignedToken>, nowSec: int, users: map<Id, User>, dbError: Option<AppError>)
    ensures var strict := Decide(false, authorization, env, issued, nowSec, users, dbError);
            var lax := Decide(true, authorization, env, issued, nowSec, users, dbError);
            (strict != Reject(403, "failed", InactiveMessage) ==> lax == strict)
            && (strict == Reject(403, "failed", InactiveMessage) ==> lax.Next? || lax == Reject(401, "failed", StaleMessage))
  {
  }

  /** The staleness boundary: `iat` equal to the truncated change time passes, one less is rejected. */
  lemma StaleBoundary(u: User, iat: int)
    requires u.passwordChangedAt.Some?
    ensures iat == TruncDiv(u.passwordChangedAt.value, 1000) ==> !ChangedAfter(u, iat)
    ensures iat == TruncDiv(u.passwordChangedAt.value, 1000) - 1 ==> ChangedAfter(u, iat)
  {
  }

  /** A token freshly issued with the signing secret, presented as `Bearer <token>` by an active
      user whose password has not changed since, passes, and `req.userAuth` names that user. */
  lemma FreshTokenPasses(allowInactive: bool, token: string, env: Env, issued: map<string, SignedToken>,
                         id: Id, nowMs: int, laterSec: int, users: map<Id, User>)
    requires token != "" && ' ' !in token && Truthy(env.jwtSecretKey)
    requires token in issued && Some(issued[token]) == GenerateToken(id, env.jwtSecretKey, nowMs)
    requires nowMs / 1000 <= laterSec < nowMs / 1000 + LifetimeSeconds
    requires id in users && !users[id].isDeleted && users[id].isActive && users[id].passwordChangedAt.None?
    ensures Decide(allowInactive, Some("Bearer " + token), env, issued, laterSec, users, None)
            == Next(Some(SafeUserAuth(id, users[id])))
  {
    assert "Bearer " + token == "Bearer" + " " + token;
    SplitSecondOfJoin("Bearer", token);
    assert StartsWith("Bearer " + token, "Bearer ");
  }
}
