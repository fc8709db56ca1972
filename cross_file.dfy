/** Properties that hold only across files: what a handler behind a gate sees of the context
    the gate attached, and what a middleware sees of tokens signed by
    backend/utils/generateToken.js. Each defect is shown next to the evidently intended
    behaviour. */
module CrossFile {
  import opened Js
  import opened Mongo
  import opened ErrorHandler
  import opened Jwt
  import opened UserModel
  import opened PostModel
  import opened CommentModel
  import opened Http
  import IsLoggedIn
  import IsProtected
  import IsActiveUser
  import IsAccountVerified
  import CommentsController

  /** Behind `isLoggedIn`, `isActiveUser` rejects every request: it looks up `_id`, which the
      attached context never has, and the lookup finds no one. */
  lemma LoggedInThenActiveUserRejects(allowInactive: bool, authorization: Option<string>, env: Env,
                                      issued: map<string, SignedToken>, nowSec: int, users: map<Id, User>)
    requires IsLoggedIn.Decide(allowInactive, authorization, env, issued, nowSec, users, None).Next?
    ensures IsActiveUser.Decide(IsLoggedIn.Decide(allowInactive, authorization, env, issued, nowSec, users, None).userAuth, users)
            == Reject(403, "failed", IsActiveUser.InactiveMessage)
  {
  }

  /** Reading `id` instead, the gate behind `isLoggedIn` passes exactly the active users. */
  lemma LoggedInThenIntendedActiveUserPasses(allowInactive: bool, authorization: Option<string>, env: Env,
                                             issued: map<string, SignedToken>, nowSec: int, users: map<Id, User>)
    requires IsLoggedIn.Decide(allowInactive, authorization, env, issued, nowSec, users, None).Next?
    ensures var ctx := IsLoggedIn.Decide(allowInactive, authorization, env, issued, nowSec, users, None).userAuth;
            ctx.value.id.value in users
            && (IsActiveUser.DecideIntended(ctx, users) == Next(None) <==> users[ctx.value.id.value].isActive)
  {
  }

  /** Behind `isLoggedIn`, `isAccountVerified` always takes the store fallback, because the
      attached context has no `isVerified`; it then passes exactly the verified users. */
  lemma LoggedInThenAccountVerifiedUsesStore(allowInactive: bool, authorization: Option<string>, env: Env,
                                             issued: map<string, SignedToken>, nowSec: int, users: map<Id, User>, queryThrows: bool)
    requires IsLoggedIn.Decide(allowInactive, authorization, env, issued, nowSec, users, None).Next?
    ensures var ctx := IsLoggedIn.Decide(allowInactive, authorization, env, issued, nowSec, users, None).userAuth;
            && ctx.value.isVerified.None?
            && (queryThrows ==> IsAccountVerified.Decide(ctx, users, queryThrows) == Reject(500, "error", IsAccountVerified.FailureMessage))
            && (!queryThrows ==> (IsAccountVerified.Decide(ctx, users, queryThrows).Next? <==> users[ctx.value.id.value].isVerified))
  {
  }

  /** Behind `isLoggedIn`, `createComment` never creates anything: the author it reads is
      undefined, `required` fails, and the client sees 500. */
  lemma LoggedInThenCreateCommentFails(allowInactive: bool, authorization: Option<string>, env: Env,
                                       issued: map<string, SignedToken>, nowSec: int, users: map<Id, User>,
                                       comments: map<Id, Comment>, posts: map<Id, Post>, message: Option<string>,
                                       postId: Option<Id>, newId: Id, now: int, nodeEnv: Option<string>)
    requires IsLoggedIn.Decide(allowInactive, authorization, env, issued, nowSec, users, None).Next?
    requires newId !in comments
    ensures var ctx := IsLoggedIn.Decide(allowInactive, authorization, env, issued, nowSec, users, None).userAuth;
            var r := CommentsController.CreateCommentSpec(comments, posts, message, CommentsController.CommentAuthor(ctx), postId, newId, now);
            r == CommentsController.CommentStep(comments, posts, Thrown(ValidationFailure("Comment")))
            && Respond(r.outcome, nodeEnv).code == 500
  {
  }

  /** With the intended author, a valid message on a well-formed post id is created behind
      `isLoggedIn`, authored by the logged-in user. */
  lemma LoggedInThenIntendedCreateCommentSucceeds(allowInactive: bool, authorization: Option<string>, env: Env,
                                                  issued: map<string, SignedToken>, nowSec: int, users: map<Id, User>,
                                                  comments: map<Id, Comment>, posts: map<Id, Post>, message: string,
                                                  postId: Id, newId: Id, now: int)
    requires IsLoggedIn.Decide(allowInactive, authorization, env, issued, nowSec, users, None).Next?
    requires newId !in comments && MessageValid(Some(message))
    ensures var ctx := IsLoggedIn.Decide(allowInactive, authorization, env, issued, nowSec, users, None).userAuth;
            var r := CommentsController.CreateCommentSpec(comments, posts, Some(message), CommentsController.IntendedCommentAuthor(ctx), Some(postId), newId, now);
            r.outcome == Sent(201, "success", CommentsController.CreatedMessage)
            && newId in r.comments && Some(r.comments[newId].author) == ctx.value.id
  {
  }

  /** When `JWT_KEY` differs from `JWT_SECRET_KEY`, `protect` rejects every token
      `generateToken` signs, however fresh and well-formed. */
  lemma ProtectRejectsIssuedToken(token: string, env: Env, issued: map<string, SignedToken>, id: Id,
                                  nowMs: int, laterSec: int, users: map<Id, User>, queryThrows: bool)
    requires token != "" && ' ' !in token && Truthy(env.jwtSecretKey) && env.jwtKey != env.jwtSecretKey
    requires token in issued && Some(issued[token]) == GenerateToken(id, env.jwtSecretKey, nowMs)
    ensures IsProtected.Decide(Some("Bearer " + token), env, issued, laterSec, users, queryThrows)
            == Reject(401, "failed", IsProtected.TokenFailedMessage)
  {
    assert "Bearer " + token == "Bearer" + " " + token;
    SplitSecondOfJoin("Bearer", token);
    assert StartsWith("Bearer " + token, "Bearer");
  }

  /** Verifying with the signing secret, `protect` accepts a fresh token of a user who exists
      and has not changed their password, and attaches that user. */
  lemma IntendedProtectAcceptsIssuedToken(token: string, env: Env, issued: map<string, SignedToken>, id: Id,
                                          nowMs: int, laterSec: int, users: map<Id, User>)
    requires token != "" && ' ' !in token && Truthy(env.jwtSecretKey)
    requires token in issued && Some(issued[token]) == GenerateToken(id, env.jwtSecretKey, nowMs)
    requires nowMs / 1000 <= laterSec < nowMs / 1000 + LifetimeSeconds
    requires id in users && !users[id].isDeleted && users[id].passwordChangedAt.None?
    ensures IsProtected.DecideIntended(Some("Bearer " + token), env, issued, laterSec, users, false)
            == Next(Some(IsProtected.DocumentAuth(id, users[id])))
  {
    assert "Bearer " + token == "Bearer" + " " + token;
    SplitSecondOfJoin("Bearer", token);
    assert StartsWith("Bearer " + token, "Bearer");
  }
}
