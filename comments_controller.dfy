/** backend/controllers/comments/commentsController.js: `createComment` stores a comment built
    from the body's `message`, the URL's `postId` and `req.userAuth._id`, then `$push`es its id
    onto the post's `comments` without checking that the post exists. */
module CommentsController {
  import opened Js
  import opened Mongo
  import opened ErrorHandler
  import opened PostModel
  import opened CommentModel
  import opened Http

  const CreatedMessage := "Comments successfully created!"

  /** The two stores `createComment` may write, and how the request ended. */
  datatype CommentStep = CommentStep(comments: map<Id, Comment>, posts: map<Id, Post>, outcome: Outcome)

  /** `$push: { comments: commentId }` on a post, with the update's timestamp. */
  function PushComment(commentId: Id, now: int): Post -> Post
  {
    (p: Post) => p.(comments := p.comments + [commentId], updatedAt := now)
  }

  /** `createComment` with `author` the value of `req.userAuth._id` and `newId` the ObjectId
      `Comment.create` assigns. */
  function CreateCommentSpec(comments: map<Id, Comment>, posts: map<Id, Post>, message: Option<string>,
                             author: Option<Id>, postId: Option<Id>, newId: Id, now: int): (r: CommentStep)
    requires newId !in comments
    ensures !(MessageValid(message) && author.Some? && postId.Some?)
            <==> r == CommentStep(comments, posts, Thrown(ValidationFailure("Comment")))
    ensures MessageValid(message) && author.Some? && postId.Some? ==>
              && r.outcome == Sent(201, "success", CreatedMessage)
              && r.comments == comments[newId := Comment(Trim(message.value), author.value, postId.value, now, now)]
              && r.posts == UpdateById(posts, postId.value, Everyone, PushComment(newId, now)).docs
  {
    match NewComment(message, author, postId, now)
    case Invalid(_) => CommentStep(comments, posts, Thrown(ValidationFailure("Comment")))
    case Valid(comment) =>
      CommentStep(comments[newId := comment],
                  UpdateById(posts, postId.value, Everyone, PushComment(newId, now)).docs,
                  Sent(201, "success", CreatedMessage))
  }

  /** A created comment is appended at the end of its post's `comments`, so `commentsCount`
      grows by one and nothing else in the post changes but `updatedAt`; when no such post
      exists the comment is stored all the same and no post changes. */
  lemma CommentAppended(comments: map<Id, Comment>, posts: map<Id, Post>, message: string,
                        author: Id, postId: Id, newId: Id, now: int)
    requires newId !in comments && MessageValid(Some(message))
    ensures var r := CreateCommentSpec(comments, posts, Some(message), Some(author), Some(postId), newId, now);
            && newId in r.comments && r.comments[newId].postId == postId
            && (postId in posts ==> r.posts[postId].comments == posts[postId].comments + [newId]
                                    && CommentsCount(r.posts[postId]) == CommentsCount(posts[postId]) + 1
                                    && r.posts[postId].(comments := posts[postId].comments, updatedAt := posts[postId].updatedAt) == posts[postId])
            && (postId !in posts ==> r.posts == posts)
  {
  }

  /** `$push` does not deduplicate: a comment id already in the post is appended again. */
  lemma PushDoesNotDeduplicate(p: Post, commentId: Id, now: int)
    requires commentId in p.comments
    ensures Count(PushComment(commentId, now)(p).comments, commentId) == Count(p.comments, commentId) + 1
  {
    assert multiset(p.comments + [commentId]) == multiset(p.comments) + multiset{commentId};
  }

  /** The `author` `createComment` passes: `req?.userAuth?._id`. */
  function CommentAuthor(userAuth: Option<AuthCtx>): Option<Id>
  {
    if userAuth.Some? then userAuth.value.underscoreId else None
  }

  /** The `author` evidently intended: `req.userAuth.id`, which `isLoggedIn` sets. */
  function IntendedCommentAuthor(userAuth: Option<AuthCtx>): Option<Id>
  {
    if userAuth.Some? then userAuth.value.id else None
  }

  /** `createComment(req, resp)`. */
  method CreateComment(comments: Collection<Comment>, posts: Collection<Post>, message: Option<string>,
                       author: Option<Id>, postId: Option<Id>, newId: Id, now: int) returns (outcome: Outcome)
    requires newId !in comments.docs
    modifies comments, posts
    ensures CommentStep(comments.docs, posts.docs, outcome)
            == CreateCommentSpec(old(comments.docs), old(posts.docs), message, author, postId, newId, now)
  {
    var validated := NewComment(message, author, postId, now);
    if validated.Invalid? {
      return Thrown(ValidationFailure("Comment"));
    }
    comments.Create(newId, validated.doc);
    var _ := posts.FindByIdAndUpdate(postId.value, Everyone, PushComment(newId, now));
    outcome := Sent(201, "success", CreatedMessage);
  }
}
