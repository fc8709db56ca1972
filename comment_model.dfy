/** backend/models/Comments/Comment.js: the Comment record and its validators. `message` is
    trimmed by its setter before `required`, `minlength` and `maxlength` are checked, and the
    lengths are JavaScript string lengths (UTF-16 code units). */
module CommentModel {
  import opened Js
  import opened Mongo

  /** A stored comment, with the `timestamps` dates in milliseconds. */
  datatype Comment = Comment(message: string, author: Id, postId: Id, createdAt: int, updatedAt: int)

  const MaxMessageLength := 500

  /** The trimmed message passes `required`, `minlength: 1` and `maxlength: 500`. */
  predicate MessageValid(message: Option<string>)
  {
    message.Some? && 1 <= Utf16Length(Trim(message.value)) <= MaxMessageLength
  }

  /** The paths of a new comment that fail validation, in schema order; `author` and `postId`
      are None when absent or not an ObjectId. */
  function MissingCommentPaths(message: Option<string>, author: Option<Id>, postId: Option<Id>): seq<string>
  {
    (if MessageValid(message) then [] else ["message"])
    + (if author.None? then ["author"] else [])
    + (if postId.None? then ["postId"] else [])
  }

  /** `Comment.create({ message, author, postId })` at `now`. */
  function NewComment(message: Option<string>, author: Option<Id>, postId: Option<Id>, now: int): (r: Validated<Comment>)
    ensures r.Valid? <==> MessageValid(message) && author.Some? && postId.Some?
    ensures r.Invalid? ==> r.paths != [] && forall p :: p in r.paths ==> p in ["message", "author", "postId"]
    ensures r.Valid? ==> r.doc == Comment(Trim(message.value), author.value, postId.value, now, now)
    ensures r.Valid? ==> r.doc.message != [] && !IsWhiteSpace(r.doc.message[0]) && !IsWhiteSpace(r.doc.message[|r.doc.message| - 1])
    ensures r.Valid? ==> |r.doc.message| <= MaxMessageLength
  {
    var missing := MissingCommentPaths(message, author, postId);
    if missing != [] then Invalid(missing)
    else Valid(Comment(Trim(message.value), author.value, postId.value, now, now))
  }

  /** A message that is blank once trimmed is rejected, however long it is. */
  lemma BlankMessageRejected(message: string, author: Option<Id>, postId: Option<Id>, now: int)
    requires forall i :: 0 <= i < |message| ==> IsWhiteSpace(message[i])
    ensures NewComment(Some(message), author, postId, now).Invalid?
  {
    assert Trim(message) == [];
  }

  /** A stored comment validates again unchanged: its message is already trimmed. */
  lemma StoredCommentRevalidates(c: Comment, message: Option<string>, now: int)
    requires NewComment(message, Some(c.author), Some(c.postId), now) == Valid(c)
    ensures NewComment(Some(c.message), Some(c.author), Some(c.postId), now) == Valid(c)
  {
    TrimIdempotent(message.value);
  }
}
