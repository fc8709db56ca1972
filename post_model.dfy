/** backend/models/Posts/Post.js: the Post record, its required paths and defaults, and the
    count virtuals. The arrays are plain arrays: the schema itself enforces no uniqueness. */
module PostModel {
  import opened Js
  import opened Mongo

  /** A stored post. Dates are milliseconds since the epoch; `scheduledPublished` null is None. */
  datatype Post = Post(
    title: string,
    image: string,
    claps: int,
    content: string,
    author: Id,
    shares: int,
    postViews: int,
    category: Id,
    scheduledPublished: Option<int>,
    isPublished: bool,
    likes: seq<Id>,
    dislikes: seq<Id>,
    comments: seq<Id>,
    createdAt: int,
    updatedAt: int)

  /** The paths of a new post that fail validation, in schema order. A string path fails
      `required` when it is empty; `author` and `category` fail when absent or not an ObjectId. */
  function MissingPostPaths(title: string, image: string, content: string, author: Option<Id>, category: Option<Id>): seq<string>
  {
    (if title == "" then ["title"] else [])
    + (if image == "" then ["image"] else [])
    + (if content == "" then ["content"] else [])
    + (if author.None? then ["author"] else [])
    + (if category.None? then ["category"] else [])
  }

  /** A stored post passes the schema's validators: every required string is non-empty
      (author and category are always set in this model). */
  predicate PassesValidation(p: Post)
  {
    MissingPostPaths(p.title, p.image, p.content, Some(p.author), Some(p.category)) == []
  }

  /** `Post.create({ title, content, category, author, image })` at `now`: the validators,
      then the schema defaults. */
  function NewPost(title: string, image: string, content: string, author: Option<Id>, category: Option<Id>, now: int): (r: Validated<Post>)
    ensures r.Valid? <==> title != "" && image != "" && content != "" && author.Some? && category.Some?
    ensures r.Invalid? ==> r.paths != [] && (forall p :: p in r.paths ==> p in ["title", "image", "content", "author", "category"])
    ensures r.Valid? ==> r.doc.title == title && r.doc.image == image && r.doc.content == content
                         && r.doc.author == author.value && r.doc.category == category.value
    ensures r.Valid? ==> r.doc.claps == 0 && r.doc.shares == 0 && r.doc.postViews == 0
    ensures r.Valid? ==> r.doc.scheduledPublished.None? && !r.doc.isPublished
    ensures r.Valid? ==> r.doc.likes == [] && r.doc.dislikes == [] && r.doc.comments == []
    ensures r.Valid? ==> r.doc.createdAt == now && r.doc.updatedAt == now
    ensures r.Valid? ==> PassesValidation(r.doc)
  {
    var missing := MissingPostPaths(title, image, content, author, category);
    if missing != [] then Invalid(missing)
    else Valid(Post(title, image, 0, content, author.value, 0, 0, category.value, None, false, [], [], [], now, now))
  }

  /** The `likesCount` virtual. */
  function LikesCount(p: Post): nat
  {
    |p.likes|
  }

  /** The `dislikesCount` virtual. */
  function DislikesCount(p: Post): nat
  {
    |p.dislikes|
  }

  /** The `commentsCount` virtual. */
  function CommentsCount(p: Post): nat
  {
    |p.comments|
  }

  /** The schema's reaction and comment arrays carry no validator and no uniqueness: the count
      virtuals count every entry, a repeated user as often as it occurs. That replacing the
      arrays keeps a document as valid as it was holds by construction, since
      `PassesValidation` reads only the required paths. */
  lemma SchemaAllowsDuplicateLikes(p: Post, likes: seq<Id>, dislikes: seq<Id>, comments: seq<Id>)
    ensures var q := p.(likes := likes, dislikes := dislikes, comments := comments);
            && (PassesValidation(q) <==> PassesValidation(p))
            && LikesCount(q) == |likes| && DislikesCount(q) == |dislikes| && CommentsCount(q) == |comments|
    ensures |likes| >= 2 && likes[0] == likes[1] ==> !NoDuplicates(likes)
  {
  }
}
