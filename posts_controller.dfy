/** backend/controllers/posts/postsController.js: reactions (like, dislike, clap), scheduling,
    the feed of `getAllPosts`, and the validation ladders of create, update and delete.
    Each handler is a method over the stores it touches, tied to a function that states the
    store it leaves and the outcome; the lemmas below state what those functions mean.
    Responses are reduced to their status code, `status` and `message`. */
module PostsController {
  import opened Js
  import opened Mongo
  import opened ErrorHandler
  import opened UserModel
  import opened PostModel
  import opened CategoryModel

  const NotFoundMessage := "Post not found or invalid ID"
  const LikedMessage := "Post liked successfully!"
  const DislikeRemovedMessage := "Dislike removed"
  const DislikedMessage := "Post disliked successfully"

  // The scheduling and clap messages end in emoji that the source file holds re-encoded
  // through Windows-1252; the characters below are the ones the file holds.
  const ClappedMessage := "\U{F0}\U{178}\U{2018} Post clapped successfully!"
  const NoDateMessage := "Please provide a scheduled date for the post \U{F0}\U{178}\U{201C}\U{2026}"
  const ScheduleNotFoundMessage := "Post not found or invalid ID \U{F0}\U{178}\U{2DC}\U{2022}"
  const NotAuthorMessage := "You can schedule only your own post \U{F0}\U{178}\U{201D}\U{2019}"
  const PastDateMessage := "Scheduled date cannot be in the past \U{E2}\U{B0}"
  const ScheduledMessage := "Post scheduled successfully \U{E2}\U{153}\U{2026}"

  /** The posts store a handler leaves, and how the request ended. */
  datatype PostsStep = PostsStep(posts: map<Id, Post>, outcome: Outcome)

  // ---------------------------------------------------------------------------
  // likePost
  // ---------------------------------------------------------------------------

  /** The post after `$addToSet: { likes: userId }, $pull: { dislikes: userId }` at `now`. */
  function Liked(p: Post, userId: Id, now: int): Post
  {
    p.(likes := AddToSet(p.likes, userId), dislikes := Pull(p.dislikes, userId), updatedAt := now)
  }

  /** `likePost`: 404 for an unknown post, otherwise the liked post and 200. */
  function LikePostSpec(posts: map<Id, Post>, postId: Id, userId: Id, now: int): (r: PostsStep)
    ensures postId !in posts <==> r.outcome == Sent(404, "fail", NotFoundMessage)
    ensures postId !in posts ==> r.posts == posts
    ensures postId in posts ==> r.outcome == Sent(200, "success", LikedMessage)
                                && r.posts == posts[postId := Liked(posts[postId], userId, now)]
  {
    if postId !in posts then PostsStep(posts, Sent(404, "fail", NotFoundMessage))
    else PostsStep(posts[postId := Liked(posts[postId], userId, now)], Sent(200, "success", LikedMessage))
  }

  /** After a like the user is in `likes` and not in `dislikes`; every other user keeps their
      entries in both arrays; `likes` gains at most one entry; no other field changes but
      `updatedAt`; and duplicate-free arrays stay duplicate-free. */
  lemma LikeEffect(p: Post, u: Id, now: int)
    ensures var q := Liked(p, u, now);
            u in q.likes && u !in q.dislikes
            && Count(q.likes, u) == (if u in p.likes then Count(p.likes, u) else 1)
            && (forall y :: y != u ==> Count(q.likes, y) == Count(p.likes, y) && Count(q.dislikes, y) == Count(p.dislikes, y))
            && q.(likes := p.likes, dislikes := p.dislikes, updatedAt := p.updatedAt) == p
    ensures NoDuplicates(p.likes) ==> NoDuplicates(Liked(p, u, now).likes)
    ensures NoDuplicates(p.dislikes) ==> NoDuplicates(Liked(p, u, now).dislikes)
  {
    AddToSetNoDuplicates(p.likes, u);
    if NoDuplicates(p.dislikes) {
      PullNoDuplicates(p.dislikes, u);
    }
  }

  /** Liking twice is liking once. */
  lemma LikeIdempotent(p: Post, u: Id, now: int)
    ensures Liked(Liked(p, u, now), u, now) == Liked(p, u, now)
  {
    AddToSetNoDuplicates(p.likes, u);
    PullIdempotent(p.dislikes, u);
  }

  /** `likePost(req, res)` with `req.params.postId == postId` and `req.userAuth.id == userId`. */
  method LikePost(posts: Collection<Post>, postId: Id, userId: Id, now: int) returns (outcome: Outcome)
    modifies posts
    ensures PostsStep(posts.docs, outcome) == LikePostSpec(old(posts.docs), postId, userId, now)
  {
    var post := posts.FindById(postId, Everyone);
    if post.None? {
      return Sent(404, "fail", NotFoundMessage);
    }
    var updatedPost := posts.FindByIdAndUpdate(postId, Everyone,
      (p: Post) => p.(likes := AddToSet(p.likes, userId), dislikes := Pull(p.dislikes, userId), updatedAt := now));
    outcome := Sent(200, "success", LikedMessage);
  }

  // ---------------------------------------------------------------------------
  // dislikePost
  // ---------------------------------------------------------------------------

  /** The post after the toggle of `dislikePost` at `now`: a user already disliking is removed
      from `dislikes`; any other user is added to `dislikes` and removed from `likes`. */
  function Disliked(p: Post, u: Id, now: int): Post
  {
    if u in p.dislikes then p.(dislikes := Pull(p.dislikes, u), updatedAt := now)
    else p.(dislikes := AddToSet(p.dislikes, u), likes := Pull(p.likes, u), updatedAt := now)
  }

  /** The message names the branch the toggle took. */
  function DislikeMessage(p: Post, u: Id): string
  {
    if u in p.dislikes then DislikeRemovedMessage else DislikedMessage
  }

  /** `dislikePost`: 404 for an unknown post, otherwise the toggled post and 200. */
  function DislikePostSpec(posts: map<Id, Post>, postId: Id, userId: Id, now: int): (r: PostsStep)
    ensures postId !in posts <==> r.outcome == Sent(404, "fail", NotFoundMessage)
    ensures postId !in posts ==> r.posts == posts
    ensures postId in posts ==> r.outcome == Sent(200, "success", DislikeMessage(posts[postId], userId))
                                && r.posts == posts[postId := Disliked(posts[postId], userId, now)]
  {
    if postId !in posts then PostsStep(posts, Sent(404, "fail", NotFoundMessage))
    else PostsStep(posts[postId := Disliked(posts[postId], userId, now)],
                   Sent(200, "success", DislikeMessage(posts[postId], userId)))
  }

  /** The toggle: removing an existing dislike leaves `likes` as it was; a new dislike puts the
      user in `dislikes` and out of `likes`. Either way every other user keeps their entries,
      the message says which branch ran, and no other field changes but `updatedAt`. */
  lemma DislikeToggle(p: Post, u: Id, now: int)
    ensures var q := Disliked(p, u, now);
            u in p.dislikes ==> u !in q.dislikes && q.likes == p.likes && DislikeMessage(p, u) == DislikeRemovedMessage
    ensures var q := Disliked(p, u, now);
            u !in p.dislikes ==> u in q.dislikes && u !in q.likes && DislikeMessage(p, u) == DislikedMessage
    ensures var q := Disliked(p, u, now);
            forall y :: y != u ==> Count(q.likes, y) == Count(p.likes, y) && Count(q.dislikes, y) == Count(p.dislikes, y)
    ensures var q := Disliked(p, u, now);
            q.(likes := p.likes, dislikes := p.dislikes, updatedAt := p.updatedAt) == p
  {
  }

  /** After any like or dislike by `u`, `u` is never in both arrays. */
  lemma ReactionsExclusive(p: Post, u: Id, now: int)
    ensures !(u in Liked(p, u, now).likes && u in Liked(p, u, now).dislikes)
    ensures !(u in Disliked(p, u, now).likes && u in Disliked(p, u, now).dislikes)
  {
  }

  /** Disliking twice does not restore the post: the first dislike pulled the user's like,
      and the second only removes the dislike again. */
  lemma DislikeTwiceDropsLike(p: Post, u: Id, t1: int, t2: int)
    requires u !in p.dislikes
    ensures Disliked(Disliked(p, u, t1), u, t2) == p.(likes := Pull(p.likes, u), updatedAt := t2)
  {
    PullConcat(p.dislikes, [u], u);
    PullAbsent(p.dislikes, u);
    assert Pull([u], u) == [];
  }

  /** `dislikePost(req, res)`. */
  method DislikePost(posts: Collection<Post>, postId: Id, userId: Id, now: int) returns (outcome: Outcome)
    modifies posts
    ensures PostsStep(posts.docs, outcome) == DislikePostSpec(old(posts.docs), postId, userId, now)
  {
    var post := posts.FindById(postId, Everyone);
    if post.None? {
      return Sent(404, "fail", NotFoundMessage);
    }
    var isDisliked := userId in post.value.dislikes;
    var updatedPost;
    if isDisliked {
      updatedPost := posts.FindByIdAndUpdate(postId, Everyone,
        (p: Post) => p.(dislikes := Pull(p.dislikes, userId), updatedAt := now));
    } else {
      updatedPost := posts.FindByIdAndUpdate(postId, Everyone,
        (p: Post) => p.(dislikes := AddToSet(p.dislikes, userId), likes := Pull(p.likes, userId), updatedAt := now));
    }
    outcome := Sent(200, "success", if isDisliked then DislikeRemovedMessage else DislikedMessage);
  }

  // ---------------------------------------------------------------------------
  // clapPost
  // ---------------------------------------------------------------------------

  /** The post after `$inc: { claps: 1 }` at `now`. */
  function Clapped(p: Post, now: int): Post
  {
    p.(claps := p.claps + 1, updatedAt := now)
  }

  /** `clapPost`: the update runs first; a null result is then answered 404. */
  function ClapPostSpec(posts: map<Id, Post>, postId: Id, now: int): (r: PostsStep)
    ensures postId !in posts <==> r.outcome == Sent(404, "fail", NotFoundMessage)
    ensures postId !in posts ==> r.posts == posts
    ensures postId in posts ==> r.outcome == Sent(200, "success", ClappedMessage)
                                && r.posts == posts[postId := Clapped(posts[postId], now)]
  {
    var u := UpdateById(posts, postId, Everyone, (p: Post) => Clapped(p, now));
    if u.result.None? then PostsStep(posts, Sent(404, "fail", NotFoundMessage))
    else PostsStep(u.docs, Sent(200, "success", ClappedMessage))
  }

  /** A clap raises `claps` by exactly one and touches no reaction, comment or other post:
      `n` requests on the same post raise it by `n` (shown for two). */
  lemma ClapsAccumulate(posts: map<Id, Post>, postId: Id, t1: int, t2: int)
    requires postId in posts
    ensures var once := ClapPostSpec(posts, postId, t1).posts;
            var twice := ClapPostSpec(once, postId, t2).posts;
            && once[postId].claps == posts[postId].claps + 1
            && twice[postId].claps == posts[postId].claps + 2
            && twice[postId].(claps := posts[postId].claps, updatedAt := posts[postId].updatedAt) == posts[postId]
            && LikesCount(twice[postId]) == LikesCount(posts[postId])
            && DislikesCount(twice[postId]) == DislikesCount(posts[postId])
            && CommentsCount(twice[postId]) == CommentsCount(posts[postId])
            && twice.Keys == posts.Keys
            && (forall other :: other in posts && other != postId ==> twice[other] == posts[other])
  {
  }

  /** `clapPost(req, res)`. */
  method ClapPost(posts: Collection<Post>, postId: Id, now: int) returns (outcome: Outcome)
    modifies posts
    ensures PostsStep(posts.docs, outcome) == ClapPostSpec(old(posts.docs), postId, now)
  {
    var post := posts.FindByIdAndUpdate(postId, Everyone, (p: Post) => Clapped(p, now));
    if post.None? {
      return Sent(404, "fail", NotFoundMessage);
    }
    outcome := Sent(200, "success", ClappedMessage);
  }

  // ---------------------------------------------------------------------------
  // schedulePost
  // ---------------------------------------------------------------------------

  /** `schedulePost` with the body's `scheduledPublished` as a date in milliseconds (None when
      it is falsy) by the user `userId` at `now`: the checks in the source's order, then the
      new date is assigned and the post saved. */
  function SchedulePostSpec(posts: map<Id, Post>, postId: Id, userId: Id, requested: Option<int>, now: int): (r: PostsStep)
    ensures requested.None? ==> r == PostsStep(posts, Sent(400, "fail", NoDateMessage))
    ensures requested.Some? && postId !in posts ==> r == PostsStep(posts, Sent(404, "fail", ScheduleNotFoundMessage))
    ensures requested.Some? && postId in posts && posts[postId].author != userId
            ==> r == PostsStep(posts, Sent(403, "fail", NotAuthorMessage))
    ensures requested.Some? && postId in posts && posts[postId].author == userId && requested.value < now
            ==> r == PostsStep(posts, Sent(400, "fail", PastDateMessage))
    ensures r.outcome == Sent(200, "success", ScheduledMessage)
            <==> requested.Some? && postId in posts && posts[postId].author == userId && now <= requested.value
    ensures r.outcome.code == 200 ==> r.posts == posts[postId := Rescheduled(posts[postId], requested.value, now)]
    ensures r.outcome.code != 200 ==> r.posts == posts
  {
    if requested.None? then PostsStep(posts, Sent(400, "fail", NoDateMessage))
    else if postId !in posts then PostsStep(posts, Sent(404, "fail", ScheduleNotFoundMessage))
    else if posts[postId].author != userId then PostsStep(posts, Sent(403, "fail", NotAuthorMessage))
    else if requested.value < now then PostsStep(posts, Sent(400, "fail", PastDateMessage))
    else PostsStep(posts[postId := Rescheduled(posts[postId], requested.value, now)],
                   Sent(200, "success", ScheduledMessage))
  }

  /** The post after `post.scheduledPublished = date; post.save()` at `now`: Mongoose marks the
      path modified only when the date differs, and the timestamps hook touches `updatedAt`
      only for a modified document. */
  function Rescheduled(p: Post, date: int, now: int): (r: Post)
    ensures r.scheduledPublished == Some(date)
    ensures r.updatedAt == (if p.scheduledPublished == Some(date) then p.updatedAt else now)
    ensures r.(scheduledPublished := p.scheduledPublished, updatedAt := p.updatedAt) == p
  {
    var modified := p.scheduledPublished != Some(date);
    p.(scheduledPublished := Some(date), updatedAt := if modified then now else p.updatedAt)
  }

  /** Scheduling a post for the date it already has succeeds and changes nothing stored. */
  lemma RescheduleSameDateUnchanged(posts: map<Id, Post>, postId: Id, userId: Id, date: int, now: int)
    requires postId in posts && posts[postId].author == userId && now <= date
    requires posts[postId].scheduledPublished == Some(date)
    ensures SchedulePostSpec(posts, postId, userId, Some(date), now) == PostsStep(posts, Sent(200, "success", ScheduledMessage))
  {
    assert Rescheduled(posts[postId], date, now) == posts[postId];
  }

  /** `schedulePost(req, res)`. */
  method SchedulePost(posts: Collection<Post>, postId: Id, userId: Id, requested: Option<int>, now: int) returns (outcome: Outcome)
    modifies posts
    ensures PostsStep(posts.docs, outcome) == SchedulePostSpec(old(posts.docs), postId, userId, requested, now)
  {
    if requested.None? {
      return Sent(400, "fail", NoDateMessage);
    }
    var post := posts.FindById(postId, Everyone);
    if post.None? {
      return Sent(404, "fail", ScheduleNotFoundMessage);
    }
    if post.value.author != userId {
      return Sent(403, "fail", NotAuthorMessage);
    }
    var scheduleDate := requested.value;
    if scheduleDate < now {
      return Sent(400, "fail", PastDateMessage);
    }
    posts.Save(postId, Rescheduled(post.value, scheduleDate, now));
    outcome := Sent(200, "success", ScheduledMessage);
  }

  // ---------------------------------------------------------------------------
  // getAllPosts
  // ---------------------------------------------------------------------------

  /** The ids of `User.find({ blockedUsers: viewer })`: the deleted-filter applies to it. */
  function BlockingUsers(users: map<Id, User>, viewer: Id): set<Id>
  {
    set id | id in users && FindFilter(false)(users[id]) && viewer in users[id].blockedUsers
  }

  /** `scheduledPublished` is null or not after `now`. */
  predicate Released(p: Post, now: int)
  {
    p.scheduledPublished.None? || p.scheduledPublished.value <= now
  }

  /** The ids of the posts `getAllPosts` returns to `viewer` at `now`. */
  function FeedIds(users: map<Id, User>, posts: map<Id, Post>, viewer: Id, now: int): set<Id>
  {
    set pid | pid in posts && posts[pid].author !in BlockingUsers(users, viewer) && Released(posts[pid], now)
  }

  /** The response of `getAllPosts`: `posts` is absent from the body when there are none. */
  datatype FeedResponse = FeedResponse(code: int, message: string, posts: Option<set<Id>>)

  function GetAllPosts(users: map<Id, User>, posts: map<Id, Post>, viewer: Id, now: int): (r: FeedResponse)
    ensures r.code == 200
    ensures r.posts.None? <==> r.message == "No posts found yet. Be the first to create one!"
    ensures r.posts.Some? ==> r.posts.value != {} && r.message == "Posts fetched successfully"
    ensures r.posts.None? <==> FeedIds(users, posts, viewer, now) == {}
    ensures r.posts.Some? ==> r.posts.value == FeedIds(users, posts, viewer, now)
  {
    var feed := FeedIds(users, posts, viewer, now);
    if feed == {} then FeedResponse(200, "No posts found yet. Be the first to create one!", None)
    else FeedResponse(200, "Posts fetched successfully", Some(feed))
  }

  /** A post is in the feed exactly when it exists, no visible user who wrote it has blocked
      the viewer, and it is not scheduled after `now`. */
  lemma FeedMembers(users: map<Id, User>, posts: map<Id, Post>, viewer: Id, now: int, pid: Id)
    ensures pid in FeedIds(users, posts, viewer, now)
            <==> pid in posts && Released(posts[pid], now)
                 && !(posts[pid].author in users && !users[posts[pid].author].isDeleted
                      && viewer in users[posts[pid].author].blockedUsers)
  {
  }

  /** An author who is not deleted and blocks the viewer hides exactly their own posts:
      adding the viewer to their `blockedUsers` removes their posts from the feed and no other. */
  lemma BlockHidesExactlyAuthorsPosts(users: map<Id, User>, posts: map<Id, Post>, viewer: Id, now: int, a: Id)
    requires a in users && !users[a].isDeleted
    ensures var blocked := users[a := users[a].(blockedUsers := users[a].blockedUsers + [viewer])];
            FeedIds(blocked, posts, viewer, now)
            == FeedIds(users, posts, viewer, now) - (set pid | pid in posts && posts[pid].author == a)
  {
    var blocked := users[a := users[a].(blockedUsers := users[a].blockedUsers + [viewer])];
    assert viewer in blocked[a].blockedUsers;
    assert BlockingUsers(blocked, viewer) == BlockingUsers(users, viewer) + {a};
  }

  /** A soft-deleted user's block does not apply: `User.find` never returns them. */
  lemma DeletedBlockerIgnored(users: map<Id, User>, posts: map<Id, Post>, viewer: Id, now: int, pid: Id)
    requires pid in posts && Released(posts[pid], now)
    requires posts[pid].author in users && users[posts[pid].author].isDeleted
    ensures pid in FeedIds(users, posts, viewer, now)
  {
  }

  /** The feed only grows as time passes: a released post stays released. */
  lemma FeedGrowsWithTime(users: map<Id, User>, posts: map<Id, Post>, viewer: Id, t1: int, t2: int)
    requires t1 <= t2
    ensures FeedIds(users, posts, viewer, t1) <= FeedIds(users, posts, viewer, t2)
  {
  }

  /** A scheduled post from an unblocked author appears exactly from its scheduled time on. */
  lemma ScheduledPostAppearsWhenDue(users: map<Id, User>, posts: map<Id, Post>, viewer: Id, now: int, pid: Id)
    requires pid in posts && posts[pid].scheduledPublished.Some?
    requires posts[pid].author !in BlockingUsers(users, viewer)
    ensures pid in FeedIds(users, posts, viewer, now) <==> posts[pid].scheduledPublished.value <= now
  {
  }

  // ---------------------------------------------------------------------------
  // createPost
  // ---------------------------------------------------------------------------

  const DuplicateTitleMessage := "Post with this title already exists"
  const MissingFieldsMessage := "Title and content are required to create a post."
  const NoImageMessage := "Image is required"
  const CreatedMessage := "Post created successfully"

  /** The filter `{ title }`: an undefined `title` is dropped by Mongoose's query casting and the
      filter `{}` then matches every post. */
  function TitleFilter(title: Option<string>): Post -> bool
  {
    (p: Post) => title.None? || p.title == title.value
  }

  /** The three stores `createPost` may write, and how the request ended. */
  datatype CreateStep = CreateStep(posts: map<Id, Post>, users: map<Id, User>, categories: map<Id, Category>, outcome: Outcome)

  /** `$push: { posts: postId }` on a user, with the update's timestamp. */
  function PushUserPost(postId: Id, now: int): User -> User
  {
    (u: User) => u.(posts := u.posts + [postId], updatedAt := now)
  }

  /** `$push: { posts: postId }` on a category. */
  function PushCategoryPost(postId: Id): Category -> Category
  {
    (c: Category) => c.(posts := c.posts + [postId])
  }

  /** `createPost` with body `{ title, content, categoryId }`, `req.file.path` as `image` (None
      when there is no file or path), `req.userAuth.id` as `author`, and `newId` the ObjectId
      `Post.create` assigns. */
  function CreatePostSpec(posts: map<Id, Post>, users: map<Id, User>, categories: map<Id, Category>,
                          title: Option<string>, content: Option<string>, categoryId: Option<Id>,
                          image: Option<string>, author: Option<Id>, newId: Id, now: int): (r: CreateStep)
    requires newId !in posts
    ensures AnyMatch(posts, TitleFilter(title))
            ==> r == CreateStep(posts, users, categories, Thrown(PlainError(DuplicateTitleMessage)))
    ensures !AnyMatch(posts, TitleFilter(title)) && (!Truthy(title) || !Truthy(content))
            ==> r == CreateStep(posts, users, categories, Sent(400, "fail", MissingFieldsMessage))
    ensures !AnyMatch(posts, TitleFilter(title)) && Truthy(title) && Truthy(content) && !Truthy(image)
            ==> r == CreateStep(posts, users, categories, Thrown(PlainError(NoImageMessage)))
    ensures r.outcome == Sent(201, "success", CreatedMessage)
            <==> !AnyMatch(posts, TitleFilter(title)) && Truthy(title) && Truthy(content) && Truthy(image)
                 && author.Some? && categoryId.Some?
    ensures !AnyMatch(posts, TitleFilter(title)) && Truthy(title) && Truthy(content) && Truthy(image)
            && (author.None? || categoryId.None?)
            ==> r == CreateStep(posts, users, categories, Thrown(ValidationFailure("Post")))
    ensures r.outcome != Sent(201, "success", CreatedMessage)
            ==> r.posts == posts && r.users == users && r.categories == categories
    ensures r.outcome == Sent(201, "success", CreatedMessage) ==>
              && r.posts == posts[newId := NewPost(title.value, image.value, content.value, author, categoryId, now).doc]
              && r.users == UpdateById(users, author.value, FindFilter(false), PushUserPost(newId, now)).docs
              && r.categories == UpdateById(categories, categoryId.value, Everyone, PushCategoryPost(newId)).docs
  {
    if AnyMatch(posts, TitleFilter(title)) then CreateStep(posts, users, categories, Thrown(PlainError(DuplicateTitleMessage)))
    else if !Truthy(title) || !Truthy(content) then CreateStep(posts, users, categories, Sent(400, "fail", MissingFieldsMessage))
    else if !Truthy(image) then CreateStep(posts, users, categories, Thrown(PlainError(NoImageMessage)))
    else match NewPost(title.value, image.value, content.value, author, categoryId, now)
      case Invalid(_) => CreateStep(posts, users, categories, Thrown(ValidationFailure("Post")))
      case Valid(post) =>
        CreateStep(posts[newId := post],
                   UpdateById(users, author.value, FindFilter(false), PushUserPost(newId, now)).docs,
                   UpdateById(categories, categoryId.value, Everyone, PushCategoryPost(newId)).docs,
                   Sent(201, "success", CreatedMessage))
  }

  /** A created post is listed: appended to its author's `posts` when the author is visible to
      the find filter, and to its category's `posts` when the category exists; other users and
      categories are untouched. */
  lemma CreatedPostIsListed(posts: map<Id, Post>, users: map<Id, User>, categories: map<Id, Category>,
                            title: string, content: string, categoryId: Id, image: string, author: Id, newId: Id, now: int)
    requires newId !in posts
    requires !AnyMatch(posts, TitleFilter(Some(title))) && title != "" && content != "" && image != ""
    ensures var r := CreatePostSpec(posts, users, categories, Some(title), Some(content), Some(categoryId), Some(image), Some(author), newId, now);
            && r.outcome == Sent(201, "success", CreatedMessage)
            && newId in r.posts && r.posts[newId].author == author && r.posts[newId].category == categoryId
            && (author in users && !users[author].isDeleted ==> r.users[author].posts == users[author].posts + [newId])
            && (author !in users || users[author].isDeleted ==> r.users == users)
            && (categoryId in categories ==> r.categories[categoryId].posts == categories[categoryId].posts + [newId])
            && (forall c :: c in categories && c != categoryId ==> c in r.categories && r.categories[c] == categories[c])
  {
  }

  /** The first check runs on the raw body: with no `title` at all, the filter matches any post,
      so once one post exists the request fails as a duplicate before the 400 check is reached. */
  lemma MissingTitleReportedAsDuplicate(posts: map<Id, Post>, users: map<Id, User>, categories: map<Id, Category>,
                                        content: Option<string>, categoryId: Option<Id>, image: Option<string>,
                                        author: Option<Id>, newId: Id, now: int)
    requires newId !in posts && posts != map[]
    ensures CreatePostSpec(posts, users, categories, None, content, categoryId, image, author, newId, now).outcome
            == Thrown(PlainError(DuplicateTitleMessage))
  {
    var pid :| pid in posts;
    assert TitleFilter(None)(posts[pid]);
  }

  /** `res.status(400)` before `throw` is overwritten by the error handler: a duplicate title
      and a missing image both reach the client as 500 "error". */
  lemma CreatePostThrownIs500(posts: map<Id, Post>, users: map<Id, User>, categories: map<Id, Category>,
                              title: Option<string>, content: Option<string>, categoryId: Option<Id>,
                              image: Option<string>, author: Option<Id>, newId: Id, now: int, nodeEnv: Option<string>)
    requires newId !in posts
    ensures var r := CreatePostSpec(posts, users, categories, title, content, categoryId, image, author, newId, now);
            r.outcome.Thrown? ==> Respond(r.outcome, nodeEnv).code == 500 && Respond(r.outcome, nodeEnv).body.status == "error"
  {
  }

  /** `createPost(req, res)`: the three writes run one after the other. */
  method CreatePost(posts: Collection<Post>, users: Collection<User>, categories: Collection<Category>,
                    title: Option<string>, content: Option<string>, categoryId: Option<Id>,
                    image: Option<string>, author: Option<Id>, newId: Id, now: int) returns (outcome: Outcome)
    requires newId !in posts.docs
    modifies posts, users, categories
    ensures CreateStep(posts.docs, users.docs, categories.docs, outcome)
            == CreatePostSpec(old(posts.docs), old(users.docs), old(categories.docs), title, content, categoryId, image, author, newId, now)
  {
    var postFound := posts.FindOne(TitleFilter(title));
    if postFound {
      return Thrown(PlainError(DuplicateTitleMessage));
    }
    if !Truthy(title) || !Truthy(content) {
      return Sent(400, "fail", MissingFieldsMessage);
    }
    if !Truthy(image) {
      return Thrown(PlainError(NoImageMessage));
    }
    var validated := NewPost(title.value, image.value, content.value, author, categoryId, now);
    if validated.Invalid? {
      return Thrown(ValidationFailure("Post"));
    }
    posts.Create(newId, validated.doc);
    var _ := users.FindByIdAndUpdate(author.value, FindFilter(false), PushUserPost(newId, now));
    var _ := categories.FindByIdAndUpdate(categoryId.value, Everyone, PushCategoryPost(newId));
    outcome := Sent(201, "success", CreatedMessage);
  }

  // ---------------------------------------------------------------------------
  // updatePost
  // ---------------------------------------------------------------------------

  const NothingToUpdateMessage := "Please provide title or content to update the post."
  const UpdatedMessage := "Post updated successfully!"

  /** The `title` and `content` of the request body; None where the body leaves a path out. */
  datatype PostPatch = PostPatch(title: Option<string>, content: Option<string>)

  /** The post with the body's paths set, at `now`. */
  function Patched(p: Post, patch: PostPatch, now: int): Post
  {
    p.(title := if patch.title.Some? then patch.title.value else p.title,
       content := if patch.content.Some? then patch.content.value else p.content,
       updatedAt := now)
  }

  /** With `runValidators`, a path the body sets to "" fails `required` before the query runs.
      Only the head of the `ValidationError` message is modelled. */
  predicate PatchInvalid(patch: PostPatch)
  {
    patch.title == Some("") || patch.content == Some("")
  }

  /** `updatePost`: 400 when neither field is truthy, a thrown validation error when the body
      empties a required path, 404 for an unknown post, otherwise the patched post and 200. */
  function UpdatePostSpec(posts: map<Id, Post>, postId: Id, patch: PostPatch, now: int): (r: PostsStep)
    ensures !Truthy(patch.title) && !Truthy(patch.content)
            ==> r == PostsStep(posts, Sent(400, "failed", NothingToUpdateMessage))
    ensures (Truthy(patch.title) || Truthy(patch.content)) && PatchInvalid(patch)
            ==> r == PostsStep(posts, Thrown(PlainError("Validation failed")))
    ensures r.outcome == Sent(200, "success", UpdatedMessage)
            <==> (Truthy(patch.title) || Truthy(patch.content)) && !PatchInvalid(patch) && postId in posts
    ensures (Truthy(patch.title) || Truthy(patch.content)) && !PatchInvalid(patch) && postId !in posts
            ==> r == PostsStep(posts, Sent(404, "failed", NotFoundMessage))
    ensures r.outcome == Sent(200, "success", UpdatedMessage) ==> r.posts == posts[postId := Patched(posts[postId], patch, now)]
    ensures r.outcome != Sent(200, "success", UpdatedMessage) ==> r.posts == posts
  {
    if !Truthy(patch.title) && !Truthy(patch.content) then PostsStep(posts, Sent(400, "failed", NothingToUpdateMessage))
    else if PatchInvalid(patch) then PostsStep(posts, Thrown(PlainError("Validation failed")))
    else
      var u := UpdateById(posts, postId, Everyone, (p: Post) => Patched(p, patch, now));
      if u.result.None? then PostsStep(posts, Sent(404, "failed", NotFoundMessage))
      else PostsStep(u.docs, Sent(200, "success", UpdatedMessage))
  }

  /** An accepted update keeps every required path non-empty, changes only `title`, `content`
      and `updatedAt`, and repeating it changes nothing more. */
  lemma UpdateKeepsPostValid(p: Post, patch: PostPatch, now: int)
    requires !PatchInvalid(patch)
    ensures var q := Patched(p, patch, now);
            (p.title != "" ==> q.title != "") && (p.content != "" ==> q.content != "")
            && (PassesValidation(p) ==> PassesValidation(q))
            && q.(title := p.title, content := p.content, updatedAt := p.updatedAt) == p
            && Patched(q, patch, now) == q
  {
  }

  /** `updatePost(req, res)`. */
  method UpdatePost(posts: Collection<Post>, postId: Id, patch: PostPatch, now: int) returns (outcome: Outcome)
    modifies posts
    ensures PostsStep(posts.docs, outcome) == UpdatePostSpec(old(posts.docs), postId, patch, now)
  {
    if !Truthy(patch.title) && !Truthy(patch.content) {
      return Sent(400, "failed", NothingToUpdateMessage);
    }
    if patch.title == Some("") || patch.content == Some("") {
      return Thrown(PlainError("Validation failed"));
    }
    var updatedPost := posts.FindByIdAndUpdate(postId, Everyone, (p: Post) => Patched(p, patch, now));
    if updatedPost.None? {
      return Sent(404, "failed", NotFoundMessage);
    }
    outcome := Sent(200, "success", UpdatedMessage);
  }

  // ---------------------------------------------------------------------------
  // deletePost
  // ---------------------------------------------------------------------------

  /** `deletePost`: 404 for an unknown post, otherwise the post is removed and 200. */
  function DeletePostSpec(posts: map<Id, Post>, postId: Id): (r: PostsStep)
    ensures postId !in posts <==> r.outcome == Sent(404, "failed", NotFoundMessage)
    ensures postId in posts <==> r.outcome == Sent(200, "success", "Post deleted successfully")
    ensures r.posts == posts - {postId}
  {
    var d := DeleteById(posts, postId, Everyone);
    if d.result.None? then PostsStep(posts, Sent(404, "failed", NotFoundMessage))
    else PostsStep(d.docs, Sent(200, "success", "Post deleted successfully"))
  }

  /** Deleting a post just created gives back the posts store as it was, but nothing cascades:
      the author's `posts` and the category's `posts` still hold the deleted id. */
  lemma DeleteLeavesReferences(posts: map<Id, Post>, users: map<Id, User>, categories: map<Id, Category>,
                               title: string, content: string, categoryId: Id, image: string, author: Id, newId: Id, now: int)
    requires newId !in posts
    requires !AnyMatch(posts, TitleFilter(Some(title))) && title != "" && content != "" && image != ""
    requires author in users && !users[author].isDeleted && categoryId in categories
    ensures var created := CreatePostSpec(posts, users, categories, Some(title), Some(content), Some(categoryId), Some(image), Some(author), newId, now);
            var deleted := DeletePostSpec(created.posts, newId);
            && deleted.posts == posts
            && newId in created.users[author].posts
            && newId in created.categories[categoryId].posts
  {
    var created := CreatePostSpec(posts, users, categories, Some(title), Some(content), Some(categoryId), Some(image), Some(author), newId, now);
    assert created.posts == posts[newId := created.posts[newId]];
    assert created.users[author].posts == users[author].posts + [newId];
  }

  /** `deletePost(req, res)`. */
  method DeletePost(posts: Collection<Post>, postId: Id) returns (outcome: Outcome)
    modifies posts
    ensures PostsStep(posts.docs, outcome) == DeletePostSpec(old(posts.docs), postId)
  {
    var deletedPost := posts.FindByIdAndDelete(postId, Everyone);
    if deletedPost.None? {
      return Sent(404, "failed", NotFoundMessage);
    }
    outcome := Sent(200, "success", "Post deleted successfully");
  }
}
