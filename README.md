# BlogyTech backend rules in Dafny

This project models the rules inside the BlogyTechApp Express/Mongoose blog backend and
proves properties of them:

- the post handlers: like, dislike, clap, schedule, feed, create, update and delete;
- the User model's lifecycle flags, its deleted-filter, password hook and secret tokens;
- the Post and Comment records;
- the four request gates (`isLoggedIn`, `protect`, `isAccountVerified`, `isActiveUser`);
- the upload validator;
- the category and comment controllers;
- the global error handler.

Each collection is a map from ObjectId (`Mongo.Id`) to record. Dates are integer
milliseconds since the epoch. Mongoose's update operators are written out as sequence
functions:

- `$addToSet` (`Mongo.AddToSet`);
- `$pull` (`Mongo.Pull`);
- `$push` (append);
- `$inc` (addition).

`findByIdAndUpdate` on a missing or filtered-out id returns null and changes nothing
(`Mongo.UpdateById`). The User model's `pre(/^find/)` hook is a visibility predicate
(`UserModel.FindFilter`), passed to every user query.

Modelling choices:

- **Imperative handlers.** Each handler that changes a store in the source is a method on a
  `Mongo.Collection<T>` class, proved equal to a pure function (`...Spec`). Lemmas about that
  function state what the handler promises.
- **Request gates.** Each gate is a pure decision function (`Decide`). The Express middleware
  wraps it as a method over an `Http.Request` whose `userAuth` field it writes.
- **Uploads.** `req.fileSizeLimits` and `req.file`/`req.files` are fields of
  `FileUpload.UploadRequest`. `fileFilter` writes them; `checkFileSize` reads them in a loop.
  `req.fileSizeLimits` is a plain JavaScript object, so the model keeps its own keys and
  follows what it inherits from `Object.prototype`. Assigning a number to `"__proto__"`
  records nothing. Reading an inherited name such as `toString` or `"__proto__"` gives a
  truthy non-number, and `size > limit` is then false.
- **Errors.** A handler ends either with a response it sent (`Sent(code, status, message)`)
  or with an error thrown to `express-async-handler` (`Thrown(err)`).
  `ErrorHandler.Respond` turns the latter into what `globalErrorHandler` sends. So a
  `res.status(400)` before a `throw` is overwritten: the client sees 500.
- **Cryptography.** JSON Web Tokens are a table of issued tokens: the claims and the signing
  secret of every token text handed out. `iat` and `exp` are seconds (section 2 of RFC 7519).
  bcrypt is the constructor `Bcrypt(previous, salt)`. SHA-256 is the injective constructor
  `Sha256Hex`. Random token text is a parameter.
- **Mongoose query casting.** An undefined value in a query filter is dropped, so the filter
  `{ title }` with no `title` is `{}` and matches every document. The model takes this as the
  behaviour of the Mongoose version the project uses.

## Model

| member | source | states |
|---|---|---|
| Js.SplitSecondOfJoin | backend/middlewares/isLoggedIn.js:21 | `split(" ")[1]` of `"Bearer " + t` is `t` for a space-free token |
| Js.Trim | backend/models/Comments/Comment.js:10 | the trimmed string is a slice of the input, with only white space cut at both ends and none left at either end |
| Js.TrimIdempotent | backend/models/Comments/Comment.js:10 | trimming twice is trimming once |
| Js.Utf16Length | backend/models/Comments/Comment.js:11-12 | a JavaScript string length lies between the number of code points and twice that |
| Js.TruncDiv | backend/models/Users/User.js:146-149 | `parseInt(a / d)` truncates toward zero: bounds for positive and negative `a` |
| Js.RoundDiv | backend/utils/fileUpload.js:103-105 | `Math.round(a / d)` is the nearest integer, halves rounding up |
| Mongo.AddToSet | backend/controllers/posts/postsController.js:213 | `$addToSet`: the value is present afterwards, added once only when absent; every other value's count is kept; the old array is a prefix |
| Mongo.AddToSetNoDuplicates | backend/controllers/posts/postsController.js:213 | `$addToSet` keeps a duplicate-free array duplicate-free and is idempotent |
| Mongo.Pull | backend/controllers/posts/postsController.js:214 | `$pull` never lengthens the array, leaves no occurrence of the value and keeps every other value as often as before |
| Mongo.PullAbsent | backend/controllers/posts/postsController.js:250 | pulling an absent value changes nothing |
| Mongo.PullNoDuplicates | backend/controllers/posts/postsController.js:214 | `$pull` keeps a duplicate-free array duplicate-free |
| Mongo.PullConcat | backend/controllers/posts/postsController.js:250 | `$pull` distributes over concatenation |
| Mongo.PullIdempotent | backend/controllers/posts/postsController.js:214 | pulling twice is pulling once |
| Mongo.Lookup | backend/models/Users/User.js:133-137 | a find by id returns the stored document exactly when it exists and the query's filter admits it |
| Mongo.UpdateById | backend/controllers/posts/postsController.js:210-217 | `findByIdAndUpdate` with `new: true`: null and no change for a missing or filtered id; otherwise the updated document, written back under its id |
| Mongo.DeleteById | backend/controllers/posts/postsController.js:173 | `findByIdAndDelete`: returns what the find would, and removes exactly that id |
| Mongo.Collection.FindById | backend/controllers/posts/postsController.js:201 | the query result equals `Lookup` on the stored documents |
| Mongo.Collection.FindByIdAndUpdate | backend/controllers/posts/postsController.js:210-217 | the store and the result become those of `UpdateById` |
| Mongo.Collection.FindByIdAndDelete | backend/controllers/posts/postsController.js:173 | the store and the result become those of `DeleteById` |
| Mongo.Collection.FindOne | backend/controllers/posts/postsController.js:15 | `findOne(filter)` is truthy exactly when some stored document matches |
| Mongo.Collection.Save | backend/controllers/posts/postsController.js:333-334 | `save()` of a loaded document replaces it under its id |
| Mongo.Collection.Create | backend/controllers/posts/postsController.js:36-42 | `Model.create` stores the new document under a fresh id |
| ErrorHandler.GlobalErrorHandler | backend/middlewares/globalErrorHandler.js:1-13 | status code defaults to 500 when missing or 0, otherwise is kept; status to "error", message to "Internal Server Error"; `stack` is in the body exactly in development |
| ErrorHandler.NotFound | backend/middlewares/globalErrorHandler.js:16-21 | `notFound` forwards an error with 404, "fail" and "Cannot find route <url>" |
| ErrorHandler.NotFoundResponse | backend/middlewares/globalErrorHandler.js:18-19 | an unknown route ends as HTTP 404 with status "fail" |
| ErrorHandler.PlainErrorIs500 | backend/middlewares/globalErrorHandler.js:3-5 | a thrown plain `Error` is answered 500 "error" with its message |
| Jwt.GenerateToken | backend/utils/generateToken.js:8-10 | signing needs a truthy secret; the token carries the id, `iat` is the current second and `exp` is one hour later |
| Jwt.Verify | backend/middlewares/isLoggedIn.js:32-40 | verification succeeds exactly for an issued token under its own secret before `exp`, and yields its claims |
| Jwt.SignVerifyRoundTrip | backend/utils/generateToken.js:8-10 | a generated token verifies under its secret until it expires, never under another secret, and not after expiry |
| UserModel.NewUser | backend/models/Users/User.js:32-58 | schema defaults: role user, bronze, not verified, active, not deleted, no password change, no tokens, empty arrays, username trimmed |
| UserModel.FindUserById | backend/models/Users/User.js:133-137 | a user query finds a user exactly when the user exists and is not soft-deleted, unless `skipDeleted` is set |
| UserModel.AfterSoftDelete | backend/models/Users/User.js:108-114 | `softDeleteById` sets isDeleted and clears isActive on a visible user, every other field unchanged; otherwise null and no change |
| UserModel.SoftDeleteById | backend/models/Users/User.js:108-114 | the static leaves the store and result of `AfterSoftDelete` |
| UserModel.AfterRestore | backend/models/Users/User.js:116-122 | `restoreById` on a soft-deleted user returns null and changes nothing; on a visible user it only reactivates |
| UserModel.RestoreById | backend/models/Users/User.js:116-122 | the static leaves the store and result of `AfterRestore` |
| UserModel.RestoreCannotUndoSoftDelete | backend/models/Users/User.js:116-122 | a restore after a soft delete finds nothing and the user stays deleted |
| UserModel.AfterRestoreIntended | backend/models/Users/User.js:116-122 | with `skipDeleted`, restoring reaches every existing user and sets isDeleted false and isActive true |
| UserModel.RestoreIntendedUndoesSoftDelete | backend/models/Users/User.js:116-122 | with the intended query, soft delete then restore gives back the active user, but for `updatedAt` |
| UserModel.PreSaved | backend/models/Users/User.js:125-131 | the pre-save hook rehashes only a modified password and sets `passwordChangedAt = now - 1000` only for a document saved before; nothing else changes |
| UserModel.UserDocument.PreSave | backend/models/Users/User.js:125-131 | the hook leaves the document `PreSaved` describes |
| UserModel.SavedPasswordMatches | backend/models/Users/User.js:140-142 | after a password is set and saved, `isPasswordMatch` accepts exactly that password |
| UserModel.UserDocument.IsPasswordMatch | backend/models/Users/User.js:140-142 | `bcrypt.compare` against the stored hash |
| UserModel.UserDocument.ChangedPasswordAfter | backend/models/Users/User.js:144-153 | false without `passwordChangedAt`; otherwise `iat < parseInt(passwordChangedAt / 1000)` |
| UserModel.PasswordChangeStaleWindow | backend/models/Users/User.js:129 | a password change on an existing user at `now` makes stale exactly the tokens issued before second `now/1000 - 1` |
| UserModel.NewUserNeverStale | backend/models/Users/User.js:129 | a user created with a password has no stale tokens |
| UserModel.UserDocument.GeneratePasswordResetToken | backend/models/Users/User.js:155-163 | stores the digest of the raw token, expiry now + 600000 ms, returns the raw token |
| UserModel.UserDocument.GenerateAccountVerificationToken | backend/models/Users/User.js:165-173 | the same for the verification token |
| UserModel.ResetTokenRoundTrip | backend/models/Users/User.js:155-173 | the stored digest accepts exactly the raw token handed out, and only for ten minutes |
| UserModel.TokensIndependent | backend/models/Users/User.js:155-173 | issuing one kind of token leaves the other kind's acceptance, the password, the flags and staleness unchanged |
| UserModel.UserDocument.ClearTokens | backend/models/Users/User.js:175-180 | unsets the four token fields and nothing else |
| UserModel.ClearTokensRevokes | backend/models/Users/User.js:175-180 | after `clearTokens` no token is accepted, and clearing undoes any issuing |
| PostModel.NewPost | backend/models/Posts/Post.js:5-64 | a post is valid exactly when title, image, content, author and category are given; then claps, shares and views are 0, no schedule, unpublished, empty arrays, and the new document passes the validators |
| PostModel.SchemaAllowsDuplicateLikes | backend/models/Posts/Post.js:47-52 | the schema puts no uniqueness on `likes`: for all arrays the count virtuals count every entry, and a repeated user makes `likes` not duplicate-free (validity is unaffected by construction) |
| PostsController.LikePostSpec | backend/controllers/posts/postsController.js:196-224 | 404 exactly for an unknown post, store unchanged; otherwise 200 and the post liked |
| PostsController.LikeEffect | backend/controllers/posts/postsController.js:210-217 | after a like the user is in likes and not dislikes, likes gains at most one entry, other users and other fields are unchanged, arrays stay duplicate-free |
| PostsController.LikeIdempotent | backend/controllers/posts/postsController.js:213 | liking twice is liking once |
| PostsController.LikePost | backend/controllers/posts/postsController.js:196-224 | the handler leaves the store and outcome of `LikePostSpec` |
| PostsController.DislikePostSpec | backend/controllers/posts/postsController.js:231-260 | 404 exactly for an unknown post; otherwise 200, the toggled post and the message of the branch taken |
| PostsController.DislikeToggle | backend/controllers/posts/postsController.js:245-257 | an existing dislike is removed and likes kept; otherwise the user is added to dislikes and removed from likes; others and other fields unchanged |
| PostsController.ReactionsExclusive | backend/controllers/posts/postsController.js:210-253 | after any like or dislike by a user, that user is not in both arrays |
| PostsController.DislikeTwiceDropsLike | backend/controllers/posts/postsController.js:245-253 | disliking twice leaves the post without the user's like |
| PostsController.DislikePost | backend/controllers/posts/postsController.js:231-260 | the handler leaves the store and outcome of `DislikePostSpec` |
| PostsController.ClapPostSpec | backend/controllers/posts/postsController.js:267-289 | 404 exactly for an unknown post; otherwise 200 and claps raised |
| PostsController.ClapsAccumulate | backend/controllers/posts/postsController.js:271-275 | each clap raises claps by exactly one and changes no other field, count or post |
| PostsController.ClapPost | backend/controllers/posts/postsController.js:267-289 | the handler leaves the store and outcome of `ClapPostSpec` |
| PostsController.SchedulePostSpec | backend/controllers/posts/postsController.js:296-341 | the ladder: no date 400, unknown post 404, not the author 403, past date 400; success exactly otherwise, and then only the schedule changes, with `updatedAt` touched only when the date differs |
| PostsController.SchedulePost | backend/controllers/posts/postsController.js:296-341 | the handler leaves the store and outcome of `SchedulePostSpec` |
| PostsController.Rescheduled | backend/controllers/posts/postsController.js:333-334 | the saved post has the new date; `updatedAt` becomes `now` only when the date changed; nothing else changes |
| PostsController.RescheduleSameDateUnchanged | backend/controllers/posts/postsController.js:333-334 | scheduling a post for the date it already has answers 200 and leaves the store unchanged |
| PostsController.GetAllPosts | backend/controllers/posts/postsController.js:67-101 | always 200; the response carries the feed set, and no `posts` field exactly when the feed is empty |
| PostsController.FeedMembers | backend/controllers/posts/postsController.js:72-85 | a post is in the feed exactly when it is released and its author is not a visible user who blocked the viewer |
| PostsController.BlockHidesExactlyAuthorsPosts | backend/controllers/posts/postsController.js:72-77 | a block by a visible author removes exactly that author's posts from the feed |
| PostsController.DeletedBlockerIgnored | backend/controllers/posts/postsController.js:72 | a soft-deleted user's block does not hide their posts |
| PostsController.FeedGrowsWithTime | backend/controllers/posts/postsController.js:78-81 | the feed at a later time contains the feed at an earlier time |
| PostsController.ScheduledPostAppearsWhenDue | backend/controllers/posts/postsController.js:78-81 | a scheduled post of an unblocked author is in the feed exactly from its scheduled time |
| PostsController.CreatePostSpec | backend/controllers/posts/postsController.js:11-60 | the ladder: duplicate title thrown, missing title or content 400, missing image thrown, invalid references thrown; success exactly otherwise, with the post stored and its id pushed to the author and category |
| PostsController.CreatedPostIsListed | backend/controllers/posts/postsController.js:45-52 | a created post is appended to its visible author's and its category's `posts`; other categories untouched |
| PostsController.MissingTitleReportedAsDuplicate | backend/controllers/posts/postsController.js:15-19 | with no title and a non-empty store the request fails as a duplicate |
| PostsController.CreatePostThrownIs500 | backend/controllers/posts/postsController.js:17-18 | every thrown createPost error reaches the client as 500 "error" |
| PostsController.CreatePost | backend/controllers/posts/postsController.js:11-60 | the handler leaves the three stores and outcome of `CreatePostSpec` |
| PostsController.UpdatePostSpec | backend/controllers/posts/postsController.js:133-164 | nothing to update 400; an emptied required path throws; unknown post 404; success exactly otherwise, with only title, content and `updatedAt` changed |
| PostsController.UpdateKeepsPostValid | backend/controllers/posts/postsController.js:145-148 | an accepted update keeps required paths non-empty and a valid post valid, changes only title and content, and is idempotent |
| PostsController.UpdatePost | backend/controllers/posts/postsController.js:133-164 | the handler leaves the store and outcome of `UpdatePostSpec` |
| PostsController.DeletePostSpec | backend/controllers/posts/postsController.js:171-189 | 404 exactly for an unknown post, 200 exactly for a known one, and the post removed |
| PostsController.DeleteLeavesReferences | backend/controllers/posts/postsController.js:171-189 | deleting a created post restores the posts store but leaves its id in the author's and category's `posts` |
| PostsController.DeletePost | backend/controllers/posts/postsController.js:171-189 | the handler leaves the store and outcome of `DeletePostSpec` |
| Http.Request.Attach | backend/middlewares/isLoggedIn.js:74-78 | `req.userAuth` is set exactly when the gate passed with a context |
| IsLoggedIn.SafeUserAuth | backend/middlewares/isLoggedIn.js:74-78 | the attached context is `{ id, email, role }`: no `_id`, no `isVerified` |
| IsLoggedIn.Decide | backend/middlewares/isLoggedIn.js:9-83 | next exactly when every check passes, with the user's `id`; in the source's order: no Bearer header 401, missing secret 500, failed verification 401, query error forwarded, no user 401, inactive user 403 (unless allowed), password changed after the token 401; rejections are 401, 403 or 500 |
| IsLoggedIn.IsLoggedIn | backend/middlewares/isLoggedIn.js:9-83 | the middleware decides as `Decide` and attaches the context only on success |
| IsLoggedIn.BadTokenRejectedBeforeLookup | backend/middlewares/isLoggedIn.js:32-40 | a token that fails verification gets 401 before any lookup |
| IsLoggedIn.DeletedUserNotFound | backend/middlewares/isLoggedIn.js:43-49 | a soft-deleted user is "not found" (401), even with `allowInactive` |
| IsLoggedIn.AllowInactiveSkipsOnlyActiveCheck | backend/middlewares/isLoggedIn.js:52-57 | `allowInactive` changes the decision only where the strict gate answered 403 |
| IsLoggedIn.StaleBoundary | backend/middlewares/isLoggedIn.js:60-71 | `iat` equal to the truncated change second passes; one less is stale |
| IsLoggedIn.FreshTokenPasses | backend/middlewares/isLoggedIn.js:14-78 | a fresh token of an active user with no password change passes and attaches that user |
| IsProtected.DocumentAuth | backend/middlewares/isProtected.js:38-39 | the whole document is attached: `id`, `_id` and `isVerified` are present |
| IsProtected.Decide | backend/middlewares/isProtected.js:5-53 | no "Bearer" prefix 401 "no token"; a failed verification or a throwing query 401 "token failed"; a missing or soft-deleted user 401 "User not found"; a password changed after the token 401 "Password recently changed"; never forwards; next exactly when every check passes, with the whole user document attached |
| IsProtected.Protect | backend/middlewares/isProtected.js:5-53 | the middleware decides as `Decide` and attaches the document only on success |
| IsProtected.NoSpaceMeansTokenFailed | backend/middlewares/isProtected.js:13-14 | a "Bearer" header without a space yields "token failed" |
| IsProtected.InactiveUserPasses | backend/middlewares/isProtected.js:16-39 | an inactive, not deleted user passes: there is no active check |
| IsAccountVerified.Decide | backend/middlewares/isAccountVerified.js:7-56 | no id 401; an attached `isVerified` decides alone; without it, a thrown query 500, a missing or soft-deleted user 404, an unverified stored user 401; next exactly for a verified user |
| IsActiveUser.Decide | backend/middlewares/isActiveUser.js:3-10 | a missing context gets no response; otherwise 403 with one message exactly when the user looked up by `_id` is absent, inactive or deleted, else next |
| IsActiveUser.DeletedTestIsRedundant | backend/middlewares/isActiveUser.js:4 | the deleted test never decides: the find filter already hides deleted users |
| FileUpload.ResourceParams | backend/utils/fileUpload.js:21-31 | folder "blogytech"; "image" exactly for an image prefix, "video" for video or audio, "raw" otherwise |
| FileUpload.MaxSize | backend/utils/fileUpload.js:59-63 | 10 MiB images, 50 MiB videos, 20 MiB audios, 5 MiB documents |
| FileUpload.AllowedTypesClassified | backend/utils/fileUpload.js:21-42 | every allowlisted type gets the resource type of its family |
| FileUpload.MaxSizeInWholeMiB | backend/utils/fileUpload.js:101-106 | every limit is a whole number of MiB, so the message's rounding is exact |
| FileUpload.FilterFile | backend/utils/fileUpload.js:47-75 | accepted exactly when allowlisted; otherwise 400 "Unsupported file type." and no change; an accepted file's limit is recorded under its name, except "__proto__", which records nothing; other names unchanged |
| FileUpload.SameNameOverwrites | backend/utils/fileUpload.js:65-66 | a later file with the same name overwrites the earlier limit; under "__proto__" neither is recorded |
| FileUpload.UploadRequest.FileFilter | backend/utils/fileUpload.js:47-75 | the filter writes `fileSizeLimits` and answers as `FilterFile` |
| FileUpload.FlattenMembers | backend/utils/fileUpload.js:92-95 | flattening `Object.values(req.files)` keeps exactly the files of the values |
| FileUpload.UploadRequest.AllFiles | backend/utils/fileUpload.js:86-96 | `allFiles` is `req.file` then the files of `req.files` in order |
| FileUpload.FirstOversizeMeaning | backend/utils/fileUpload.js:98-111 | the loop stops exactly when some file is oversize, at the first one |
| FileUpload.SizeCheck | backend/utils/fileUpload.js:85-114 | no error exactly when every collected file fits its limit; otherwise a 400 "fail" error naming the first oversize file |
| FileUpload.UploadRequest.CheckFileSize | backend/utils/fileUpload.js:85-114 | the loop's answer is `SizeCheck` |
| FileUpload.UnrecordedFileRejected | backend/utils/fileUpload.js:99-100 | a non-empty file with no recorded limit counts as limit 0 and is rejected, unless a dictionary exists and the name is inherited from `Object.prototype`: then it passes and the check goes on |
| FileUpload.FilteredSingleFile | backend/utils/fileUpload.js:59-100 | a single accepted file passes the size check exactly when it is within its type's limit or is named "__proto__" |
| FileUpload.MulterErrorHandler | backend/utils/fileUpload.js:119-131 | Multer codes map to "File too large.", "Unexpected file." or "File upload error.", all 400 "fail"; other errors pass unchanged |
| FileUpload.MulterErrorsAre400 | backend/utils/fileUpload.js:119-131 | a Multer error reaches the client as 400; any other as the handler would answer it |
| CommentModel.NewComment | backend/models/Comments/Comment.js:7-27 | valid exactly when the trimmed message has 1 to 500 UTF-16 units and author and post are given; the stored message is trimmed |
| CommentModel.BlankMessageRejected | backend/models/Comments/Comment.js:10-11 | an all-white-space message is rejected |
| CommentModel.StoredCommentRevalidates | backend/models/Comments/Comment.js:10-12 | a stored comment validates again unchanged |
| CommentsController.CreateCommentSpec | backend/controllers/comments/commentsController.js:8-34 | invalid input throws a validation error and changes nothing; otherwise 201, the comment stored and its id pushed onto the post |
| CommentsController.CommentAppended | backend/controllers/comments/commentsController.js:16-28 | the comment id is appended to its post's comments; with no such post the comment is still stored |
| CommentsController.PushDoesNotDeduplicate | backend/controllers/comments/commentsController.js:22-28 | `$push` appends an id already present again |
| CommentsController.CreateComment | backend/controllers/comments/commentsController.js:8-34 | the handler leaves the stores and outcome of `CreateCommentSpec` |
| CategoriesController.CreateCategorySpec | backend/controllers/categories/categoriesController.js:8-23 | a duplicate name throws exactly when a category matches; otherwise 200 and the category stored with name and author |
| CategoriesController.CreatePreservesUniqueNames | backend/controllers/categories/categoriesController.js:10-17 | creating keeps names unique; with no name, creating on a non-empty store throws |
| CategoriesController.DuplicateCategoryIs500 | backend/controllers/categories/categoriesController.js:10-13 | a duplicate name reaches the client as 500 "error" |
| CategoriesController.CreateCategory | backend/controllers/categories/categoriesController.js:8-23 | the handler leaves the store and outcome of `CreateCategorySpec` |
| CategoriesController.GetAllCategories | backend/controllers/categories/categoriesController.js:28-38 | 201 with exactly the stored categories, each under its own id |
| CategoriesController.ListingFollowsCreateAndDelete | backend/controllers/categories/categoriesController.js:8-50 | a created category is listed afterwards under its new id, with one more entry; a deleted one is not listed, and every other one still is |
| CategoriesController.DeleteCategorySpec | backend/controllers/categories/categoriesController.js:43-50 | always 201; the id removed if present, others unchanged |
| CategoriesController.DeletePreservesUniqueNames | backend/controllers/categories/categoriesController.js:43-50 | deleting keeps names unique and an unknown id changes nothing |
| CategoriesController.DeleteCategory | backend/controllers/categories/categoriesController.js:43-50 | the handler leaves the store and outcome of `DeleteCategorySpec` |
| CategoriesController.UpdateCategorySpec | backend/controllers/categories/categoriesController.js:55-68 | always 201; null exactly for an unknown id; otherwise only the name changes |
| CategoriesController.RenameCanDuplicateNames | backend/controllers/categories/categoriesController.js:55-68 | renaming does not check uniqueness: two categories can share a name |
| CategoriesController.UpdateCategory | backend/controllers/categories/categoriesController.js:55-68 | the handler leaves the store, outcome and returned document of `UpdateCategorySpec` |
| CrossFile.LoggedInThenActiveUserRejects | backend/middlewares/isActiveUser.js:3 | behind `isLoggedIn`, `isActiveUser` rejects every request with 403 |
| CrossFile.LoggedInThenIntendedActiveUserPasses | backend/middlewares/isActiveUser.js:3 | reading `id`, the gate behind `isLoggedIn` passes exactly the active users |
| CrossFile.LoggedInThenAccountVerifiedUsesStore | backend/middlewares/isAccountVerified.js:18 | behind `isLoggedIn`, `isAccountVerified` always falls back to the store and passes exactly the verified users |
| CrossFile.LoggedInThenCreateCommentFails | backend/controllers/comments/commentsController.js:18 | behind `isLoggedIn`, `createComment` never creates a comment and the client sees 500 |
| CrossFile.LoggedInThenIntendedCreateCommentSucceeds | backend/controllers/comments/commentsController.js:18 | with the intended author, a valid comment is created by the logged-in user |
| CrossFile.ProtectRejectsIssuedToken | backend/middlewares/isProtected.js:14 | when `JWT_KEY` differs from `JWT_SECRET_KEY`, `protect` rejects every issued token |
| CrossFile.IntendedProtectAcceptsIssuedToken | backend/middlewares/isProtected.js:14 | verifying with the signing secret, `protect` accepts a fresh token of an existing user |

## Left out

- UserModel.NewUser: does not lowercase the email. Mongoose's `lowercase` uses Unicode case mapping, which the model does not have.
- UserModel.NewUser: does not check the `required`, `minlength` and `unique` validators on username, email and password. Only the user controller, which is not part of this model, creates users.
- Profile pictures, cover photos, bio, location, gender, notification settings and the `fullName` virtual of the User schema are not modelled. No rule here reads them.
- IsActiveUser.Decide: a user query that throws is not modelled. The middleware is not wrapped by `express-async-handler`, so such a request would get no response, as a missing `req.userAuth` does.
- PostsController.UpdatePostSpec: body paths other than `title` and `content` are not modelled. Of the validation error's message, only its head is modelled.
- PostsController.SchedulePostSpec: the body's date arrives already parsed into milliseconds. An unparsable date (`Invalid Date`) is not modelled.
- Request ids that are not valid ObjectIds are not modelled. Mongoose answers them with a `CastError`; here every id is a `Mongo.Id`.
- Deleting a post or a category does not cascade to the arrays that reference it, as in the source (`PostsController.DeleteLeavesReferences` states this).
- `getSinglePost` and `populate` are left out: they hold no rule beyond a lookup. Response bodies are reduced to status code, `status` and `message`.
- backend/models/Categories/Category.js is not part of this model. Category validators, indexes and timestamps are therefore unknown, and a category is only what the controllers read and write.
- The user controller is not part of this model: backend/controllers/users/usersController.js does not parse. The routes, the e-mail services, the server bootstrap, the database connection, the demo script and the frontend are left out too.
- Cloudinary and Multer are not modelled. Multer's own error codes are an input to `FileUpload.MulterErrorHandler`.
- bcrypt, SHA-256, random bytes and JWT signatures are not computed. Each is an uninterpreted constructor, a table of issued tokens, or a parameter.
- Concurrent requests and the atomicity of createPost's three writes are not modelled: the writes run one after the other.
- `isAccountVerified` logs a failure to the console. That I/O is not modelled.
- JavaScript strings are Dafny strings of code points. `Js.Utf16Length` counts code points above U+FFFF as two units.

## Findings

| source | as written | input that shows it | evidently intended | confidence | as-written member | corrected member |
|---|---|---|---|---|---|---|
| backend/models/Users/User.js:116-122 | `restoreById`'s `findByIdAndUpdate` passes through the `pre(/^find/)` deleted-filter, so it never matches a soft-deleted user | a user soft-deleted with `softDeleteById`, then `restoreById` on the same id: null, user still deleted | the restore query sets `skipDeleted` and reaches the deleted user | high (proved on the model; not executed) | UserModel.RestoreCannotUndoSoftDelete | UserModel.RestoreIntendedUndoesSoftDelete |
| backend/middlewares/isActiveUser.js:3 | looks up `req.userAuth._id`, but `isLoggedIn` attaches only `id` | any request that passes `isLoggedIn` and then meets `isActiveUser`: 403 for an active user | look up `req.userAuth.id` | high (proved on the model; not executed) | CrossFile.LoggedInThenActiveUserRejects | CrossFile.LoggedInThenIntendedActiveUserPasses |
| backend/controllers/comments/commentsController.js:18 | the author is `req?.userAuth?._id`, undefined behind `isLoggedIn` | a valid comment posted by a logged-in user: the required author fails and the client sees 500 | author `req.userAuth.id` | high (proved on the model; not executed) | CrossFile.LoggedInThenCreateCommentFails | CrossFile.LoggedInThenIntendedCreateCommentSucceeds |
| backend/middlewares/isProtected.js:14 | verifies with `JWT_KEY`, while backend/utils/generateToken.js:8 signs with `JWT_SECRET_KEY` | a fresh token from `generateToken` when the two variables differ (or `JWT_KEY` is unset): 401 "token failed" | verify with `JWT_SECRET_KEY` | medium (depends on the environment; not executed) | CrossFile.ProtectRejectsIssuedToken | CrossFile.IntendedProtectAcceptsIssuedToken |
