# Hamro Media core, modelled in Dafny

Hamro Media is a small social-media client: users register and sign in, post
images with captions, like and unlike posts, follow each other, and browse a
feed. Everything it stores lives in a remote document database. This project
models the part of the app that has statable behaviour once the UI and the
cloud SDKs are removed:

- **Post membership rule** (`model.dfy`, module `Model`). Whether a viewer has liked a post
  is derived from the post's `likedBy` array. The parameterless property of the same
  name is a constant `false`.
- **Document store** (`store.dfy`, module `Store`). The remote store is a class
  `Firestore` with four fields:
  - `users` and `posts`: maps from document id to record;
  - `following` and `followers`: the two mirrored follow subcollections, as sets of
    `(owner, other)` edges.

  The module also defines `arrayUnion`, `arrayRemove` and the posts queries. A query
  is a filter, then newest-first ordering by `createdAt`.
- **Repositories** (`auth_repository.dfy`, `post_repository.dfy`). Every repository
  operation is a method that writes the store in the order the source does.
  - A `Fault` input names which remote call throws, if any. This makes partial,
    non-atomic writes visible.
  - Value-level functions (`Followed`, `Unfollowed`, `Liked`, `Unliked`, `Created`,
    `Deleted`) describe each successful operation's effect. Lemmas about these
    functions state the promised properties.
  - The counter facts include:
    - follow counters are floored at zero;
    - `postsCount` and `likeCount` have no floor;
    - `likeCount` drifts away from `|likedBy|` when a user likes a post twice.
- **State holders** (`auth_view_model.dfy`, `post_view_model.dfy`). `AuthViewModel` and
  `PostViewModel` are classes whose record-valued fields are reassigned step by step.
  - A ghost history records every value each state field is assigned. This states
    "first set loading and clear the error, then apply success or failure".
  - Each operation takes the repository's outcome as an input.
  - When an operation launches a further coroutine (`loadUserProfile`, `loadPosts`,
    `loadComments`, the fallback `updateProfile`), the method returns what that
    coroutine will work on. The caller runs it as the next step.
- **Feed labels** (`time_labels.dfy`, module `TimeLabels`).
  - `formatTimestamp` takes the clock reading as a parameter and puts a post's age
    into five buckets.
  - The like-count label appears only when `likeCount > 0` and uses "like" only for 1.

Two facts about the code shape the model:
- Only the two follow counters are floored at zero. `postsCount` and `likeCount`
  move with no floor.
- `PostState` holds no liked-posts list, and no operation loads one.

Stated assumptions about the document store:
- `set` creates or overwrites a document.
- `update` of a missing document fails.
- `delete` of a missing document succeeds.
- Reading a missing document yields `null`.
- `arrayUnion` appends the element only when it is absent.
- `arrayRemove` removes every occurrence.
- `increment(n)` adds `n`.

## Model

| member | source | states |
|---|---|---|
| `Model.NewUser` | app/src/main/java/com/example/hamro_media/model/User.kt:3-13 | a user built from id, username and email has empty image URL and bio, all three counters 0, and is stamped with the given time |
| `Model.Post.IsLikedByCurrentUser` | app/src/main/java/com/example/hamro_media/model/Post.kt:16-18 | no viewer (null id) has liked any post; a viewer with id `u` has liked it exactly when `u` is in `likedBy` |
| `Model.Post.LikedFlag` | app/src/main/java/com/example/hamro_media/model/Post.kt:20-21 | the parameterless property is false for every post |
| `Model.DefaultPost` | app/src/main/java/com/example/hamro_media/model/Post.kt:3-14 | a default-constructed post has `likeCount` 0, `commentCount` 0 and empty `likedBy`. Its two timestamps are two separate clock readings |
| `Model.DefaultPostLikedByNobody` | app/src/main/java/com/example/hamro_media/model/Post.kt:10-17 | no viewer, signed in or not, has liked a default post |
| `Model.LikedFlagIgnoresLikedBy` | app/src/main/java/com/example/hamro_media/model/Post.kt:16-21 | for every user in `likedBy` the function reports "liked" while the property reports "not liked" |
| `Store.AtLeastZero` | app/src/main/java/com/example/hamro_media/repository/AuthRepositoryImpl.kt:198 | `coerceAtLeast(0)` yields a non-negative value that is never below its input, and differs from the input only when the input is negative (then 0) |
| `Store.ArrayUnion` | app/src/main/java/com/example/hamro_media/repository/PostRepositoryImpl.kt:132 | after `arrayUnion(x)` the array holds exactly the old elements and `x`. The old array is kept as a prefix, at most one element is added, nothing changes when `x` was present, and a duplicate-free array stays duplicate-free |
| `Store.ArrayRemove` | app/src/main/java/com/example/hamro_media/repository/PostRepositoryImpl.kt:147 | after `arrayRemove(x)` the array holds exactly the old elements other than `x`, is no longer, and is unchanged when `x` was absent |
| `Store.ArrayRemoveUndoesUnion` | app/src/main/java/com/example/hamro_media/repository/PostRepositoryImpl.kt:131-149 | removing an element that a union has just added restores the original array |
| `Store.ArrayRemoveKeepsNoDuplicates` | app/src/main/java/com/example/hamro_media/repository/PostRepositoryImpl.kt:147 | removal keeps a duplicate-free liker array duplicate-free |
| `Store.LikedFilterAgreesWithLikedStatus` | app/src/main/java/com/example/hamro_media/repository/PostRepositoryImpl.kt:77-80 | the liked-posts query's `whereArrayContains("likedBy", u)` selects exactly the posts whose liked status for `u` is true |
| `Store.InsertNewestFirst` | app/src/main/java/com/example/hamro_media/repository/PostRepositoryImpl.kt:45 | one insertion step of the newest-first ordering adds exactly the new id and keeps every id stored |
| `Store.InsertNewestFirstSorted` | app/src/main/java/com/example/hamro_media/repository/PostRepositoryImpl.kt:45 | insertion keeps a list ordered by `createdAt` non-increasing |
| `Store.Firestore.QueryPosts` | app/src/main/java/com/example/hamro_media/repository/PostRepositoryImpl.kt:60-68 | a posts query returns every document the filter selects, each exactly once, and nothing else, ordered by `createdAt` non-increasing |
| `Store.FeedIsExactlyTheSelectedPosts` | app/src/main/java/com/example/hamro_media/repository/PostRepositoryImpl.kt:42-90 | a query's post list has one entry per selected document, every entry is a stored post the filter selects, every selected post appears, and the list is newest first |
| `AuthRepo.Login` | app/src/main/java/com/example/hamro_media/repository/AuthRepositoryImpl.kt:14-23 | login succeeds exactly when sign-in yields a user, returning that user. A sign-in failure keeps its message, and a sign-in with no user fails with "Login failed" |
| `AuthRepo.AdjustFollowCounts` | app/src/main/java/com/example/hamro_media/repository/AuthRepositoryImpl.kt:182-210 | counter adjustment keeps the same user ids and leaves every other user untouched. It changes nothing when either user is missing or a read fails. Otherwise the follower's `followingCount` becomes `max(0, old ± 1)` with its other fields kept. Unless the fourth call fails, the target's `followersCount` also becomes `max(0, old ± 1)`, where old is the value read before any write. A self-follow writes both counters of the one record, and any counter written is non-negative |
| `AuthRepo.AuthRepository.Register` | app/src/main/java/com/example/hamro_media/repository/AuthRepositoryImpl.kt:25-43 | registration fails with the service's message, or with "Registration failed" when no user comes back, writing nothing. Otherwise it writes `User(uid, username, email)` with all counters 0 under `uid`, unless that write fails |
| `AuthRepo.AuthRepository.UpdateProfile` | app/src/main/java/com/example/hamro_media/repository/AuthRepositoryImpl.kt:67-77 | the profile document of `user.userId` becomes `user`, and nothing else changes |
| `AuthRepo.AuthRepository.GetUserProfile` | app/src/main/java/com/example/hamro_media/repository/AuthRepositoryImpl.kt:79-92 | returns the stored profile exactly when the read succeeds and a record exists; a missing record gives "User not found" |
| `AuthRepo.AuthRepository.FollowUser` | app/src/main/java/com/example/hamro_media/repository/AuthRepositoryImpl.kt:94-119 | follow succeeds exactly when both edge writes succeed. A failure at the second write leaves the `following` edge without its mirror. On success both mirrored edges exist, and a failure inside the counter update does not make follow fail |
| `AuthRepo.AuthRepository.UnfollowUser` | app/src/main/java/com/example/hamro_media/repository/AuthRepositoryImpl.kt:121-146 | the mirror image of follow: both edges are deleted in order, then the counters move down, floored at zero |
| `AuthRepo.AuthRepository.IsFollowing` | app/src/main/java/com/example/hamro_media/repository/AuthRepositoryImpl.kt:148-160 | reports whether the edge `c -> t` is stored under `c`'s `following`, or the read's failure |
| `AuthRepo.AuthRepository.UpdateUserStats` | app/src/main/java/com/example/hamro_media/repository/AuthRepositoryImpl.kt:162-180 | with all three counters null it writes nothing and succeeds, even when the store would fail. Otherwise it replaces exactly the given counters of an existing user, and fails without writing when the user is missing or the update fails |
| `AuthRepo.AuthRepository.UpdateFollowCounts` | app/src/main/java/com/example/hamro_media/repository/AuthRepositoryImpl.kt:182-210 | the reads and the two counter writes change the users exactly as counter adjustment describes and touch nothing else |
| `AuthRepo.FollowCreatesMirroredEdges` | app/src/main/java/com/example/hamro_media/repository/AuthRepositoryImpl.kt:96-110 | after a successful follow `(c,t)` is in `following` and `(t,c)` in `followers`, so `isFollowing(c,t)` reports true |
| `AuthRepo.UnfollowRemovesMirroredEdges` | app/src/main/java/com/example/hamro_media/repository/AuthRepositoryImpl.kt:123-137 | after a successful unfollow neither edge remains, so `isFollowing(c,t)` reports false |
| `AuthRepo.UnfollowCountsNeverNegative` | app/src/main/java/com/example/hamro_media/repository/AuthRepositoryImpl.kt:192-205 | after an unfollow of two stored users both adjusted counters are non-negative, whatever they were before |
| `AuthRepo.FollowTwiceCountsTwice` | app/src/main/java/com/example/hamro_media/repository/AuthRepositoryImpl.kt:97-113 | following twice leaves the edge sets as after one follow but adds 2 to both counters |
| `AuthRepo.RefollowBreaksFollowingCount` | app/src/main/java/com/example/hamro_media/repository/AuthRepositoryImpl.kt:96-113 | if the following counter matched the stored edges and the edge already existed, following again leaves the counter one above the edge count |
| `AuthRepo.UnfollowUndoesFollow` | app/src/main/java/com/example/hamro_media/repository/AuthRepositoryImpl.kt:94-146 | following a new edge and then unfollowing it, with non-negative counters, restores the whole store |
| `AuthRepo.WithStatsChangesOnlyGivenCounters` | app/src/main/java/com/example/hamro_media/repository/AuthRepositoryImpl.kt:164-176 | a stats update takes each given counter, keeps each null one, and changes no other field; with all three null the record is unchanged |
| `PostRepo.PostRepository.CreatePost` | app/src/main/java/com/example/hamro_media/repository/PostRepositoryImpl.kt:21-40 | an upload failure fails with nothing written. Otherwise the post is written under `post.id` with the uploaded URL and all other fields unchanged, and the author's `postsCount` then goes up by 1. A missing author or a failed increment fails but leaves the post written |
| `PostRepo.PostRepository.GetAllPosts` | app/src/main/java/com/example/hamro_media/repository/PostRepositoryImpl.kt:42-56 | returns all stored posts, newest first, or the query's failure |
| `PostRepo.PostRepository.GetUserPosts` | app/src/main/java/com/example/hamro_media/repository/PostRepositoryImpl.kt:58-73 | returns exactly the stored posts whose `userId` is the given user, newest first, or the query's failure |
| `PostRepo.PostRepository.GetLikedPosts` | app/src/main/java/com/example/hamro_media/repository/PostRepositoryImpl.kt:75-90 | returns exactly the stored posts whose `likedBy` contains the given user, newest first, or the query's failure |
| `PostRepo.PostRepository.UpdatePost` | app/src/main/java/com/example/hamro_media/repository/PostRepositoryImpl.kt:92-102 | on success the document `post.id` is replaced whole by `post` with `updatedAt` set to the current time. A deleted post is recreated |
| `PostRepo.PostRepository.DeletePost` | app/src/main/java/com/example/hamro_media/repository/PostRepositoryImpl.kt:104-125 | deleting a post that is not stored succeeds and changes nothing. A stored post is removed, then its author's `postsCount` goes down by 1 with no floor. A missing author or a failed decrement fails after the removal |
| `PostRepo.PostRepository.LikePost` | app/src/main/java/com/example/hamro_media/repository/PostRepositoryImpl.kt:127-140 | succeeds exactly when the post exists and the update succeeds. It then adds the user to `likedBy` if absent and adds 1 to `likeCount` unconditionally; a failure changes nothing |
| `PostRepo.PostRepository.UnlikePost` | app/src/main/java/com/example/hamro_media/repository/PostRepositoryImpl.kt:142-155 | succeeds exactly when the post exists and the update succeeds. It then removes the user from `likedBy` and subtracts 1 from `likeCount` unconditionally; a failure changes nothing |
| `PostRepo.LikeStatusFollowsLikeAndUnlike` | app/src/main/java/com/example/hamro_media/repository/PostRepositoryImpl.kt:127-155 | after a like the user is shown as having liked the post and it is in their liked-posts feed; after an unlike neither holds |
| `PostRepo.LikeTwiceCountsTwice` | app/src/main/java/com/example/hamro_media/repository/PostRepositoryImpl.kt:131-134 | liking twice leaves `likedBy` as after one like but `likeCount` 2 higher |
| `PostRepo.LikeByNewLikerKeepsCount` | app/src/main/java/com/example/hamro_media/repository/PostRepositoryImpl.kt:131-134 | a like by a user not yet in `likedBy` keeps `likeCount == |likedBy|` and a duplicate-free array |
| `PostRepo.LikeByExistingLikerDrifts` | app/src/main/java/com/example/hamro_media/repository/PostRepositoryImpl.kt:131-134 | a like by a user already in `likedBy` leaves `likeCount` one above `|likedBy|` |
| `PostRepo.UnlikeCanGoNegative` | app/src/main/java/com/example/hamro_media/repository/PostRepositoryImpl.kt:146-149 | unliking a default post gives `likeCount` -1 with `likedBy` still empty |
| `PostRepo.UnlikeUndoesFirstLike` | app/src/main/java/com/example/hamro_media/repository/PostRepositoryImpl.kt:127-155 | a like by a new liker followed by the matching unlike restores the whole store |
| `PostRepo.DeleteUndoesCreate` | app/src/main/java/com/example/hamro_media/repository/PostRepositoryImpl.kt:104-125 | deleting a post just created under a fresh id restores the whole store, `postsCount` included |
| `PostRepo.DeleteHasNoFloor` | app/src/main/java/com/example/hamro_media/repository/PostRepositoryImpl.kt:114-119 | deleting a post whose author has `postsCount` 0 leaves it at -1 |
| `PostRepo.UpdateWithStaleCopyLosesLike` | app/src/main/java/com/example/hamro_media/repository/PostRepositoryImpl.kt:94-97 | an update with a copy read before a like erases that like: the liker is no longer shown and `likeCount` is the copy's |
| `AuthViewModels.SubstringBefore` | app/src/main/java/com/example/hamro_media/viewmodel/AuthViewModel.kt:144 | `substringBefore('@')` is the prefix before the first '@'. It contains no '@', and is the whole text when there is no '@' |
| `AuthViewModels.FallbackUser` | app/src/main/java/com/example/hamro_media/viewmodel/AuthViewModel.kt:139-152 | the fallback profile has the account's uid. Its username is the email's prefix before the first '@', the whole email when there is no '@', or "user" with empty email when the email is null. All counters are 0 |
| `AuthViewModels.AuthViewModel.constructor` | app/src/main/java/com/example/hamro_media/viewmodel/AuthViewModel.kt:17-21 | starts with `AuthState()` and no current user |
| `AuthViewModels.AuthViewModel.Login` | app/src/main/java/com/example/hamro_media/viewmodel/AuthViewModel.kt:27-46 | first publishes loading with the error cleared. Success then gives authenticated, not loading, and launches the profile load for the uid. Failure gives not loading with the error message. `currentUser` is unchanged either way |
| `AuthViewModels.AuthViewModel.Register` | app/src/main/java/com/example/hamro_media/viewmodel/AuthViewModel.kt:48-67 | same transitions as login, driven by the registration outcome |
| `AuthViewModels.AuthViewModel.ResetPassword` | app/src/main/java/com/example/hamro_media/viewmodel/AuthViewModel.kt:69-87 | first publishes loading with the error cleared. Success sets `passwordResetSent` and failure sets the error. `isAuthenticated` and `currentUser` are unchanged |
| `AuthViewModels.AuthViewModel.Logout` | app/src/main/java/com/example/hamro_media/viewmodel/AuthViewModel.kt:89-97 | success resets the state to `AuthState()` and the current user to null; a failed logout changes nothing |
| `AuthViewModels.AuthViewModel.UpdateProfile` | app/src/main/java/com/example/hamro_media/viewmodel/AuthViewModel.kt:99-115 | first publishes loading with the error cleared. Success makes exactly the given user current; failure records the error and keeps the current user |
| `AuthViewModels.AuthViewModel.CheckCurrentUser` | app/src/main/java/com/example/hamro_media/viewmodel/AuthViewModel.kt:117-129 | with a session it marks the state authenticated and launches the profile load; without one it only clears loading |
| `AuthViewModels.AuthViewModel.LoadUserProfile` | app/src/main/java/com/example/hamro_media/viewmodel/AuthViewModel.kt:131-159 | a found profile becomes current. Otherwise, with a session, the fallback profile becomes current and is handed on to be saved. Without a session nothing changes |
| `AuthViewModels.AuthViewModel.ClearError` | app/src/main/java/com/example/hamro_media/viewmodel/AuthViewModel.kt:161-163 | changes only `error`, to null |
| `AuthViewModels.AuthViewModel.ClearPasswordResetFlag` | app/src/main/java/com/example/hamro_media/viewmodel/AuthViewModel.kt:165-167 | changes only `passwordResetSent`, to false |
| `AuthViewModels.AuthViewModel.LoadOtherUserProfile` | app/src/main/java/com/example/hamro_media/viewmodel/AuthViewModel.kt:169-179 | the callback gets the profile on success and null on failure |
| `AuthViewModels.AuthViewModel.FollowUser` | app/src/main/java/com/example/hamro_media/viewmodel/AuthViewModel.kt:181-196 | with no current user it reports false and asks the repository nothing. Otherwise it issues a follow request from the current user to the target and reports whether that succeeded |
| `AuthViewModels.AuthViewModel.UnfollowUser` | app/src/main/java/com/example/hamro_media/viewmodel/AuthViewModel.kt:198-213 | the same guard. Otherwise it issues an unfollow request from the current user to the target and reports whether that succeeded |
| `AuthViewModels.AuthViewModel.CheckIfFollowing` | app/src/main/java/com/example/hamro_media/viewmodel/AuthViewModel.kt:215-230 | with a current user it issues an is-following lookup from that user to the target. It reports true exactly when there is a current user and the lookup succeeds with true, so a failed lookup reports false |
| `PostViewModels.PostViewModel.constructor` | app/src/main/java/com/example/hamro_media/viewmodel/PostViewModel.kt:21-25 | starts with `PostState()` and `CommentsState()` |
| `PostViewModels.PostViewModel.LoadPosts` | app/src/main/java/com/example/hamro_media/viewmodel/PostViewModel.kt:27-45 | first publishes loading with the error cleared. Success replaces `posts`; failure records the error and keeps the old lists. `userPosts`, `isPostCreated` and the comments are unchanged |
| `PostViewModels.PostViewModel.LoadUserPosts` | app/src/main/java/com/example/hamro_media/viewmodel/PostViewModel.kt:47-65 | as `LoadPosts`, but success replaces only `userPosts`; `posts` is unchanged |
| `PostViewModels.PostViewModel.CreatePost` | app/src/main/java/com/example/hamro_media/viewmodel/PostViewModel.kt:67-88 | sends the post with the fresh id and first publishes loading. Success sets `isPostCreated` and reloads the full feed; failure records the error and does not reload |
| `PostViewModels.PostViewModel.UpdatePost` | app/src/main/java/com/example/hamro_media/viewmodel/PostViewModel.kt:90-100 | success reloads the full feed and changes no state; failure sets only `error` |
| `PostViewModels.PostViewModel.DeletePost` | app/src/main/java/com/example/hamro_media/viewmodel/PostViewModel.kt:102-112 | success reloads the full feed and changes no state; failure sets only `error` |
| `PostViewModels.PostViewModel.LikePost` | app/src/main/java/com/example/hamro_media/viewmodel/PostViewModel.kt:114-121 | reloads the full feed exactly on success; no state changes either way |
| `PostViewModels.PostViewModel.UnlikePost` | app/src/main/java/com/example/hamro_media/viewmodel/PostViewModel.kt:123-130 | reloads the full feed exactly on success; no state changes either way |
| `PostViewModels.PostViewModel.AddComment` | app/src/main/java/com/example/hamro_media/viewmodel/PostViewModel.kt:132-147 | touches only the comments state. It first publishes loading. Success leaves it loading and launches the reload of the post's comments; failure clears loading and records the error |
| `PostViewModels.PostViewModel.LoadComments` | app/src/main/java/com/example/hamro_media/viewmodel/PostViewModel.kt:149-167 | touches only the comments state. It first publishes loading; success replaces the comments, and failure records the error |
| `PostViewModels.PostViewModel.ClearPostCreatedFlag` | app/src/main/java/com/example/hamro_media/viewmodel/PostViewModel.kt:169-171 | changes only `isPostCreated`, to false |
| `PostViewModels.PostViewModel.ClearError` | app/src/main/java/com/example/hamro_media/viewmodel/PostViewModel.kt:173-176 | nulls the error of both the feed and the comments state, and changes nothing else |
| `TimeLabels.DecimalString` | app/src/main/java/com/example/hamro_media/view/HomeActivity.kt:346 | a rendered number is a non-empty string of decimal digits with no leading zero, starting with '0' only for 0 |
| `TimeLabels.DigitsValueOfDecimalString` | app/src/main/java/com/example/hamro_media/view/HomeActivity.kt:346-348 | reading a rendered number back gives the number |
| `TimeLabels.Bucket` | app/src/main/java/com/example/hamro_media/view/HomeActivity.kt:344-352 | a time difference gets one of five labels, numbered 0 to 4: just now, minutes, hours, days, date |
| `TimeLabels.BucketMonotone` | app/src/main/java/com/example/hamro_media/view/HomeActivity.kt:344-352 | the bucket never decreases as the difference grows |
| `TimeLabels.FormatTimestamp` | app/src/main/java/com/example/hamro_media/view/HomeActivity.kt:340-354 | under a minute (negative included) gives "Just now". Then come whole minutes 1..59 + "m", whole hours 1..23 + "h" and whole days 1..6 + "d", each number `n` with `n * unit <= diff < (n + 1) * unit`. Each number has no leading zero. A week or more gives the formatted date |
| `TimeLabels.FutureTimestampIsJustNow` | app/src/main/java/com/example/hamro_media/view/HomeActivity.kt:342-345 | a timestamp after the clock reading shows "Just now" |
| `TimeLabels.LikeLabel` | app/src/main/java/com/example/hamro_media/view/HomeActivity.kt:303-305 | the label is shown exactly when `likeCount > 0`. It starts with the count in decimal, with no leading zero. What follows is exactly " like" when the count is 1 and exactly " likes" otherwise |

## Left out

- `Store.Firestore.QueryPosts`: posts with equal `createdAt` may come in any order. The document store breaks such ties by document id; this model does not.
- Authentication service: sign-in, account creation, password reset, sign-out and session lookup are outside the model.
  - Their outcomes are inputs.
  - `resetPassword`, `logout` and `getCurrentUser` of the auth repository pass those outcomes through unchanged, so they have no separate member.
  - An account the service creates stays created even when the profile write fails.
- Image upload: `uploadImageToCloudinary` is outside the model (URI streams, byte reading, upload callbacks). Its outcome, the hosted URL or a failure with a message, is an input to `CreatePost`.
- Comment storage: `addComment` and `getComments` are declared by the repository interface but `PostRepositoryImpl` does not implement them. The state holder takes their outcomes as inputs.
- Concurrency: each coroutine body is one sequential step, and a launched coroutine is the caller's next step.
  - Interleavings are not modelled.
  - Races between overlapping loads (last write wins) are not modelled.
  - `StateFlow`'s dropping of an assigned value equal to the current one is not modelled: the ghost histories record every assignment.
- Time and identifiers: `System.currentTimeMillis()` and `UUID.randomUUID()` are parameters. The "MMM dd" date formatting is the `monthDay` parameter.
- Follow-edge payloads: the timestamp stored in each follow-edge document is not modelled.
- Integer widths: Kotlin `Int` and `Long` are unbounded here. Overflow of counters and of `now - timestamp` is not modelled.
- Store details:
  - Document-path validation (an empty id throws) is not modelled.
  - Deserialisation failures are not modelled, so `mapNotNull` drops nothing.
  - The text of the "no document to update" message is approximated.
- UI: every composable, navigation, theming and dependency wiring file is not part of this model. That includes the input guards inside screens and the local follower-count adjustment on the profile screen.
