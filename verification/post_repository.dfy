/**
 * The posts repository: post documents, the liker array and like counter,
 * the author's post counter, and the three feeds. The image upload is outside
 * the model; its outcome (the hosted URL, or a failure) is an input.
 */
module PostRepo {
  import opened Outcome
  import opened Model
  import opened Store

  /** The store with `p` written (created or overwritten) under `p.id`. */
  function WithPost(d: Db, p: Post): Db
  {
    d.(posts := d.posts[p.id := p])
  }

  /** The store with `postsCount` of user `u` moved by `delta`, with no floor. */
  function MovePostsCount(d: Db, u: string, delta: int): Db
    requires u in d.users
  {
    d.(users := d.users[u := d.users[u].(postsCount := d.users[u].postsCount + delta)])
  }

  /** A successful `createPost`: the post with the uploaded URL, then the author's counter +1. */
  function Created(d: Db, post: Post, url: string): Db
    requires post.userId in d.users
  {
    MovePostsCount(WithPost(d, post.(imageUrl := url)), post.userId, 1)
  }

  /** A successful `deletePost` of a stored post: the document goes, its author's counter -1. */
  function Deleted(d: Db, postId: string): Db
    requires postId in d.posts && d.posts[postId].userId in d.users
  {
    MovePostsCount(d.(posts := d.posts - {postId}), d.posts[postId].userId, -1)
  }

  /** A successful `likePost`: one update of both fields, union into `likedBy` and `+1`. */
  function Liked(d: Db, postId: string, userId: string): Db
    requires postId in d.posts
  {
    var p := d.posts[postId];
    d.(posts := d.posts[postId := p.(likedBy := ArrayUnion(p.likedBy, userId), likeCount := p.likeCount + 1)])
  }

  /** A successful `unlikePost`: one update of both fields, removal from `likedBy` and `-1`. */
  function Unliked(d: Db, postId: string, userId: string): Db
    requires postId in d.posts
  {
    var p := d.posts[postId];
    d.(posts := d.posts[postId := p.(likedBy := ArrayRemove(p.likedBy, userId), likeCount := p.likeCount - 1)])
  }

  class PostRepository {
    const db: Firestore

    constructor (db: Firestore)
      ensures this.db == db
    {
      this.db := db;
    }

    /**
     * `createPost`: `upload` is the image upload's outcome. Call 0 writes the
     * post with the hosted URL under `post.id`; call 1 increments the author's
     * `postsCount`, which fails when the author has no profile document.
     */
    method CreatePost(post: Post, upload: Result<string>, fault: Fault) returns (r: Result<()>)
      modifies db
      ensures upload.Failure? ==> r == Failure(upload.message) && db.Snapshot() == old(db.Snapshot())
      ensures upload.Success? && Fails(fault, 0) ==> r == Failure(fault.message) && db.Snapshot() == old(db.Snapshot())
      ensures upload.Success? && !Fails(fault, 0) && (Fails(fault, 1) || post.userId !in old(db.users)) ==>
        r.Failure? && db.Snapshot() == WithPost(old(db.Snapshot()), post.(imageUrl := upload.value))
      ensures r.Success? <==> upload.Success? && !Fails(fault, 0) && !Fails(fault, 1) && post.userId in old(db.users)
      ensures r.Success? ==> db.Snapshot() == Created(old(db.Snapshot()), post, upload.value)
    {
      if upload.Failure? {
        return Failure(upload.message);
      }
      var withImage := post.(imageUrl := upload.value);
      if Fails(fault, 0) {
        return Failure(fault.message);
      }
      db.posts := db.posts[post.id := withImage];
      if Fails(fault, 1) {
        return Failure(fault.message);
      }
      if post.userId !in db.users {
        return Failure(NoDocumentToUpdate);
      }
      db.users := db.users[post.userId := db.users[post.userId].(postsCount := db.users[post.userId].postsCount + 1)];
      r := Success(());
    }

    /** `getAllPosts`: every post, newest first. */
    method GetAllPosts(fault: Fault) returns (r: Result<seq<Post>>)
      ensures Fails(fault, 0) ==> r == Failure(fault.message)
      ensures !Fails(fault, 0) ==> r.Success? && IsFeed(db.posts, AllPosts, r.value)
    {
      r := Query(AllPosts, fault);
    }

    /** `getUserPosts(userId)`: the posts whose author is `userId`, newest first. */
    method GetUserPosts(userId: string, fault: Fault) returns (r: Result<seq<Post>>)
      ensures Fails(fault, 0) ==> r == Failure(fault.message)
      ensures !Fails(fault, 0) ==> r.Success? && IsFeed(db.posts, ByAuthor(userId), r.value)
    {
      r := Query(ByAuthor(userId), fault);
    }

    /** `getLikedPosts(userId)`: the posts whose `likedBy` contains `userId`, newest first. */
    method GetLikedPosts(userId: string, fault: Fault) returns (r: Result<seq<Post>>)
      ensures Fails(fault, 0) ==> r == Failure(fault.message)
      ensures !Fails(fault, 0) ==> r.Success? && IsFeed(db.posts, LikedBy(userId), r.value)
    {
      r := Query(LikedBy(userId), fault);
    }

    /** The shared shape of the three queries: one query (call 0), each document read as a post. */
    method Query(f: PostFilter, fault: Fault) returns (r: Result<seq<Post>>)
      ensures Fails(fault, 0) ==> r == Failure(fault.message)
      ensures !Fails(fault, 0) ==> r.Success? && IsFeed(db.posts, f, r.value)
    {
      if Fails(fault, 0) {
        return Failure(fault.message);
      }
      var ks := db.QueryPosts(f);
      r := Success(PostsAt(db.posts, ks));
    }

    /** `updatePost`: overwrites the whole document `post.id` with `post`, stamped `updatedAt = now`. */
    method UpdatePost(post: Post, now: int, fault: Fault) returns (r: Result<()>)
      modifies db
      ensures Fails(fault, 0) ==> r == Failure(fault.message) && db.Snapshot() == old(db.Snapshot())
      ensures !Fails(fault, 0) ==> r == Success(()) && db.Snapshot() == WithPost(old(db.Snapshot()), post.(updatedAt := now))
    {
      if Fails(fault, 0) {
        return Failure(fault.message);
      }
      db.posts := db.posts[post.id := post.(updatedAt := now)];
      r := Success(());
    }

    /**
     * `deletePost`: reads the post (call 0), deletes it (call 1) and, only if
     * it existed, decrements its author's `postsCount` (call 2).
     */
    method DeletePost(postId: string, fault: Fault) returns (r: Result<()>)
      modifies db
      ensures Fails(fault, 0) || Fails(fault, 1) ==> r == Failure(fault.message) && db.Snapshot() == old(db.Snapshot())
      ensures !Fails(fault, 0) && !Fails(fault, 1) && postId !in old(db.posts) ==>
        r == Success(()) && db.Snapshot() == old(db.Snapshot())
      ensures !Fails(fault, 0) && !Fails(fault, 1) && postId in old(db.posts) ==>
        && db.posts == old(db.posts) - {postId}
        && (r.Success? <==> !Fails(fault, 2) && old(db.posts)[postId].userId in old(db.users))
        && (r.Success? ==> db.Snapshot() == Deleted(old(db.Snapshot()), postId))
        && (r.Failure? ==> db.Snapshot() == old(db.Snapshot()).(posts := old(db.posts) - {postId}))
    {
      if Fails(fault, 0) {
        return Failure(fault.message);
      }
      var post := if postId in db.posts then Some(db.posts[postId]) else None;
      if Fails(fault, 1) {
        return Failure(fault.message);
      }
      db.posts := db.posts - {postId};
      if post.Some? {
        var author := post.value.userId;
        if Fails(fault, 2) {
          return Failure(fault.message);
        }
        if author !in db.users {
          return Failure(NoDocumentToUpdate);
        }
        db.users := db.users[author := db.users[author].(postsCount := db.users[author].postsCount - 1)];
      }
      r := Success(());
    }

    /** `likePost`: one update (call 0) that unions `userId` into `likedBy` and adds 1 to `likeCount`. */
    method LikePost(postId: string, userId: string, fault: Fault) returns (r: Result<()>)
      modifies db
      ensures r.Success? <==> !Fails(fault, 0) && postId in old(db.posts)
      ensures !Fails(fault, 0) && postId !in old(db.posts) ==> r == Failure(NoDocumentToUpdate)
      ensures r.Failure? ==> db.Snapshot() == old(db.Snapshot())
      ensures r.Success? ==> db.Snapshot() == Liked(old(db.Snapshot()), postId, userId)
    {
      if Fails(fault, 0) {
        return Failure(fault.message);
      }
      if postId !in db.posts {
        return Failure(NoDocumentToUpdate);
      }
      var p := db.posts[postId];
      db.posts := db.posts[postId := p.(likedBy := ArrayUnion(p.likedBy, userId), likeCount := p.likeCount + 1)];
      r := Success(());
    }

    /** `unlikePost`: one update (call 0) that removes `userId` from `likedBy` and subtracts 1 from `likeCount`. */
    method UnlikePost(postId: string, userId: string, fault: Fault) returns (r: Result<()>)
      modifies db
      ensures r.Success? <==> !Fails(fault, 0) && postId in old(db.posts)
      ensures !Fails(fault, 0) && postId !in old(db.posts) ==> r == Failure(NoDocumentToUpdate)
      ensures r.Failure? ==> db.Snapshot() == old(db.Snapshot())
      ensures r.Success? ==> db.Snapshot() == Unliked(old(db.Snapshot()), postId, userId)
    {
      if Fails(fault, 0) {
        return Failure(fault.message);
      }
      if postId !in db.posts {
        return Failure(NoDocumentToUpdate);
      }
      var p := db.posts[postId];
      db.posts := db.posts[postId := p.(likedBy := ArrayRemove(p.likedBy, userId), likeCount := p.likeCount - 1)];
      r := Success(());
    }
  }

  /** After a like the user is shown as a liker and the post is in their liked feed; after an unlike, neither. */
  lemma LikeStatusFollowsLikeAndUnlike(d: Db, postId: string, userId: string)
    requires postId in d.posts
    ensures Liked(d, postId, userId).posts[postId].IsLikedByCurrentUser(Some(userId))
    ensures postId in Matching(Liked(d, postId, userId).posts, LikedBy(userId))
    ensures !Unliked(d, postId, userId).posts[postId].IsLikedByCurrentUser(Some(userId))
    ensures postId !in Matching(Unliked(d, postId, userId).posts, LikedBy(userId))
  {
  }

  /** Liking twice leaves `likedBy` as after one like but adds 2 to `likeCount`. */
  lemma LikeTwiceCountsTwice(d: Db, postId: string, userId: string)
    requires postId in d.posts
    ensures var once := Liked(d, postId, userId);
      var twice := Liked(once, postId, userId);
      && twice.posts[postId].likedBy == once.posts[postId].likedBy
      && twice.posts[postId].likeCount == d.posts[postId].likeCount + 2
  {
  }

  /** `likeCount == |likedBy|` holds across a like by a new liker, and no duplicate enters. */
  lemma LikeByNewLikerKeepsCount(d: Db, postId: string, userId: string)
    requires postId in d.posts
    requires userId !in d.posts[postId].likedBy && NoDuplicates(d.posts[postId].likedBy)
    requires d.posts[postId].likeCount == |d.posts[postId].likedBy|
    ensures var p := Liked(d, postId, userId).posts[postId];
      p.likeCount == |p.likedBy| && NoDuplicates(p.likedBy)
  {
  }

  /** ... but a like by an existing liker leaves `likeCount` one above `|likedBy|`. */
  lemma LikeByExistingLikerDrifts(d: Db, postId: string, userId: string)
    requires postId in d.posts && userId in d.posts[postId].likedBy
    requires d.posts[postId].likeCount == |d.posts[postId].likedBy|
    ensures var p := Liked(d, postId, userId).posts[postId];
      p.likeCount == |p.likedBy| + 1
  {
  }

  /** Unliking a post nobody liked drives `likeCount` below zero. */
  lemma UnlikeCanGoNegative(d: Db, postId: string, userId: string)
    requires postId in d.posts && d.posts[postId] == DefaultPost(d.posts[postId].createdAt, d.posts[postId].updatedAt)
    ensures Unliked(d, postId, userId).posts[postId].likeCount == -1
    ensures Unliked(d, postId, userId).posts[postId].likedBy == []
  {
  }

  /** Unliking right after a first like by that user restores the store exactly. */
  lemma UnlikeUndoesFirstLike(d: Db, postId: string, userId: string)
    requires postId in d.posts && userId !in d.posts[postId].likedBy
    ensures Unliked(Liked(d, postId, userId), postId, userId) == d
  {
    var p := d.posts[postId];
    ArrayRemoveUndoesUnion(p.likedBy, userId);
    assert Unliked(Liked(d, postId, userId), postId, userId).posts[postId] == p;
    assert Unliked(Liked(d, postId, userId), postId, userId).posts == d.posts;
  }

  /** Deleting a post right after creating it under a fresh id restores the store exactly. */
  lemma DeleteUndoesCreate(d: Db, post: Post, url: string)
    requires post.id !in d.posts && post.userId in d.users
    ensures Deleted(Created(d, post, url), post.id) == d
  {
    var c := Created(d, post, url);
    assert c.posts - {post.id} == d.posts;
    assert Deleted(c, post.id).users[post.userId] == d.users[post.userId];
    assert Deleted(c, post.id).users == d.users;
  }

  /** Unlike the follow counters, `postsCount` has no floor: deleting a post of an author at 0 leaves -1. */
  lemma DeleteHasNoFloor(d: Db, postId: string)
    requires postId in d.posts && d.posts[postId].userId in d.users
    requires d.users[d.posts[postId].userId].postsCount == 0
    ensures Deleted(d, postId).users[d.posts[postId].userId].postsCount == -1
  {
  }

  /**
   * `updatePost` writes the caller's copy whole: a like that reached the store
   * after that copy was read is lost.
   */
  lemma UpdateWithStaleCopyLosesLike(d: Db, stale: Post, userId: string, now: int)
    requires stale.id in d.posts && userId !in stale.likedBy
    ensures var after := WithPost(Liked(d, stale.id, userId), stale.(updatedAt := now));
      !after.posts[stale.id].IsLikedByCurrentUser(Some(userId))
      && after.posts[stale.id].likeCount == stale.likeCount
  {
  }
}
