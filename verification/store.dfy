/**
 * The remote document store the repositories write to, as collections of
 * values: the `users` and `posts` collections keyed by document id, and the
 * per-user `following` and `followers` subcollections as sets of edges.
 *
 * Assumptions about the store's semantics, stated once here:
 * `set` creates or overwrites a document; `update` of a document that does not
 * exist fails; `delete` of a document that does not exist succeeds; reading a
 * document that does not exist yields `null`; `arrayUnion`/`arrayRemove` are
 * `ArrayUnion`/`ArrayRemove` below; `increment(n)` adds `n`; a posts query
 * returns the matching documents newest first by `createdAt`, ties in any order.
 */
module Store {
  import opened Outcome
  import opened Model

  /**
   * A follow-edge document: `(owner, other)` is the document `other` in a
   * subcollection of user `owner`. Its timestamp payload is not modelled.
   */
  type Edge = (string, string)

  /** A value snapshot of the whole store. */
  datatype Db = Db(
    users: map<string, User>,
    posts: map<string, Post>,
    following: set<Edge>,   // (owner, followed user)
    followers: set<Edge>)   // (owner, following user)

  /** The message of an `update` issued against a missing document. */
  const NoDocumentToUpdate: Option<string> := Some("NOT_FOUND: No document to update")

  /** Kotlin's `coerceAtLeast(0)`. */
  function AtLeastZero(x: int): (r: nat)
    ensures x <= r
    ensures r == x || (x < 0 && r == 0)
  {
    if x < 0 then 0 else x
  }

  predicate NoDuplicates(xs: seq<string>)
  {
    forall i, j :: 0 <= i < j < |xs| ==> xs[i] != xs[j]
  }

  /** `FieldValue.arrayUnion(x)`: the array with `x` appended unless it is already there. */
  function ArrayUnion(xs: seq<string>, x: string): (r: seq<string>)
    ensures forall y :: y in r <==> y in xs || y == x
    ensures |xs| <= |r| <= |xs| + 1 && r[..|xs|] == xs
    ensures x in xs ==> r == xs
    ensures NoDuplicates(xs) ==> NoDuplicates(r)
  {
    if x in xs then xs else xs + [x]
  }

  /** `FieldValue.arrayRemove(x)`: the array without any occurrence of `x`, otherwise in order. */
  function ArrayRemove(xs: seq<string>, x: string): (r: seq<string>)
    ensures forall y :: y in r <==> y in xs && y != x
    ensures |r| <= |xs|
    ensures x !in xs ==> r == xs
  {
    if xs == [] then []
    else if xs[0] == x then ArrayRemove(xs[1..], x)
    else [xs[0]] + ArrayRemove(xs[1..], x)
  }

  lemma {:induction false} ArrayRemoveAppend(a: seq<string>, b: seq<string>, x: string)
    ensures ArrayRemove(a + b, x) == ArrayRemove(a, x) + ArrayRemove(b, x)
  {
    if a == [] {
      assert a + b == b;
    } else {
      assert (a + b)[0] == a[0] && (a + b)[1..] == a[1..] + b;
      ArrayRemoveAppend(a[1..], b, x);
    }
  }

  /** Removing an element that a union has just added gives back the original array. */
  lemma ArrayRemoveUndoesUnion(xs: seq<string>, x: string)
    requires x !in xs
    ensures ArrayRemove(ArrayUnion(xs, x), x) == xs
  {
    ArrayRemoveAppend(xs, [x], x);
  }

  /** Removal keeps an array free of duplicates. */
  lemma {:induction false} ArrayRemoveKeepsNoDuplicates(xs: seq<string>, x: string)
    requires NoDuplicates(xs)
    ensures NoDuplicates(ArrayRemove(xs, x))
  {
    if xs != [] {
      assert NoDuplicates(xs[1..]);
      ArrayRemoveKeepsNoDuplicates(xs[1..], x);
      assert xs[0] !in xs[1..];
    }
  }

  /** The filters of the three posts queries. */
  datatype PostFilter = AllPosts | ByAuthor(userId: string) | LikedBy(userId: string)

  /** `whereEqualTo("userId", u)` and `whereArrayContains("likedBy", u)`. */
  predicate Matches(p: Post, f: PostFilter)
  {
    match f
    case AllPosts => true
    case ByAuthor(u) => p.userId == u
    case LikedBy(u) => u in p.likedBy
  }

  /** The ids of the stored posts a filter selects. */
  function Matching(posts: map<string, Post>, f: PostFilter): set<string>
  {
    set k | k in posts && Matches(posts[k], f)
  }

  /** The liked-posts filter selects exactly the posts the user is shown as having liked. */
  lemma LikedFilterAgreesWithLikedStatus(p: Post, u: string)
    ensures Matches(p, LikedBy(u)) <==> p.IsLikedByCurrentUser(Some(u))
  {
  }

  predicate AllStored(posts: map<string, Post>, ks: seq<string>)
  {
    forall i :: 0 <= i < |ks| ==> ks[i] in posts
  }

  /** `orderBy("createdAt", DESCENDING)`. */
  predicate NewestFirst(posts: map<string, Post>, ks: seq<string>)
    requires AllStored(posts, ks)
  {
    forall i, j :: 0 <= i < j < |ks| ==> posts[ks[i]].createdAt >= posts[ks[j]].createdAt
  }

  /** `ks` lists every selected document exactly once, newest first. */
  predicate IsQueryResult(posts: map<string, Post>, f: PostFilter, ks: seq<string>)
  {
    && AllStored(posts, ks)
    && NewestFirst(posts, ks)
    && multiset(ks) == multiset(Matching(posts, f))
  }

  /** Inserts `k` into a newest-first list before the first post not newer than it. */
  function InsertNewestFirst(posts: map<string, Post>, ks: seq<string>, k: string): (r: seq<string>)
    requires k in posts && AllStored(posts, ks)
    ensures AllStored(posts, r)
    ensures multiset(r) == multiset(ks) + multiset{k}
  {
    if ks == [] then [k]
    else if posts[ks[0]].createdAt <= posts[k].createdAt then [k] + ks
    else
      assert ks == [ks[0]] + ks[1..];
      [ks[0]] + InsertNewestFirst(posts, ks[1..], k)
  }

  /** No post listed in `ks` was created after `t`. */
  predicate NoneNewerThan(posts: map<string, Post>, ks: seq<string>, t: int)
    requires AllStored(posts, ks)
  {
    forall i :: 0 <= i < |ks| ==> posts[ks[i]].createdAt <= t
  }

  /** An insertion holds no post newer than the newest of the list and the inserted one. */
  lemma {:induction false} InsertNewestFirstBounded(posts: map<string, Post>, ks: seq<string>, k: string, t: int)
    requires k in posts && AllStored(posts, ks)
    requires posts[k].createdAt <= t && NoneNewerThan(posts, ks, t)
    ensures NoneNewerThan(posts, InsertNewestFirst(posts, ks, k), t)
  {
    var r := InsertNewestFirst(posts, ks, k);
    if ks == [] {
    } else if posts[ks[0]].createdAt <= posts[k].createdAt {
      forall i | 0 <= i < |r| ensures posts[r[i]].createdAt <= t {
        if i > 0 { assert r[i] == ks[i - 1]; }
      }
    } else {
      var rest := InsertNewestFirst(posts, ks[1..], k);
      assert NoneNewerThan(posts, ks[1..], t) by {
        forall i | 0 <= i < |ks[1..]| ensures posts[ks[1..][i]].createdAt <= t {
          assert ks[1..][i] == ks[i + 1];
        }
      }
      InsertNewestFirstBounded(posts, ks[1..], k, t);
      assert r == [ks[0]] + rest;
      forall i | 0 <= i < |r| ensures posts[r[i]].createdAt <= t {
        if i > 0 { assert r[i] == rest[i - 1]; }
      }
    }
  }

  /** Insertion keeps a list newest first. */
  lemma {:induction false} InsertNewestFirstSorted(posts: map<string, Post>, ks: seq<string>, k: string)
    requires k in posts && AllStored(posts, ks) && NewestFirst(posts, ks)
    ensures NewestFirst(posts, InsertNewestFirst(posts, ks, k))
  {
    var r := InsertNewestFirst(posts, ks, k);
    if ks == [] {
    } else if posts[ks[0]].createdAt <= posts[k].createdAt {
      assert r == [k] + ks;
      forall i, j | 0 <= i < j < |r| ensures posts[r[i]].createdAt >= posts[r[j]].createdAt {
        assert r[j] == ks[j - 1];
        if i > 0 { assert r[i] == ks[i - 1]; }
      }
    } else {
      var t := posts[ks[0]].createdAt;
      var rest := InsertNewestFirst(posts, ks[1..], k);
      InsertNewestFirstSorted(posts, ks[1..], k);
      assert NoneNewerThan(posts, ks[1..], t) by {
        forall i | 0 <= i < |ks[1..]| ensures posts[ks[1..][i]].createdAt <= t {
          assert ks[1..][i] == ks[i + 1];
        }
      }
      InsertNewestFirstBounded(posts, ks[1..], k, t);
      assert r == [ks[0]] + rest;
      forall i, j | 0 <= i < j < |r| ensures posts[r[i]].createdAt >= posts[r[j]].createdAt {
        assert r[j] == rest[j - 1];
        assert posts[rest[j - 1]].createdAt <= t;
        if i > 0 { assert r[i] == rest[i - 1]; }
      }
    }
  }

  /** The posts stored under the ids `ks`, in that order. */
  function PostsAt(posts: map<string, Post>, ks: seq<string>): (ps: seq<Post>)
    requires AllStored(posts, ks)
    ensures |ps| == |ks| && forall i :: 0 <= i < |ks| ==> ps[i] == posts[ks[i]]
  {
    seq(|ks|, i requires 0 <= i < |ks| => posts[ks[i]])
  }

  /** `ps` is what a posts query with filter `f` returns over `posts`. */
  ghost predicate IsFeed(posts: map<string, Post>, f: PostFilter, ps: seq<Post>)
  {
    exists ks :: IsQueryResult(posts, f, ks) && ps == PostsAt(posts, ks)
  }

  /**
   * A query result holds exactly the selected posts: each selected document
   * once, nothing else, newest first.
   */
  lemma FeedIsExactlyTheSelectedPosts(posts: map<string, Post>, f: PostFilter, ps: seq<Post>)
    requires IsFeed(posts, f, ps)
    ensures |ps| == |Matching(posts, f)|
    ensures forall i :: 0 <= i < |ps| ==> Matches(ps[i], f) && ps[i] in posts.Values
    ensures forall i, j :: 0 <= i < j < |ps| ==> ps[i].createdAt >= ps[j].createdAt
    ensures forall k :: k in Matching(posts, f) ==> posts[k] in ps
  {
    var ks :| IsQueryResult(posts, f, ks) && ps == PostsAt(posts, ks);
    assert |multiset(ks)| == |multiset(Matching(posts, f))|;
    forall i | 0 <= i < |ps|
      ensures Matches(ps[i], f) && ps[i] in posts.Values
    {
      assert ks[i] in multiset(ks);
    }
    forall k | k in Matching(posts, f)
      ensures posts[k] in ps
    {
      assert k in multiset(ks);
      var i :| 0 <= i < |ks| && ks[i] == k;
      assert ps[i] == posts[k];
    }
  }

  /** The store itself; every repository holds a reference to the same one. */
  class Firestore {
    var users: map<string, User>
    var posts: map<string, Post>
    var following: set<Edge>
    var followers: set<Edge>

    function Snapshot(): Db
      reads this
    {
      Db(users, posts, following, followers)
    }

    constructor (initial: Db)
      ensures Snapshot() == initial
    {
      users, posts := initial.users, initial.posts;
      following, followers := initial.following, initial.followers;
    }

    /** A posts query: the filter, then `orderBy("createdAt", DESCENDING)`; yields document ids. */
    method QueryPosts(f: PostFilter) returns (ks: seq<string>)
      ensures IsQueryResult(posts, f, ks)
    {
      var pending := Matching(posts, f);
      ks := [];
      while pending != {}
        invariant pending <= Matching(posts, f)
        invariant AllStored(posts, ks) && NewestFirst(posts, ks)
        invariant multiset(ks) + multiset(pending) == multiset(Matching(posts, f))
        decreases pending
      {
        var k :| k in pending;
        InsertNewestFirstSorted(posts, ks, k);
        ks := InsertNewestFirst(posts, ks, k);
        assert multiset(pending) == multiset(pending - {k}) + multiset{k};
        pending := pending - {k};
      }
    }
  }
}
