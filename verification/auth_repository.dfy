/**
 * The authentication repository: account creation and sign-in outcomes,
 * profile documents, and the follow relation with its denormalised counters.
 * The authentication service is outside the model; its outcomes are inputs.
 */
module AuthRepo {
  import opened Outcome
  import opened Model
  import opened Store

  /** `login`: the sign-in outcome, with an absent user turned into a failure. */
  function Login(signIn: Result<Option<AuthUser>>): (r: Result<AuthUser>)
    ensures r.Success? <==> signIn.Success? && signIn.value.Some?
    ensures r.Success? ==> r.value == signIn.value.value
    ensures signIn.Failure? ==> r.message == signIn.message
    ensures signIn == Success(None) ==> r == Failure(Some("Login failed"))
  {
    match signIn
    case Failure(m) => Failure(m)
    case Success(None) => Failure(Some("Login failed"))
    case Success(Some(u)) => Success(u)
  }

  /** `+1` when following, `-1` when unfollowing. */
  function FollowDelta(isFollowing: bool): int
  {
    if isFollowing then 1 else -1
  }

  /**
   * The counter writes of `updateFollowCounts`: calls 0 and 1 read both users,
   * call 2 writes the follower's `followingCount`, call 3 the target's
   * `followersCount`, each from the value read, moved by the delta and floored
   * at zero. A failing call, or a missing user, stops the writes silently.
   */
  function AdjustFollowCounts(users: map<string, User>, c: string, t: string, isFollowing: bool, f: Fault)
    : (r: map<string, User>)
    ensures r.Keys == users.Keys
    ensures forall k :: k in users && k != c && k != t ==> r[k] == users[k]
    ensures c !in users || t !in users || Fails(f, 0) || Fails(f, 1) || Fails(f, 2) ==> r == users
    ensures c in r && r[c].followingCount != users[c].followingCount ==> r[c].followingCount >= 0
    ensures t in r && r[t].followersCount != users[t].followersCount ==> r[t].followersCount >= 0
    ensures (c in users && t in users && !Fails(f, 0) && !Fails(f, 1) && !Fails(f, 2)
             && (t != c || Fails(f, 3))) ==>
      r[c] == users[c].(followingCount := AtLeastZero(users[c].followingCount + FollowDelta(isFollowing)))
    ensures (c in users && t in users && t != c && !Fails(f, 0) && !Fails(f, 1) && !Fails(f, 2)
             && !Fails(f, 3)) ==>
      r[t] == users[t].(followersCount := AtLeastZero(users[t].followersCount + FollowDelta(isFollowing)))
    ensures t in users && t != c && Fails(f, 3) ==> r[t] == users[t]
    // Following oneself writes both counters of the one record.
    ensures (c in users && t == c && !Fails(f, 0) && !Fails(f, 1) && !Fails(f, 2) && !Fails(f, 3)) ==>
      r[c] == users[c].(followingCount := AtLeastZero(users[c].followingCount + FollowDelta(isFollowing)),
                        followersCount := AtLeastZero(users[c].followersCount + FollowDelta(isFollowing)))
  {
    if c !in users || t !in users || Fails(f, 0) || Fails(f, 1) || Fails(f, 2) then users
    else
      var d := FollowDelta(isFollowing);
      var afterFollowing := users[c := users[c].(followingCount := AtLeastZero(users[c].followingCount + d))];
      if Fails(f, 3) then afterFollowing
      else afterFollowing[t := afterFollowing[t].(followersCount := AtLeastZero(users[t].followersCount + d))]
  }

  /** The store after a `followUser(c, t)` whose two edge writes succeeded. */
  function Followed(d: Db, c: string, t: string, countsFault: Fault): Db
  {
    d.(following := d.following + {(c, t)},
       followers := d.followers + {(t, c)},
       users := AdjustFollowCounts(d.users, c, t, true, countsFault))
  }

  /** The store after an `unfollowUser(c, t)` whose two edge deletions succeeded. */
  function Unfollowed(d: Db, c: string, t: string, countsFault: Fault): Db
  {
    d.(following := d.following - {(c, t)},
       followers := d.followers - {(t, c)},
       users := AdjustFollowCounts(d.users, c, t, false, countsFault))
  }

  /** The user record after `updateUserStats`: each given counter replaces the stored one. */
  function WithStats(u: User, postsCount: Option<int>, followersCount: Option<int>, followingCount: Option<int>): User
  {
    u.(postsCount := postsCount.OrElse(u.postsCount),
       followersCount := followersCount.OrElse(u.followersCount),
       followingCount := followingCount.OrElse(u.followingCount))
  }

  /** The field map `updateUserStats` builds, applied to a stored user. */
  function ApplyUpdates(u: User, updates: map<string, int>): User
  {
    u.(postsCount := if "postsCount" in updates then updates["postsCount"] else u.postsCount,
       followersCount := if "followersCount" in updates then updates["followersCount"] else u.followersCount,
       followingCount := if "followingCount" in updates then updates["followingCount"] else u.followingCount)
  }

  /** The number of users `c` follows, by the edges stored. */
  function FollowingEdges(d: Db, c: string): nat
  {
    |set e | e in d.following && e.0 == c|
  }

  class AuthRepository {
    const db: Firestore

    constructor (db: Firestore)
      ensures this.db == db
    {
      this.db := db;
    }

    /**
     * `register`: `created` is the account-creation outcome; on success the
     * profile document `NewUser(uid, username, email, now)` is written under `uid`.
     */
    method Register(email: string, username: string, created: Result<Option<AuthUser>>, now: int, fault: Fault)
      returns (r: Result<AuthUser>)
      modifies db
      ensures created.Failure? ==> r == Failure(created.message) && db.Snapshot() == old(db.Snapshot())
      ensures created == Success(None) ==> r == Failure(Some("Registration failed")) && db.Snapshot() == old(db.Snapshot())
      ensures created.Success? && created.value.Some? && Fails(fault, 0) ==>
        r == Failure(fault.message) && db.Snapshot() == old(db.Snapshot())
      ensures created.Success? && created.value.Some? && !Fails(fault, 0) ==>
        var u := created.value.value;
        r == Success(u) &&
        db.Snapshot() == old(db.Snapshot()).(users := old(db.users)[u.uid := NewUser(u.uid, username, email, now)])
    {
      match created
      case Failure(m) =>
        r := Failure(m);
      case Success(None) =>
        r := Failure(Some("Registration failed"));
      case Success(Some(u)) =>
        if Fails(fault, 0) {
          return Failure(fault.message);
        }
        db.users := db.users[u.uid := NewUser(u.uid, username, email, now)];
        r := Success(u);
    }

    /** `updateProfile`: overwrites the profile document of `user.userId` with `user`. */
    method UpdateProfile(user: User, fault: Fault) returns (r: Result<()>)
      modifies db
      ensures Fails(fault, 0) ==> r == Failure(fault.message) && db.Snapshot() == old(db.Snapshot())
      ensures !Fails(fault, 0) ==>
        r == Success(()) && db.Snapshot() == old(db.Snapshot()).(users := old(db.users)[user.userId := user])
    {
      if Fails(fault, 0) {
        return Failure(fault.message);
      }
      db.users := db.users[user.userId := user];
      r := Success(());
    }

    /** `getUserProfile`: the stored profile, or "User not found". */
    method GetUserProfile(userId: string, fault: Fault) returns (r: Result<User>)
      ensures Fails(fault, 0) ==> r == Failure(fault.message)
      ensures !Fails(fault, 0) && userId !in db.users ==> r == Failure(Some("User not found"))
      ensures r.Success? <==> !Fails(fault, 0) && userId in db.users
      ensures r.Success? ==> r.value == db.users[userId]
    {
      if Fails(fault, 0) {
        return Failure(fault.message);
      }
      if userId in db.users {
        r := Success(db.users[userId]);
      } else {
        r := Failure(Some("User not found"));
      }
    }

    /**
     * `followUser`: writes the edge `c -> t` under `c`'s `following` (call 0),
     * the mirrored edge under `t`'s `followers` (call 1), then adjusts the
     * counters; a failure while adjusting them is swallowed.
     */
    method FollowUser(c: string, t: string, fault: Fault, countsFault: Fault) returns (r: Result<()>)
      modifies db
      ensures r.Success? <==> !Fails(fault, 0) && !Fails(fault, 1)
      ensures r.Failure? ==> r.message == fault.message
      ensures Fails(fault, 0) ==> db.Snapshot() == old(db.Snapshot())
      ensures Fails(fault, 1) ==>
        db.Snapshot() == old(db.Snapshot()).(following := old(db.following) + {(c, t)})
      ensures r.Success? ==> db.Snapshot() == Followed(old(db.Snapshot()), c, t, countsFault)
    {
      if Fails(fault, 0) {
        return Failure(fault.message);
      }
      db.following := db.following + {(c, t)};
      if Fails(fault, 1) {
        return Failure(fault.message);
      }
      db.followers := db.followers + {(t, c)};
      UpdateFollowCounts(c, t, true, countsFault);
      r := Success(());
    }

    /**
     * `unfollowUser`: deletes the edge `c -> t` (call 0), then its mirror
     * (call 1), then adjusts the counters; a failure while adjusting them is
     * swallowed.
     */
    method UnfollowUser(c: string, t: string, fault: Fault, countsFault: Fault) returns (r: Result<()>)
      modifies db
      ensures r.Success? <==> !Fails(fault, 0) && !Fails(fault, 1)
      ensures r.Failure? ==> r.message == fault.message
      ensures Fails(fault, 0) ==> db.Snapshot() == old(db.Snapshot())
      ensures Fails(fault, 1) ==>
        db.Snapshot() == old(db.Snapshot()).(following := old(db.following) - {(c, t)})
      ensures r.Success? ==> db.Snapshot() == Unfollowed(old(db.Snapshot()), c, t, countsFault)
    {
      if Fails(fault, 0) {
        return Failure(fault.message);
      }
      db.following := db.following - {(c, t)};
      if Fails(fault, 1) {
        return Failure(fault.message);
      }
      db.followers := db.followers - {(t, c)};
      UpdateFollowCounts(c, t, false, countsFault);
      r := Success(());
    }

    /** `isFollowing`: whether the edge document `c -> t` exists under `c`'s `following`. */
    method IsFollowing(c: string, t: string, fault: Fault) returns (r: Result<bool>)
      ensures Fails(fault, 0) ==> r == Failure(fault.message)
      ensures !Fails(fault, 0) ==> r.Success? && (r.value <==> (c, t) in db.following)
    {
      if Fails(fault, 0) {
        return Failure(fault.message);
      }
      r := Success((c, t) in db.following);
    }

    /**
     * `updateUserStats`: collects the non-null counters into a field map and,
     * only when that map is non-empty, issues one update (call 0).
     */
    method UpdateUserStats(userId: string, postsCount: Option<int>, followersCount: Option<int>,
                           followingCount: Option<int>, fault: Fault) returns (r: Result<()>)
      modifies db
      ensures postsCount.None? && followersCount.None? && followingCount.None? ==>
        r == Success(()) && db.Snapshot() == old(db.Snapshot())
      ensures r.Failure? ==> db.Snapshot() == old(db.Snapshot())
      ensures (postsCount.Some? || followersCount.Some? || followingCount.Some?) ==>
        (r.Success? <==> !Fails(fault, 0) && userId in old(db.users))
      ensures ((postsCount.Some? || followersCount.Some? || followingCount.Some?) &&
               !Fails(fault, 0) && userId !in old(db.users)) ==> r == Failure(NoDocumentToUpdate)
      ensures (postsCount.Some? || followersCount.Some? || followingCount.Some?) && r.Success? ==>
        db.Snapshot() == old(db.Snapshot()).(users := old(db.users)[userId :=
          WithStats(old(db.users)[userId], postsCount, followersCount, followingCount)])
    {
      var updates: map<string, int> := map[];
      if postsCount.Some? {
        updates := updates["postsCount" := postsCount.value];
      }
      if followersCount.Some? {
        updates := updates["followersCount" := followersCount.value];
      }
      if followingCount.Some? {
        updates := updates["followingCount" := followingCount.value];
      }
      assert ("postsCount" in updates <==> postsCount.Some?) && ("followersCount" in updates <==> followersCount.Some?)
        && ("followingCount" in updates <==> followingCount.Some?);
      if updates != map[] {
        if Fails(fault, 0) {
          return Failure(fault.message);
        }
        if userId !in db.users {
          return Failure(NoDocumentToUpdate);
        }
        assert ApplyUpdates(db.users[userId], updates) ==
          WithStats(db.users[userId], postsCount, followersCount, followingCount);
        db.users := db.users[userId := ApplyUpdates(db.users[userId], updates)];
      }
      r := Success(());
    }

    /** `updateFollowCounts`: reads both users, then writes the two counters in turn. */
    method UpdateFollowCounts(c: string, t: string, isFollowing: bool, fault: Fault)
      modifies db
      ensures db.Snapshot() == old(db.Snapshot()).(users := AdjustFollowCounts(old(db.users), c, t, isFollowing, fault))
    {
      if Fails(fault, 0) || c !in db.users {
        return;
      }
      var currentUser := db.users[c];
      if Fails(fault, 1) || t !in db.users {
        return;
      }
      var targetUser := db.users[t];
      var delta := FollowDelta(isFollowing);
      if Fails(fault, 2) {
        return;
      }
      db.users := db.users[c := db.users[c].(followingCount := AtLeastZero(currentUser.followingCount + delta))];
      if Fails(fault, 3) {
        return;
      }
      db.users := db.users[t := db.users[t].(followersCount := AtLeastZero(targetUser.followersCount + delta))];
    }
  }

  /** After a successful follow the edge exists both ways, so `isFollowing(c, t)` reports true. */
  lemma FollowCreatesMirroredEdges(d: Db, c: string, t: string, countsFault: Fault)
    ensures (c, t) in Followed(d, c, t, countsFault).following
    ensures (t, c) in Followed(d, c, t, countsFault).followers
  {
  }

  /** After a successful unfollow neither edge remains, so `isFollowing(c, t)` reports false. */
  lemma UnfollowRemovesMirroredEdges(d: Db, c: string, t: string, countsFault: Fault)
    ensures (c, t) !in Unfollowed(d, c, t, countsFault).following
    ensures (t, c) !in Unfollowed(d, c, t, countsFault).followers
  {
  }

  /** A successful unfollow never leaves either adjusted counter negative, whatever it was. */
  lemma UnfollowCountsNeverNegative(d: Db, c: string, t: string)
    requires c in d.users && t in d.users
    ensures Unfollowed(d, c, t, NoFault).users[c].followingCount >= 0
    ensures Unfollowed(d, c, t, NoFault).users[t].followersCount >= 0
  {
  }

  /**
   * Counters move whether or not the edge was new: following twice leaves the
   * edge sets as after the first follow but adds 2 to both counters.
   */
  lemma FollowTwiceCountsTwice(d: Db, c: string, t: string)
    requires c in d.users && t in d.users
    requires d.users[c].followingCount >= 0 && d.users[t].followersCount >= 0
    ensures var once := Followed(d, c, t, NoFault);
      var twice := Followed(once, c, t, NoFault);
      && twice.following == once.following && twice.followers == once.followers
      && twice.users[c].followingCount == d.users[c].followingCount + 2
      && twice.users[t].followersCount == d.users[t].followersCount + 2
  {
    var once := Followed(d, c, t, NoFault);
    assert once.users[c].followingCount == d.users[c].followingCount + 1;
    assert once.users[t].followersCount == d.users[t].followersCount + 1;
  }

  /**
   * The following counter drifts from the edges: if it matched the stored
   * edges and `c` already follows `t`, following again leaves it one higher.
   */
  lemma RefollowBreaksFollowingCount(d: Db, c: string, t: string)
    requires c in d.users && t in d.users && (c, t) in d.following
    requires d.users[c].followingCount == FollowingEdges(d, c)
    ensures var after := Followed(d, c, t, NoFault);
      after.users[c].followingCount == FollowingEdges(after, c) + 1
  {
    var after := Followed(d, c, t, NoFault);
    assert after.following == d.following;
  }

  /**
   * Follow then unfollow of a new edge, with non-negative counters, restores
   * the whole store.
   */
  lemma UnfollowUndoesFollow(d: Db, c: string, t: string)
    requires c in d.users && t in d.users
    requires (c, t) !in d.following && (t, c) !in d.followers
    requires d.users[c].followingCount >= 0 && d.users[t].followersCount >= 0
    ensures Unfollowed(Followed(d, c, t, NoFault), c, t, NoFault) == d
  {
    var once := Followed(d, c, t, NoFault);
    var back := Unfollowed(once, c, t, NoFault);
    assert back.following == d.following;
    assert back.followers == d.followers;
    assert back.users[c] == d.users[c];
    assert back.users[t] == d.users[t];
    assert back.users == d.users;
  }

  /** `updateUserStats` with every counter null writes nothing; otherwise only the given counters change. */
  lemma WithStatsChangesOnlyGivenCounters(u: User, p: Option<int>, fr: Option<int>, fg: Option<int>)
    ensures WithStats(u, None, None, None) == u
    ensures var w := WithStats(u, p, fr, fg);
      && w.userId == u.userId && w.username == u.username && w.email == u.email
      && w.profileImageUrl == u.profileImageUrl && w.bio == u.bio && w.createdAt == u.createdAt
      && (p.Some? ==> w.postsCount == p.value) && (p.None? ==> w.postsCount == u.postsCount)
      && (fr.Some? ==> w.followersCount == fr.value) && (fr.None? ==> w.followersCount == u.followersCount)
      && (fg.Some? ==> w.followingCount == fg.value) && (fg.None? ==> w.followingCount == u.followingCount)
  {
  }
}
