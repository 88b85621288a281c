/**
 * The app's value types: users, posts, comments, and the identity returned by
 * the authentication service. Kotlin `String` is `string`; `Int` and `Long`
 * are unbounded `int`.
 */
module Model {
  import opened Outcome

  /** A user profile document. */
  datatype User = User(
    userId: string,
    username: string,
    email: string,
    profileImageUrl: string,
    bio: string,
    followersCount: int,
    followingCount: int,
    postsCount: int,
    createdAt: int)

  /** A user with every other field at its default, created at time `now`. */
  function NewUser(userId: string, username: string, email: string, now: int): (u: User)
    ensures u.userId == userId && u.username == username && u.email == email
    ensures u.profileImageUrl == "" && u.bio == ""
    ensures u.followersCount == 0 && u.followingCount == 0 && u.postsCount == 0
    ensures u.createdAt == now
  {
    User(userId, username, email, "", "", 0, 0, 0, now)
  }

  /** A post document. `likedBy` is the array of the ids of the users who liked it. */
  datatype Post = Post(
    id: string,
    userId: string,
    username: string,
    userProfileImage: string,
    imageUrl: string,
    caption: string,
    likeCount: int,
    commentCount: int,
    likedBy: seq<string>,
    createdAt: int,
    updatedAt: int)
  {
    /** Whether the viewer (absent when nobody is signed in) has liked this post. */
    function IsLikedByCurrentUser(currentUserId: Option<string>): (r: bool)
      ensures currentUserId.None? ==> !r
      ensures currentUserId.Some? ==> (r <==> currentUserId.value in likedBy)
    {
      currentUserId.Some? && currentUserId.value in likedBy
    }

    /** The parameterless `isLikedByCurrentUser` property: a constant getter. */
    function LikedFlag(): (r: bool)
      ensures !r
    {
      false
    }
  }

  /**
   * A post built with every constructor argument at its default. The two
   * timestamp defaults each read the clock, so they are two readings.
   */
  function DefaultPost(createdAt: int, updatedAt: int): (p: Post)
    ensures p.likeCount == 0 && p.commentCount == 0 && p.likedBy == []
    ensures p.createdAt == createdAt && p.updatedAt == updatedAt
  {
    Post("", "", "", "", "", "", 0, 0, [], createdAt, updatedAt)
  }

  /** Nobody, signed in or not, has liked a default post. */
  lemma DefaultPostLikedByNobody(createdAt: int, updatedAt: int, viewer: Option<string>)
    ensures !DefaultPost(createdAt, updatedAt).IsLikedByCurrentUser(viewer)
  {
  }

  /**
   * The property and the function of the same name disagree for every user in
   * `likedBy`: the property reports "not liked" whatever the array holds.
   */
  lemma LikedFlagIgnoresLikedBy(p: Post, u: string)
    requires u in p.likedBy
    ensures p.IsLikedByCurrentUser(Some(u)) && !p.LikedFlag()
  {
  }

  /** A comment document. */
  datatype Comment = Comment(
    commentId: string,
    postId: string,
    userId: string,
    username: string,
    userProfileImage: string,
    text: string,
    createdAt: int)

  /** The account the authentication service reports; its email is nullable. */
  datatype AuthUser = AuthUser(uid: string, email: Option<string>)
}
