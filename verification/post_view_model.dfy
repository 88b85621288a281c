/**
 * The feed and comments state holder. As for the authentication state
 * holder, each operation is one coroutine body run to completion with the
 * repository's outcome as input; a mutation that chains into `loadPosts()`
 * returns `reload == true`, and the caller runs `LoadPosts` next.
 */
module PostViewModels {
  import opened Outcome
  import opened Model

  datatype PostState = PostState(
    isLoading: bool,
    posts: seq<Post>,
    userPosts: seq<Post>,
    isPostCreated: bool,
    error: Option<string>)

  datatype CommentsState = CommentsState(
    isLoading: bool,
    comments: seq<Comment>,
    error: Option<string>)

  const DefaultPostState := PostState(false, [], [], false, None)
  const DefaultCommentsState := CommentsState(false, [], None)

  /** The feed state an operation publishes before it calls the repository. */
  function PostsStarted(s: PostState): PostState
  {
    s.(isLoading := true, error := None)
  }

  /** The comments state an operation publishes before it calls the repository. */
  function CommentsStarted(s: CommentsState): CommentsState
  {
    s.(isLoading := true, error := None)
  }

  class PostViewModel {
    var postState: PostState
    var commentsState: CommentsState
    /** Every value assigned to `postState`, oldest first. */
    ghost var postHistory: seq<PostState>
    /** Every value assigned to `commentsState`, oldest first. */
    ghost var commentsHistory: seq<CommentsState>

    constructor ()
      ensures postState == DefaultPostState && commentsState == DefaultCommentsState
      ensures postHistory == [DefaultPostState] && commentsHistory == [DefaultCommentsState]
    {
      postState := DefaultPostState;
      commentsState := DefaultCommentsState;
      postHistory := [DefaultPostState];
      commentsHistory := [DefaultCommentsState];
    }

    method SetPostState(s: PostState)
      modifies this
      ensures postState == s && postHistory == old(postHistory) + [s]
      ensures commentsState == old(commentsState) && commentsHistory == old(commentsHistory)
    {
      postState := s;
      postHistory := postHistory + [s];
    }

    method SetCommentsState(s: CommentsState)
      modifies this
      ensures commentsState == s && commentsHistory == old(commentsHistory) + [s]
      ensures postState == old(postState) && postHistory == old(postHistory)
    {
      commentsState := s;
      commentsHistory := commentsHistory + [s];
    }

    /** `loadPosts`, given the full feed's outcome: success replaces `posts` only. */
    method LoadPosts(fetched: Result<seq<Post>>)
      modifies this
      ensures postHistory == old(postHistory) + [PostsStarted(old(postState)), postState]
      ensures fetched.Success? ==> postState == PostsStarted(old(postState)).(isLoading := false, posts := fetched.value)
      ensures fetched.Failure? ==> postState == PostsStarted(old(postState)).(isLoading := false, error := fetched.message)
      ensures fetched.Failure? ==> postState.posts == old(postState.posts)
      ensures postState.userPosts == old(postState.userPosts) && postState.isPostCreated == old(postState.isPostCreated)
      ensures commentsState == old(commentsState) && commentsHistory == old(commentsHistory)
    {
      SetPostState(PostsStarted(postState));
      match fetched
      case Success(posts) =>
        SetPostState(postState.(isLoading := false, posts := posts));
      case Failure(message) =>
        SetPostState(postState.(isLoading := false, error := message));
    }

    /** `loadUserPosts(userId)`, given that user's feed outcome: success replaces `userPosts` only. */
    method LoadUserPosts(fetched: Result<seq<Post>>)
      modifies this
      ensures postHistory == old(postHistory) + [PostsStarted(old(postState)), postState]
      ensures fetched.Success? ==> postState == PostsStarted(old(postState)).(isLoading := false, userPosts := fetched.value)
      ensures fetched.Failure? ==> postState == PostsStarted(old(postState)).(isLoading := false, error := fetched.message)
      ensures fetched.Failure? ==> postState.userPosts == old(postState.userPosts)
      ensures postState.posts == old(postState.posts) && postState.isPostCreated == old(postState.isPostCreated)
      ensures commentsState == old(commentsState) && commentsHistory == old(commentsHistory)
    {
      SetPostState(PostsStarted(postState));
      match fetched
      case Success(posts) =>
        SetPostState(postState.(isLoading := false, userPosts := posts));
      case Failure(message) =>
        SetPostState(postState.(isLoading := false, error := message));
    }

    /**
     * `createPost(post, imageUri)`: `freshId` is the generated UUID; `sent` is
     * the post handed to the repository and `created` its outcome.
     */
    method CreatePost(post: Post, freshId: string, created: Result<()>) returns (sent: Post, reload: bool)
      modifies this
      ensures sent == post.(id := freshId)
      ensures postHistory == old(postHistory) + [PostsStarted(old(postState)), postState]
      ensures created.Success? ==> postState == PostsStarted(old(postState)).(isLoading := false, isPostCreated := true)
      ensures created.Failure? ==> postState == PostsStarted(old(postState)).(isLoading := false, error := created.message)
      ensures reload <==> created.Success?
      ensures commentsState == old(commentsState) && commentsHistory == old(commentsHistory)
    {
      SetPostState(PostsStarted(postState));
      sent := post.(id := freshId);
      if created.Success? {
        SetPostState(postState.(isLoading := false, isPostCreated := true));
        reload := true;
      } else {
        SetPostState(postState.(isLoading := false, error := created.message));
        reload := false;
      }
    }

    /** The shared body of `updatePost` and `deletePost`: a failure sets only `error`. */
    method AfterEdit(outcome: Result<()>) returns (reload: bool)
      modifies this
      ensures reload <==> outcome.Success?
      ensures outcome.Success? ==> postState == old(postState) && postHistory == old(postHistory)
      ensures outcome.Failure? ==>
        postState == old(postState).(error := outcome.message) && postHistory == old(postHistory) + [postState]
      ensures commentsState == old(commentsState) && commentsHistory == old(commentsHistory)
    {
      if outcome.Success? {
        reload := true;
      } else {
        SetPostState(postState.(error := outcome.message));
        reload := false;
      }
    }

    /** `updatePost`, given the repository's outcome. */
    method UpdatePost(outcome: Result<()>) returns (reload: bool)
      modifies this
      ensures reload <==> outcome.Success?
      ensures outcome.Success? ==> postState == old(postState) && postHistory == old(postHistory)
      ensures outcome.Failure? ==>
        postState == old(postState).(error := outcome.message) && postHistory == old(postHistory) + [postState]
      ensures commentsState == old(commentsState) && commentsHistory == old(commentsHistory)
    {
      reload := AfterEdit(outcome);
    }

    /** `deletePost`, given the repository's outcome. */
    method DeletePost(outcome: Result<()>) returns (reload: bool)
      modifies this
      ensures reload <==> outcome.Success?
      ensures outcome.Success? ==> postState == old(postState) && postHistory == old(postHistory)
      ensures outcome.Failure? ==>
        postState == old(postState).(error := outcome.message) && postHistory == old(postHistory) + [postState]
      ensures commentsState == old(commentsState) && commentsHistory == old(commentsHistory)
    {
      reload := AfterEdit(outcome);
    }

    /** `likePost`, given the repository's outcome: no state changes; success reloads the feed. */
    method LikePost(outcome: Result<()>) returns (reload: bool)
      ensures reload <==> outcome.Success?
    {
      reload := outcome.Success?;
    }

    /** `unlikePost`, given the repository's outcome: no state changes; success reloads the feed. */
    method UnlikePost(outcome: Result<()>) returns (reload: bool)
      ensures reload <==> outcome.Success?
    {
      reload := LikePost(outcome);
    }

    /**
     * `addComment(comment)`: on success the comments stay loading and
     * `loadComments(comment.postId)` is launched, returned as `reloadCommentsOf`.
     */
    method AddComment(comment: Comment, outcome: Result<()>) returns (reloadCommentsOf: Option<string>)
      modifies this
      ensures outcome.Success? ==>
        commentsState == CommentsStarted(old(commentsState)) && commentsHistory == old(commentsHistory) + [commentsState]
        && reloadCommentsOf == Some(comment.postId)
      ensures outcome.Failure? ==>
        commentsState == CommentsStarted(old(commentsState)).(isLoading := false, error := outcome.message)
        && commentsHistory == old(commentsHistory) + [CommentsStarted(old(commentsState)), commentsState]
        && reloadCommentsOf == None
      ensures postState == old(postState) && postHistory == old(postHistory)
    {
      SetCommentsState(CommentsStarted(commentsState));
      if outcome.Success? {
        reloadCommentsOf := Some(comment.postId);
      } else {
        SetCommentsState(commentsState.(isLoading := false, error := outcome.message));
        reloadCommentsOf := None;
      }
    }

    /** `loadComments(postId)`, given the comments' outcome. */
    method LoadComments(fetched: Result<seq<Comment>>)
      modifies this
      ensures commentsHistory == old(commentsHistory) + [CommentsStarted(old(commentsState)), commentsState]
      ensures fetched.Success? ==>
        commentsState == CommentsStarted(old(commentsState)).(isLoading := false, comments := fetched.value)
      ensures fetched.Failure? ==>
        commentsState == CommentsStarted(old(commentsState)).(isLoading := false, error := fetched.message)
      ensures postState == old(postState) && postHistory == old(postHistory)
    {
      SetCommentsState(CommentsStarted(commentsState));
      match fetched
      case Success(comments) =>
        SetCommentsState(commentsState.(isLoading := false, comments := comments));
      case Failure(message) =>
        SetCommentsState(commentsState.(isLoading := false, error := message));
    }

    /** `clearPostCreatedFlag`. */
    method ClearPostCreatedFlag()
      modifies this
      ensures postState == old(postState).(isPostCreated := false) && postHistory == old(postHistory) + [postState]
      ensures commentsState == old(commentsState) && commentsHistory == old(commentsHistory)
    {
      SetPostState(postState.(isPostCreated := false));
    }

    /** `clearError`: clears the error of both states and nothing else. */
    method ClearError()
      modifies this
      ensures postState == old(postState).(error := None) && postHistory == old(postHistory) + [postState]
      ensures commentsState == old(commentsState).(error := None) && commentsHistory == old(commentsHistory) + [commentsState]
    {
      SetPostState(postState.(error := None));
      SetCommentsState(commentsState.(error := None));
    }
  }
}
