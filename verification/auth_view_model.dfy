/**
 * The authentication screen state holder. Each operation is one coroutine
 * body run to completion: it takes the repository's outcome as an input, and
 * when the body launches a further coroutine it returns what that coroutine
 * will do, for the caller to run as the next step.
 */
module AuthViewModels {
  import opened Outcome
  import opened Model

  datatype AuthState = AuthState(
    isLoading: bool,
    isAuthenticated: bool,
    error: Option<string>,
    passwordResetSent: bool)

  /** `AuthState()`. */
  const DefaultAuthState := AuthState(false, false, None, false)

  /** The follow-relation call a state-holder operation asks the repository to make. */
  datatype FollowRequest =
    | Follow(follower: string, target: string)
    | Unfollow(follower: string, target: string)
    | IsFollowing(follower: string, target: string)

  /** The state an operation publishes before it calls the repository. */
  function Started(s: AuthState): AuthState
  {
    s.(isLoading := true, error := None)
  }

  /** Kotlin's `substringBefore(delimiter)`: the text before the first delimiter, or all of it. */
  function SubstringBefore(s: string, delimiter: char): (r: string)
    ensures delimiter !in r
    ensures |r| <= |s| && r == s[..|r|]
    ensures |r| < |s| ==> s[|r|] == delimiter
    ensures delimiter !in s ==> r == s
  {
    if s == [] || s[0] == delimiter then []
    else
      var rest := SubstringBefore(s[1..], delimiter);
      assert s == [s[0]] + s[1..];
      [s[0]] + rest
  }

  /**
   * The profile `loadUserProfile` falls back on when none is stored: the
   * account's id, the part of its email before '@' as username ("user" when
   * there is no email), and every counter at 0.
   */
  function FallbackUser(account: AuthUser, now: int): (u: User)
    ensures u.userId == account.uid
    ensures account.email.None? ==> u.username == "user" && u.email == ""
    ensures account.email.Some? ==>
      (&& u.email == account.email.value
       && '@' !in u.username
       && |u.username| <= |u.email| && u.username == u.email[..|u.username|]
       && (|u.username| < |u.email| ==> u.email[|u.username|] == '@')
       && ('@' !in u.email ==> u.username == u.email))
    ensures u.profileImageUrl == "" && u.bio == ""
    ensures u.followersCount == 0 && u.followingCount == 0 && u.postsCount == 0
  {
    var username := if account.email.Some? then SubstringBefore(account.email.value, '@') else "user";
    NewUser(account.uid, username, account.email.OrElse(""), now)
  }

  class AuthViewModel {
    var authState: AuthState
    var currentUser: Option<User>
    /** Every value assigned to `authState`, oldest first. */
    ghost var authHistory: seq<AuthState>

    /** The fields at construction; `init` then runs `CheckCurrentUser`. */
    constructor ()
      ensures authState == DefaultAuthState && currentUser == None
      ensures authHistory == [DefaultAuthState]
    {
      authState := DefaultAuthState;
      currentUser := None;
      authHistory := [DefaultAuthState];
    }

    method SetAuthState(s: AuthState)
      modifies this
      ensures authState == s && authHistory == old(authHistory) + [s]
      ensures currentUser == old(currentUser)
    {
      authState := s;
      authHistory := authHistory + [s];
    }

    /** The shared body of `login` and `register`: on success, load the profile of the signed-in account. */
    method Authenticate(outcome: Result<AuthUser>) returns (loadProfileOf: Option<string>)
      modifies this
      ensures authHistory == old(authHistory) + [Started(old(authState)), authState]
      ensures outcome.Success? ==>
        authState == Started(old(authState)).(isLoading := false, isAuthenticated := true)
        && loadProfileOf == Some(outcome.value.uid)
      ensures outcome.Failure? ==>
        authState == Started(old(authState)).(isLoading := false, error := outcome.message)
        && loadProfileOf == None
      ensures currentUser == old(currentUser)
    {
      SetAuthState(Started(authState));
      match outcome
      case Success(account) =>
        SetAuthState(authState.(isLoading := false, isAuthenticated := true));
        loadProfileOf := Some(account.uid);
      case Failure(message) =>
        SetAuthState(authState.(isLoading := false, error := message));
        loadProfileOf := None;
    }

    /** `login`, given the repository's sign-in outcome. */
    method Login(signIn: Result<AuthUser>) returns (loadProfileOf: Option<string>)
      modifies this
      ensures authHistory == old(authHistory) + [Started(old(authState)), authState]
      ensures signIn.Success? ==>
        authState == Started(old(authState)).(isLoading := false, isAuthenticated := true)
        && loadProfileOf == Some(signIn.value.uid)
      ensures signIn.Failure? ==>
        authState == Started(old(authState)).(isLoading := false, error := signIn.message)
        && loadProfileOf == None
      ensures currentUser == old(currentUser)
    {
      loadProfileOf := Authenticate(signIn);
    }

    /** `register`, given the repository's registration outcome. */
    method Register(registered: Result<AuthUser>) returns (loadProfileOf: Option<string>)
      modifies this
      ensures authHistory == old(authHistory) + [Started(old(authState)), authState]
      ensures registered.Success? ==>
        authState == Started(old(authState)).(isLoading := false, isAuthenticated := true)
        && loadProfileOf == Some(registered.value.uid)
      ensures registered.Failure? ==>
        authState == Started(old(authState)).(isLoading := false, error := registered.message)
        && loadProfileOf == None
      ensures currentUser == old(currentUser)
    {
      loadProfileOf := Authenticate(registered);
    }

    /** `resetPassword`: success raises `passwordResetSent` and leaves authentication alone. */
    method ResetPassword(sent: Result<()>)
      modifies this
      ensures authHistory == old(authHistory) + [Started(old(authState)), authState]
      ensures sent.Success? ==> authState == Started(old(authState)).(isLoading := false, passwordResetSent := true)
      ensures sent.Failure? ==> authState == Started(old(authState)).(isLoading := false, error := sent.message)
      ensures authState.isAuthenticated == old(authState.isAuthenticated)
      ensures currentUser == old(currentUser)
    {
      SetAuthState(Started(authState));
      if sent.Success? {
        SetAuthState(authState.(isLoading := false, passwordResetSent := true));
      } else {
        SetAuthState(authState.(isLoading := false, error := sent.message));
      }
    }

    /** `logout`: success resets everything; a failure changes nothing. */
    method Logout(signedOut: Result<()>)
      modifies this
      ensures signedOut.Success? ==>
        authState == DefaultAuthState && currentUser == None
        && authHistory == old(authHistory) + [DefaultAuthState]
      ensures signedOut.Failure? ==>
        authState == old(authState) && currentUser == old(currentUser) && authHistory == old(authHistory)
    {
      if signedOut.Success? {
        SetAuthState(DefaultAuthState);
        currentUser := None;
      }
    }

    /** `updateProfile(user)`: success makes `user` the current user. */
    method UpdateProfile(user: User, saved: Result<()>)
      modifies this
      ensures authHistory == old(authHistory) + [Started(old(authState)), authState]
      ensures saved.Success? ==> currentUser == Some(user) && authState == Started(old(authState)).(isLoading := false)
      ensures saved.Failure? ==>
        currentUser == old(currentUser) && authState == Started(old(authState)).(isLoading := false, error := saved.message)
    {
      SetAuthState(Started(authState));
      if saved.Success? {
        currentUser := Some(user);
        SetAuthState(authState.(isLoading := false));
      } else {
        SetAuthState(authState.(isLoading := false, error := saved.message));
      }
    }

    /** `checkCurrentUser`, run by `init`, given the session's account. */
    method CheckCurrentUser(session: Option<AuthUser>) returns (loadProfileOf: Option<string>)
      modifies this
      ensures session.Some? ==>
        authState == old(authState).(isAuthenticated := true) && loadProfileOf == Some(session.value.uid)
      ensures session.None? ==> authState == old(authState).(isLoading := false) && loadProfileOf == None
      ensures authHistory == old(authHistory) + [authState]
      ensures currentUser == old(currentUser)
    {
      if session.Some? {
        SetAuthState(authState.(isAuthenticated := true));
        loadProfileOf := Some(session.value.uid);
      } else {
        SetAuthState(authState.(isLoading := false));
        loadProfileOf := None;
      }
    }

    /**
     * `loadUserProfile`, given the profile lookup's outcome and the session's
     * account. When no profile can be read, a fallback profile becomes current
     * and is handed back to be saved by a launched `updateProfile`.
     */
    method LoadUserProfile(profile: Result<User>, session: Option<AuthUser>, now: int) returns (save: Option<User>)
      modifies this
      ensures profile.Success? ==>
        currentUser == Some(profile.value) && authState == old(authState).(isLoading := false)
        && authHistory == old(authHistory) + [authState] && save == None
      ensures profile.Failure? && session.Some? ==>
        currentUser == Some(FallbackUser(session.value, now)) && authState == old(authState).(isLoading := false)
        && authHistory == old(authHistory) + [authState] && save == Some(FallbackUser(session.value, now))
      ensures profile.Failure? && session.None? ==>
        currentUser == old(currentUser) && authState == old(authState) && authHistory == old(authHistory)
        && save == None
    {
      save := None;
      match profile
      case Success(user) =>
        currentUser := Some(user);
        SetAuthState(authState.(isLoading := false));
      case Failure(_) =>
        if session.Some? {
          var basicUser := FallbackUser(session.value, now);
          currentUser := Some(basicUser);
          SetAuthState(authState.(isLoading := false));
          save := Some(basicUser);
        }
    }

    /** `clearError`. */
    method ClearError()
      modifies this
      ensures authState == old(authState).(error := None) && authHistory == old(authHistory) + [authState]
      ensures currentUser == old(currentUser)
    {
      SetAuthState(authState.(error := None));
    }

    /** `clearPasswordResetFlag`. */
    method ClearPasswordResetFlag()
      modifies this
      ensures authState == old(authState).(passwordResetSent := false) && authHistory == old(authHistory) + [authState]
      ensures currentUser == old(currentUser)
    {
      SetAuthState(authState.(passwordResetSent := false));
    }

    /** `loadOtherUserProfile`: the callback receives the profile, or null on failure. */
    method LoadOtherUserProfile(profile: Result<User>) returns (reported: Option<User>)
      ensures reported.Some? <==> profile.Success?
      ensures reported.Some? ==> reported.value == profile.value
    {
      reported := if profile.Success? then Some(profile.value) else None;
    }

    /**
     * `followUser(target)`: `request` is the repository call issued and
     * `reported` what the callback receives. Without a current user nothing
     * is asked and false is reported.
     */
    method FollowUser(target: string, outcome: Result<()>) returns (request: Option<FollowRequest>, reported: bool)
      ensures currentUser.None? ==> request == None && !reported
      ensures currentUser.Some? ==> request == Some(Follow(currentUser.value.userId, target)) && (reported <==> outcome.Success?)
    {
      if currentUser.Some? {
        request := Some(Follow(currentUser.value.userId, target));
        reported := outcome.Success?;
      } else {
        request := None;
        reported := false;
      }
    }

    /** `unfollowUser(target)`, reported as `FollowUser` is. */
    method UnfollowUser(target: string, outcome: Result<()>) returns (request: Option<FollowRequest>, reported: bool)
      ensures currentUser.None? ==> request == None && !reported
      ensures currentUser.Some? ==> request == Some(Unfollow(currentUser.value.userId, target)) && (reported <==> outcome.Success?)
    {
      if currentUser.Some? {
        request := Some(Unfollow(currentUser.value.userId, target));
        reported := outcome.Success?;
      } else {
        request := None;
        reported := false;
      }
    }

    /** `checkIfFollowing(target)`: a failed lookup reports false, like a missing current user. */
    method CheckIfFollowing(target: string, outcome: Result<bool>) returns (request: Option<FollowRequest>, reported: bool)
      ensures currentUser.None? ==> request == None && !reported
      ensures currentUser.Some? ==> request == Some(IsFollowing(currentUser.value.userId, target))
      ensures reported <==> currentUser.Some? && outcome == Success(true)
    {
      if currentUser.Some? {
        request := Some(IsFollowing(currentUser.value.userId, target));
        reported := outcome.Success? && outcome.value;
      } else {
        request := None;
        reported := false;
      }
    }
  }
}
