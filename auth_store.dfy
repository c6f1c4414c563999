/** The authentication store: one state cell, session checks against the
    token storage, and the current-user call as an outcome parameter. */
module AuthStore {
  import opened Remote
  import opened TokenStorage

  datatype User = User(
    id: string,
    firstName: string,
    lastName: string,
    email: string,
    createdAt: string,
    updatedAt: Option<string>)

  datatype AuthState = AuthState(user: Option<User>, isLoading: bool, isAuthenticated: bool, isInitialized: bool)

  /** The `data` of the current-user response: the user wrapped in a `user`
      field, or the user itself (`asUser`). */
  datatype MeData = MeData(user: Option<User>, asUser: User)

  datatype ApiResponse<T> = ApiResponse(message: string, httpStatus: string, data: T)

  /** What `updateUserProfile` is sent. */
  datatype UserPatch = UserPatch(firstName: Option<string>, lastName: Option<string>)

  /** What `updateProfile` resolves to. */
  datatype UpdateResult = UpdateResult(success: bool, data: ApiResponse<User>)

  const INITIAL: AuthState := AuthState(None, false, false, false)

  function SignedIn(u: User): AuthState {
    AuthState(Some(u), false, true, true)
  }

  function SignedOut(initialized: bool): AuthState {
    AuthState(None, false, false, initialized)
  }

  /** `response.data.user || response.data`: a user object is always truthy. */
  function UserOf(data: MeData): (u: User)
    ensures data.user.Some? ==> u == data.user.value
    ensures data.user.None? ==> u == data.asUser
  {
    data.user.GetOr(data.asUser)
  }

  /** Whether a call to `init` goes past its guards. */
  predicate InitRuns(browser: bool, s: AuthState) {
    browser && !s.isInitialized
  }

  /** After `logout` a later `init` is skipped; after `clear` it runs again;
      and a signed-in state is never reported without a user. */
  lemma InitAfterSignOut(browser: bool, u: User)
    ensures !InitRuns(browser, SignedOut(true))
    ensures InitRuns(browser, SignedOut(false)) <==> browser
    ensures !InitRuns(browser, SignedIn(u))
    ensures SignedIn(u).isAuthenticated && SignedIn(u).user == Some(u)
    ensures !SignedOut(false).isAuthenticated && SignedOut(false).user.None?
  {
  }

  class Store {
    const tokens: TokenService
    var state: AuthState

    constructor (tokens: TokenService)
      ensures this.tokens == tokens && state == INITIAL
    {
      this.tokens := tokens;
      state := INITIAL;
    }

    /** `setUser(user)`. */
    method SetUser(u: User)
      modifies this
      ensures state == SignedIn(u)
    {
      state := SignedIn(u);
    }

    /** `init()`. `outcome` is the current-user call, whose `data` may be
        missing (`None`), which throws a `TypeError` inside the `try`. The
        result says whether that call was made. */
    method Init(outcome: Outcome<Option<MeData>>) returns (called: bool)
      modifies this, tokens
      ensures !InitRuns(tokens.browser, old(state)) ==>
        !called && state == old(state) && tokens.storage == old(tokens.storage)
      ensures InitRuns(tokens.browser, old(state)) && !old(tokens.HasTokens()) ==>
        !called && state == SignedOut(true) && tokens.storage == old(tokens.storage)
      ensures InitRuns(tokens.browser, old(state)) && old(tokens.HasTokens()) ==> called
      ensures called && outcome.Success? && outcome.value.Some? ==>
        state == SignedIn(UserOf(outcome.value.value)) && tokens.storage == old(tokens.storage)
      ensures called && (outcome.Failure? || outcome.value.None?) ==>
        && state == SignedOut(true)
        && tokens.storage == RemoveTokens(old(tokens.storage), tokens.browser)
        && !tokens.HasTokens()
    {
      if !tokens.browser || state.isInitialized {
        return false;
      }
      state := state.(isLoading := true);
      if !tokens.HasTokens() {
        state := SignedOut(true);
        return false;
      }
      called := true;
      match outcome
      case Success(data) =>
        if data.Some? {
          state := SignedIn(UserOf(data.value));
        } else {
          tokens.ClearTokens();
          state := SignedOut(true);
        }
      case Failure(_) =>
        tokens.ClearTokens();
        state := SignedOut(true);
    }

    /** `logout()`: the remote call's outcome is ignored; the result says
        whether the browser is sent to the login page. */
    method Logout(outcome: Outcome<()>) returns (redirectToLogin: bool)
      modifies this, tokens
      ensures state == SignedOut(true)
      ensures tokens.storage == RemoveTokens(old(tokens.storage), tokens.browser) && !tokens.HasTokens()
      ensures redirectToLogin == tokens.browser
    {
      tokens.ClearTokens();
      state := SignedOut(true);
      redirectToLogin := tokens.browser;
    }

    /** `updateProfile(userData)`: a failure propagates and changes nothing. */
    method UpdateProfile(patch: UserPatch, outcome: Outcome<ApiResponse<User>>) returns (result: Outcome<UpdateResult>)
      modifies this
      ensures outcome.Success? ==>
        state == old(state).(user := Some(outcome.value.data)) && result == Success(UpdateResult(true, outcome.value))
      ensures outcome.Failure? ==> state == old(state) && result == Failure(outcome.error)
    {
      match outcome
      case Success(response) =>
        state := state.(user := Some(response.data));
        result := Success(UpdateResult(true, response));
      case Failure(e) =>
        result := Failure(e);
    }

    /** `clear()`: like a sign-out, but uninitialised, so `init` runs again. */
    method Clear()
      modifies this, tokens
      ensures state == SignedOut(false)
      ensures tokens.storage == RemoveTokens(old(tokens.storage), tokens.browser) && !tokens.HasTokens()
    {
      tokens.ClearTokens();
      state := SignedOut(false);
    }
  }
}
