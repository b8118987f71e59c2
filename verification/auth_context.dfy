/**
 * The session state machine: a pure reducer over `AuthState` with seven
 * tagged actions, and the provider that sequences token-store writes,
 * remote calls and dispatches around it.
 *
 * The remote auth API is not modelled; each call is replaced by the outcome
 * it produced, an `ApiOutcome` given to the operation as a parameter. A
 * ghost log of `Effect`s records, in order, every dispatch, every token-store
 * write and every remote request an operation makes.
 */
module AuthContext {
  import opened Wrappers
  import opened AuthTypes
  import opened TokenStore

  datatype AuthAction =
    | AuthStart
    | AuthSuccess(user: User, tokens: AuthTokens)
    | AuthError(message: string)
    | AuthLogout
    | ClearError
    | SetUser(user: User)
    | SetLoading(loading: bool)

  /** Loading until the bootstrap check has settled. */
  const InitialState := AuthState(None, None, false, true, None)

  /** The session `AUTH_LOGOUT` leaves behind, whatever came before. */
  const SignedOut := AuthState(None, None, false, false, None)

  /** The session `AUTH_SUCCESS` leaves behind. */
  function SignedIn(user: User, tokens: AuthTokens): AuthState {
    AuthState(Some(user), Some(tokens), true, false, None)
  }

  /** The session `AUTH_ERROR` leaves behind. */
  function Failed(message: string): AuthState {
    AuthState(None, None, false, false, Some(message))
  }

  /** A session is authenticated exactly when it holds tokens, and never without a user. */
  ghost predicate Consistent(s: AuthState) {
    && (s.isAuthenticated <==> s.tokens.Some?)
    && (s.isAuthenticated ==> s.user.Some?)
  }

  /** `authReducer`. */
  function AuthReducer(state: AuthState, action: AuthAction): (r: AuthState)
    ensures Consistent(state) ==> Consistent(r)
  {
    match action
    case AuthStart => state.(isLoading := true, error := None)
    case AuthSuccess(user, tokens) =>
      state.(user := Some(user), tokens := Some(tokens), isAuthenticated := true, isLoading := false, error := None)
    case AuthError(message) =>
      state.(user := None, tokens := None, isAuthenticated := false, isLoading := false, error := Some(message))
    case AuthLogout =>
      state.(user := None, tokens := None, isAuthenticated := false, isLoading := false, error := None)
    case ClearError => state.(error := None)
    case SetUser(user) => state.(user := Some(user))
    case SetLoading(loading) => state.(isLoading := loading)
  }

  /** The state after dispatching `actions`, in order, from `initialState`. */
  function Reduce(actions: seq<AuthAction>): AuthState {
    if actions == [] then InitialState
    else AuthReducer(Reduce(actions[..|actions| - 1]), actions[|actions| - 1])
  }

  // ---------------------------------------------------------------------------
  // Properties of the reducer

  /** Every state reachable from `initialState` is consistent. */
  lemma {:induction false} ReachableConsistent(actions: seq<AuthAction>)
    ensures Consistent(Reduce(actions))
  {
    if actions != [] {
      ReachableConsistent(actions[..|actions| - 1]);
    }
  }

  /** `AUTH_START` raises `isLoading`, clears `error` and keeps the session itself. */
  lemma StartKeepsSession(s: AuthState)
    ensures var r := AuthReducer(s, AuthStart);
      && r.isLoading && r.error.None?
      && r.user == s.user && r.tokens == s.tokens && r.isAuthenticated == s.isAuthenticated
  {
  }

  /**
   * `AUTH_SUCCESS`, `AUTH_ERROR` and `AUTH_LOGOUT` overwrite all five fields:
   * the result does not depend on the previous state. Only `AUTH_ERROR` sets
   * `error`.
   */
  lemma ResettingActions(s: AuthState, user: User, tokens: AuthTokens, message: string)
    ensures AuthReducer(s, AuthSuccess(user, tokens)) == SignedIn(user, tokens)
    ensures AuthReducer(s, AuthError(message)) == Failed(message)
    ensures AuthReducer(s, AuthLogout) == SignedOut
  {
  }

  /** Logging out twice is logging out once. */
  lemma LogoutIdempotent(s: AuthState)
    ensures AuthReducer(AuthReducer(s, AuthLogout), AuthLogout) == AuthReducer(s, AuthLogout)
  {
  }

  /** `CLEAR_ERROR`, `SET_USER` and `SET_LOADING` each change their one field only. */
  lemma SingleFieldActions(s: AuthState, user: User, loading: bool)
    ensures AuthReducer(s, ClearError) == s.(error := None)
    ensures AuthReducer(s, SetUser(user)) == s.(user := Some(user))
    ensures AuthReducer(s, SetLoading(loading)) == s.(isLoading := loading)
  {
  }

  // ---------------------------------------------------------------------------
  // The remote API, as outcomes

  datatype AuthData = AuthData(user: User, tokens: AuthTokens)

  /** The `{success, message, data}` body of a login, register or refresh reply. */
  datatype AuthResponse = AuthResponse(success: bool, message: string, data: Option<AuthData>)

  /** A caught value: an `Error` (or `ApiError`) with its message, or anything else. */
  datatype Thrown = ErrorValue(message: string) | NonErrorValue

  /** What a remote call produced: a reply, or an exception. */
  datatype ApiOutcome = Responded(response: AuthResponse) | Threw(error: Thrown)

  /** `response.success && response.data`: the payload of an accepted reply. */
  function Accepted(outcome: ApiOutcome): (r: Option<AuthData>)
    ensures r.Some? <==> outcome.Responded? && outcome.response.success && outcome.response.data.Some?
    ensures r.Some? ==> r.value == outcome.response.data.value
  {
    match outcome
    case Responded(response) => if response.success then response.data else None
    case Threw(_) => None
  }

  /**
   * What a failed login or register raises, and re-throws: for a reply that
   * was not accepted, `new Error(response.message || fallback)`; for an
   * exception, the caught value itself.
   */
  function Rejection(outcome: ApiOutcome, fallback: string): (e: Thrown)
    ensures outcome.Threw? ==> e == outcome.error
    ensures outcome.Responded? ==> e.ErrorValue?
    ensures outcome.Responded? && outcome.response.message != "" ==> e.message == outcome.response.message
    ensures outcome.Responded? && outcome.response.message == "" ==> e.message == fallback
  {
    match outcome
    case Responded(response) => ErrorValue(if response.message != "" then response.message else fallback)
    case Threw(error) => error
  }

  const UnexpectedError := "An unexpected error occurred"

  /** The message `AUTH_ERROR` carries for a caught value. */
  function ErrorMessage(e: Thrown): (m: string)
    ensures e.ErrorValue? ==> m == e.message
    ensures e.NonErrorValue? ==> m == UnexpectedError
  {
    match e
    case ErrorValue(message) => message
    case NonErrorValue => UnexpectedError
  }

  /** The failure message of a login: the API's message, else the fallback, else the thrown error's message. */
  lemma LoginFailureMessage(outcome: ApiOutcome)
    requires Accepted(outcome).None?
    ensures outcome.Responded? && outcome.response.message != "" ==>
      ErrorMessage(Rejection(outcome, "Login failed")) == outcome.response.message
    ensures outcome.Responded? && outcome.response.message == "" ==>
      ErrorMessage(Rejection(outcome, "Login failed")) == "Login failed"
    ensures outcome == Threw(NonErrorValue) ==>
      ErrorMessage(Rejection(outcome, "Login failed")) == UnexpectedError
  {
  }

  /** One step of an operation, in the order it happens. */
  datatype Effect =
    | Dispatched(action: AuthAction)
    | CalledSetTokens(tokens: AuthTokens)
    | CalledSetUser(user: User)
    | CalledClearAll
    | RequestedLogin(credentials: LoginRequest)
    | RequestedRegister(userData: RegisterRequest)
    | RequestedRefresh(refreshToken: string)
    | RequestedLogout

  // ---------------------------------------------------------------------------
  // The provider

  /** `AuthProvider`: the reducer's state, the token store it writes, and the operations it exposes. */
  class AuthProvider {
    var state: AuthState
    ghost var effects: seq<Effect>
    const storage: TokenStorage

    ghost predicate Valid()
      reads this
    {
      Consistent(state)
    }

    constructor (storage: TokenStorage)
      ensures Valid() && state == InitialState && effects == [] && this.storage == storage
    {
      state := InitialState;
      effects := [];
      this.storage := storage;
    }

    /** `dispatch(action)`. */
    method Dispatch(action: AuthAction)
      requires Valid()
      modifies this
      ensures Valid()
      ensures state == AuthReducer(old(state), action)
      ensures effects == old(effects) + [Dispatched(action)]
    {
      state := AuthReducer(state, action);
      effects := effects + [Dispatched(action)];
    }

    /**
     * `checkAuth`: adopt the stored session if its access token is still
     * valid, try one refresh if it has expired, and log out otherwise. It
     * always settles with `isLoading` false.
     */
    method CheckAuth(nowMs: int, refresh: ApiOutcome)
      requires Valid()
      modifies this, storage
      ensures Valid() && !state.isLoading
      ensures
        var items := old(storage.items);
        var browser := storage.isBrowser;
        var tokens := TokensOf(items, browser);
        var user := UserOf(items, browser, storage.userCodec);
        if tokens.None? || user.None? then
          && state == SignedOut
          && effects == old(effects) + [Dispatched(AuthLogout)]
          && storage.items == items
        else if !AccessTokenExpired(items, browser, storage.parsePayload, nowMs) then
          && state == SignedIn(user.value, tokens.value)
          && effects == old(effects) + [Dispatched(AuthSuccess(user.value, tokens.value))]
          && storage.items == items
        else if Accepted(refresh).Some? then
          var d := Accepted(refresh).value;
          && state == SignedIn(d.user, d.tokens)
          && effects == old(effects) + [RequestedRefresh(tokens.value.refreshToken),
               CalledSetTokens(d.tokens), CalledSetUser(d.user), Dispatched(AuthSuccess(d.user, d.tokens))]
          && storage.items == WithUser(WithTokens(items, browser, d.tokens), browser, storage.userCodec, d.user)
        else
          && state == SignedOut
          && effects == old(effects) + [RequestedRefresh(tokens.value.refreshToken), CalledClearAll, Dispatched(AuthLogout)]
          && storage.items == Cleared(items, browser)
    {
      var tokens := storage.GetTokens();
      var user := storage.GetUser();
      if tokens.None? || user.None? {
        Dispatch(AuthLogout);
        return;
      }
      var expired := storage.IsAccessTokenExpired(nowMs);
      if expired {
        Refresh(tokens.value.refreshToken, refresh);
      } else {
        Dispatch(AuthSuccess(user.value, tokens.value));
      }
    }

    /** The expired-token branch of `checkAuth`: the refresh call and what follows its outcome. */
    method Refresh(refreshToken: string, refresh: ApiOutcome)
      requires Valid()
      modifies this, storage
      ensures Valid() && !state.isLoading
      ensures
        var items := old(storage.items);
        var browser := storage.isBrowser;
        if Accepted(refresh).Some? then
          var d := Accepted(refresh).value;
          && state == SignedIn(d.user, d.tokens)
          && effects == old(effects) + [RequestedRefresh(refreshToken),
               CalledSetTokens(d.tokens), CalledSetUser(d.user), Dispatched(AuthSuccess(d.user, d.tokens))]
          && storage.items == WithUser(WithTokens(items, browser, d.tokens), browser, storage.userCodec, d.user)
        else
          && state == SignedOut
          && effects == old(effects) + [RequestedRefresh(refreshToken), CalledClearAll, Dispatched(AuthLogout)]
          && storage.items == Cleared(items, browser)
    {
      effects := effects + [RequestedRefresh(refreshToken)];
      var accepted := Accepted(refresh);
      if accepted.Some? {
        storage.SetTokens(accepted.value.tokens);
        effects := effects + [CalledSetTokens(accepted.value.tokens)];
        storage.SetUser(accepted.value.user);
        effects := effects + [CalledSetUser(accepted.value.user)];
        Dispatch(AuthSuccess(accepted.value.user, accepted.value.tokens));
      } else {
        storage.ClearAll();
        effects := effects + [CalledClearAll];
        Dispatch(AuthLogout);
      }
    }

    /**
     * The body shared by `login` and `register`: `AUTH_START`, the remote
     * call, then either the two store writes and `AUTH_SUCCESS`, or
     * `AUTH_ERROR` and the re-thrown error.
     */
    method Authenticate(request: Effect, fallback: string, outcome: ApiOutcome) returns (thrown: Option<Thrown>)
      requires Valid()
      modifies this, storage
      ensures Valid()
      ensures
        var items := old(storage.items);
        var browser := storage.isBrowser;
        if Accepted(outcome).Some? then
          var d := Accepted(outcome).value;
          && thrown.None?
          && state == SignedIn(d.user, d.tokens)
          && effects == old(effects) + [Dispatched(AuthStart), request,
               CalledSetTokens(d.tokens), CalledSetUser(d.user), Dispatched(AuthSuccess(d.user, d.tokens))]
          && storage.items == WithUser(WithTokens(items, browser, d.tokens), browser, storage.userCodec, d.user)
        else
          var e := Rejection(outcome, fallback);
          && thrown == Some(e)
          && state == Failed(ErrorMessage(e))
          && effects == old(effects) + [Dispatched(AuthStart), request, Dispatched(AuthError(ErrorMessage(e)))]
          && storage.items == items
    {
      Dispatch(AuthStart);
      effects := effects + [request];
      var accepted := Accepted(outcome);
      if accepted.Some? {
        storage.SetTokens(accepted.value.tokens);
        effects := effects + [CalledSetTokens(accepted.value.tokens)];
        storage.SetUser(accepted.value.user);
        effects := effects + [CalledSetUser(accepted.value.user)];
        Dispatch(AuthSuccess(accepted.value.user, accepted.value.tokens));
        thrown := None;
      } else {
        var error := Rejection(outcome, fallback);
        Dispatch(AuthError(ErrorMessage(error)));
        thrown := Some(error);
      }
    }

    /** `login(credentials)`; `outcome` is what `api.auth.login` produced. `thrown` is the re-thrown error. */
    method Login(credentials: LoginRequest, outcome: ApiOutcome) returns (thrown: Option<Thrown>)
      requires Valid()
      modifies this, storage
      ensures Valid()
      ensures
        var items := old(storage.items);
        var browser := storage.isBrowser;
        if Accepted(outcome).Some? then
          var d := Accepted(outcome).value;
          && thrown.None?
          && state == SignedIn(d.user, d.tokens)
          && effects == old(effects) + [Dispatched(AuthStart), RequestedLogin(credentials),
               CalledSetTokens(d.tokens), CalledSetUser(d.user), Dispatched(AuthSuccess(d.user, d.tokens))]
          && storage.items == WithUser(WithTokens(items, browser, d.tokens), browser, storage.userCodec, d.user)
        else
          var e := Rejection(outcome, "Login failed");
          && thrown == Some(e)
          && state == Failed(ErrorMessage(e))
          && effects == old(effects) + [Dispatched(AuthStart), RequestedLogin(credentials), Dispatched(AuthError(ErrorMessage(e)))]
          && storage.items == items
    {
      thrown := Authenticate(RequestedLogin(credentials), "Login failed", outcome);
    }

    /** `register(userData)`; `outcome` is what `api.auth.register` produced. */
    method Register(userData: RegisterRequest, outcome: ApiOutcome) returns (thrown: Option<Thrown>)
      requires Valid()
      modifies this, storage
      ensures Valid()
      ensures
        var items := old(storage.items);
        var browser := storage.isBrowser;
        if Accepted(outcome).Some? then
          var d := Accepted(outcome).value;
          && thrown.None?
          && state == SignedIn(d.user, d.tokens)
          && effects == old(effects) + [Dispatched(AuthStart), RequestedRegister(userData),
               CalledSetTokens(d.tokens), CalledSetUser(d.user), Dispatched(AuthSuccess(d.user, d.tokens))]
          && storage.items == WithUser(WithTokens(items, browser, d.tokens), browser, storage.userCodec, d.user)
        else
          var e := Rejection(outcome, "Registration failed");
          && thrown == Some(e)
          && state == Failed(ErrorMessage(e))
          && effects == old(effects) + [Dispatched(AuthStart), RequestedRegister(userData), Dispatched(AuthError(ErrorMessage(e)))]
          && storage.items == items
    {
      thrown := Authenticate(RequestedRegister(userData), "Registration failed", outcome);
    }

    /**
     * `logout()`: the remote call is fire-and-forget and its result is never
     * looked at, so the store is cleared and `AUTH_LOGOUT` dispatched whatever
     * it does.
     */
    method Logout()
      requires Valid()
      modifies this, storage
      ensures Valid() && state == SignedOut
      ensures effects == old(effects) + [RequestedLogout, CalledClearAll, Dispatched(AuthLogout)]
      ensures storage.items == Cleared(old(storage.items), storage.isBrowser)
    {
      effects := effects + [RequestedLogout];
      storage.ClearAll();
      effects := effects + [CalledClearAll];
      Dispatch(AuthLogout);
    }

    /** `clearError()`. */
    method ClearError()
      requires Valid()
      modifies this
      ensures Valid() && state == old(state).(error := None)
      ensures effects == old(effects) + [Dispatched(AuthAction.ClearError)]
    {
      Dispatch(AuthAction.ClearError);
    }

    /** `updateAuthState(user, tokens)`: adopt a session obtained elsewhere, without touching the store. */
    method UpdateAuthState(user: User, tokens: AuthTokens)
      requires Valid()
      modifies this
      ensures Valid() && state == SignedIn(user, tokens)
      ensures effects == old(effects) + [Dispatched(AuthSuccess(user, tokens))]
    {
      Dispatch(AuthSuccess(user, tokens));
    }

    /** `clearAuthState()`: sign out in memory only; the store is left as it is. */
    method ClearAuthState()
      requires Valid()
      modifies this
      ensures Valid() && state == SignedOut
      ensures effects == old(effects) + [Dispatched(AuthLogout)]
    {
      Dispatch(AuthLogout);
    }
  }
}
