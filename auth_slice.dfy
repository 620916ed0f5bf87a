/**
 * The authentication slice (redux/slices/authSlice.ts): four async thunks
 * over the auth service and AsyncStorage, and the case reducers that update
 * the slice's state in place.
 *
 * A thunk is a function of what its I/O produced: the service's outcome and
 * the store before the call; it yields how the thunk settles and the store
 * after it.
 */
module AuthSlice {
  import opened Wrappers
  import opened JsStrings
  import opened Types
  import opened Storage

  const LoginFailed: string := "Login failed"
  const RegistrationFailed: string := "Registration failed"
  const LogoutFailed: string := "Logout failed"
  const NoValidSession: string := "No valid session found"

  /** A snapshot of the slice; `user` is typed `any` in the source and only ever holds a profile or nothing. */
  datatype AuthState = AuthState(
    user: Option<User>,
    accessToken: Option<string>,
    refreshToken: Option<string>,
    isAuthenticated: bool,
    isLoading: bool,
    error: Option<string>)

  /** Lines 16-23. */
  const InitialState: AuthState := AuthState(None, None, None, false, false, None)

  /** An authenticated session carries both tokens. */
  predicate SessionConsistent(s: AuthState) {
    s.isAuthenticated ==> s.accessToken.Some? && s.refreshToken.Some?
  }

  /**
   * How the auth service call ended: it resolved with the reply's envelope,
   * or it threw; `responseMessage` is `error.response?.data?.message`, absent
   * for the plain Error the service throws on an unsuccessful envelope.
   */
  datatype ServiceOutcome = Returned(envelope: SuccessEnvelope) | Threw(responseMessage: Option<string>)

  /** The service resolves only with a success envelope; an unsuccessful one is thrown as a plain Error. */
  type SuccessEnvelope = e: AppResponse<AuthResponse> | e.success witness AppResponse(true, None, None)

  /** What `checkAuthState` returns on success (lines 87-90). */
  datatype SessionTokens = SessionTokens(accessToken: string, refreshToken: string)

  /**
   * The `login` thunk (lines 25-43): the two tokens under `result` are
   * stored and the whole envelope is the payload. A missing `result` makes
   * the token read throw a TypeError, which has no `response`.
   */
  function Login(outcome: ServiceOutcome, store: Store): (r: (ThunkResult<AppResponse<AuthResponse>>, Store))
    ensures r.0.Fulfilled? <==> outcome.Returned? && outcome.envelope.result.Some?
    ensures r.0.Fulfilled? ==>
      && r.0.payload == outcome.envelope && r.0.payload.success
      && r.1 == SetTokens(store, outcome.envelope.result.value.accessToken, outcome.envelope.result.value.refreshToken)
    ensures r.0.RejectedWith? ==> r.1 == store
    ensures r.0.RejectedWith? && outcome.Threw? ==> r.0.reason == OrElse(outcome.responseMessage, LoginFailed)
    ensures r.0.RejectedWith? && outcome.Returned? ==> r.0.reason == LoginFailed
  {
    match outcome
    case Threw(message) => (RejectedWith(OrElse(message, LoginFailed)), store)
    case Returned(envelope) =>
      if envelope.result.None? then (RejectedWith(LoginFailed), store)
      else
        var tokens := envelope.result.value;
        (Fulfilled(envelope), SetTokens(store, tokens.accessToken, tokens.refreshToken))
  }

  /** The `register` thunk (lines 45-57): storage is not touched. */
  function Register(outcome: ServiceOutcome): (r: ThunkResult<AppResponse<AuthResponse>>)
    ensures r.Fulfilled? <==> outcome.Returned?
    ensures r.Fulfilled? ==> r.payload == outcome.envelope && r.payload.success
    ensures r.RejectedWith? ==> r.reason == OrElse(outcome.responseMessage, RegistrationFailed)
  {
    match outcome
    case Returned(envelope) => Fulfilled(envelope)
    case Threw(message) => RejectedWith(OrElse(message, RegistrationFailed))
  }

  /** The `logout` thunk (lines 59-70); `storageWorks` says whether `multiRemove` resolved. */
  function Logout(store: Store, storageWorks: bool): (r: (ThunkResult<bool>, Store))
    ensures r.0 == (if storageWorks then Fulfilled(true) else RejectedWith(LogoutFailed))
    ensures storageWorks ==> r.1 == RemoveTokens(store)
    ensures !storageWorks ==> r.1 == store
  {
    if storageWorks then (Fulfilled(true), RemoveTokens(store)) else (RejectedWith(LogoutFailed), store)
  }

  /** The `checkAuthState` thunk (lines 72-95): a session exists exactly when both stored tokens are non-empty. */
  function CheckAuthState(store: Store): (r: ThunkResult<SessionTokens>)
    ensures r.Fulfilled? <==> HasToken(store, AccessTokenKey) && HasToken(store, RefreshTokenKey)
    ensures r.Fulfilled? ==> r.payload == SessionTokens(store[AccessTokenKey], store[RefreshTokenKey])
    ensures r.RejectedWith? ==> r.reason == NoValidSession
  {
    var access := GetItem(store, AccessTokenKey);
    var refresh := GetItem(store, RefreshTokenKey);
    if !Truthy(access) || !Truthy(refresh) then RejectedWith(NoValidSession)
    else Fulfilled(SessionTokens(access.value, refresh.value))
  }

  /** A login that stored two non-empty tokens is found again by the next `checkAuthState`. */
  lemma LoginThenCheckAuthState(outcome: ServiceOutcome, store: Store)
    requires Login(outcome, store).0.Fulfilled?
    requires var tokens := outcome.envelope.result.value; tokens.accessToken != "" && tokens.refreshToken != ""
    ensures var tokens := outcome.envelope.result.value;
      CheckAuthState(Login(outcome, store).1) == Fulfilled(SessionTokens(tokens.accessToken, tokens.refreshToken))
  {
    var after := Login(outcome, store).1;
    assert GetItem(after, AccessTokenKey) == Some(outcome.envelope.result.value.accessToken);
    assert GetItem(after, RefreshTokenKey) == Some(outcome.envelope.result.value.refreshToken);
  }

  /** After a successful logout no session is found. */
  lemma LogoutThenCheckAuthState(store: Store)
    ensures CheckAuthState(Logout(store, true).1) == RejectedWith(NoValidSession)
  {
    assert !HasToken(Logout(store, true).1, AccessTokenKey);
  }

  /** The slice's state, which the case reducers update in place. */
  class AuthSliceState {
    var user: Option<User>
    var accessToken: Option<string>
    var refreshToken: Option<string>
    var isAuthenticated: bool
    var isLoading: bool
    var error: Option<string>

    function State(): AuthState
      reads this
    {
      AuthState(user, accessToken, refreshToken, isAuthenticated, isLoading, error)
    }

    constructor ()
      ensures State() == InitialState
    {
      user, accessToken, refreshToken := None, None, None;
      isAuthenticated, isLoading, error := false, false, None;
    }

    /** Replaces the whole state, as a case reducer that returns a value does. */
    method Assign(s: AuthState)
      modifies this
      ensures State() == s
    {
      user, accessToken, refreshToken := s.user, s.accessToken, s.refreshToken;
      isAuthenticated, isLoading, error := s.isAuthenticated, s.isLoading, s.error;
    }

    /** `resetError` (lines 101-103). */
    method ResetError()
      modifies this`error
      ensures State() == old(State()).(error := None)
      ensures old(SessionConsistent(State())) ==> SessionConsistent(State())
    {
      error := None;
    }

    /** `login.pending` (lines 108-111). */
    method LoginPending()
      modifies this`isLoading, this`error
      ensures State() == old(State()).(isLoading := true, error := None)
      ensures old(SessionConsistent(State())) ==> SessionConsistent(State())
    {
      isLoading := true;
      error := None;
    }

    /**
     * `login.fulfilled` as written (lines 112-118): the user and the tokens
     * are read from the envelope's top level, where there are none.
     */
    method LoginFulfilled(payload: AppResponse<AuthResponse>)
      modifies this
      ensures State() == old(State()).(isLoading := false, isAuthenticated := true,
                                       user := None, accessToken := None, refreshToken := None)
    {
      isLoading := false;
      isAuthenticated := true;
      user := None;          // payload.user is undefined
      accessToken := None;   // payload.accessToken is undefined
      refreshToken := None;  // payload.refreshToken is undefined
    }

    /** The intended `login.fulfilled`: the profile and tokens come from the envelope's `result`. */
    method LoginFulfilledFromResult(payload: AppResponse<AuthResponse>)
      requires payload.result.Some?
      modifies this
      ensures State() == old(State()).(isLoading := false, isAuthenticated := true,
                                       user := Some(payload.result.value.user),
                                       accessToken := Some(payload.result.value.accessToken),
                                       refreshToken := Some(payload.result.value.refreshToken))
      ensures SessionConsistent(State())
    {
      isLoading := false;
      isAuthenticated := true;
      user := Some(payload.result.value.user);
      accessToken := Some(payload.result.value.accessToken);
      refreshToken := Some(payload.result.value.refreshToken);
    }

    /** `login.rejected` (lines 119-122): authentication and tokens are unchanged. */
    method LoginRejected(reason: string)
      modifies this`isLoading, this`error
      ensures State() == old(State()).(isLoading := false, error := Some(reason))
      ensures old(SessionConsistent(State())) ==> SessionConsistent(State())
    {
      isLoading := false;
      error := Some(reason);
    }

    /** `register.pending` (lines 124-127). */
    method RegisterPending()
      modifies this`isLoading, this`error
      ensures State() == old(State()).(isLoading := true, error := None)
      ensures old(SessionConsistent(State())) ==> SessionConsistent(State())
    {
      isLoading := true;
      error := None;
    }

    /** `register.fulfilled` (lines 128-130): registering never authenticates. */
    method RegisterFulfilled(payload: AppResponse<AuthResponse>)
      modifies this`isLoading
      ensures State() == old(State()).(isLoading := false)
      ensures old(SessionConsistent(State())) ==> SessionConsistent(State())
    {
      isLoading := false;
    }

    /** `register.rejected` (lines 131-134). */
    method RegisterRejected(reason: string)
      modifies this`isLoading, this`error
      ensures State() == old(State()).(isLoading := false, error := Some(reason))
      ensures old(SessionConsistent(State())) ==> SessionConsistent(State())
    {
      isLoading := false;
      error := Some(reason);
    }

    /** `logout.fulfilled` (lines 136-138): back to the initial state. */
    method LogoutFulfilled(payload: bool)
      modifies this
      ensures State() == InitialState && SessionConsistent(State())
    {
      Assign(InitialState);
    }

    /** `checkAuthState.fulfilled` (lines 140-144): user, loading and error are untouched. */
    method CheckAuthStateFulfilled(payload: SessionTokens)
      modifies this`isAuthenticated, this`accessToken, this`refreshToken
      ensures State() == old(State()).(isAuthenticated := true,
                                       accessToken := Some(payload.accessToken),
                                       refreshToken := Some(payload.refreshToken))
      ensures SessionConsistent(State())
    {
      isAuthenticated := true;
      accessToken := Some(payload.accessToken);
      refreshToken := Some(payload.refreshToken);
    }

    /** `checkAuthState.rejected` (lines 145-147): back to the initial state. */
    method CheckAuthStateRejected(reason: string)
      modifies this
      ensures State() == InitialState && SessionConsistent(State())
    {
      Assign(InitialState);
    }
  }

  /**
   * A successful login as written leaves the slice authenticated but with
   * no tokens and no user, even though the tokens were stored.
   */
  method LoginLosesSession(user: User, access: string, refresh: string, store: Store)
    returns (state: AuthState, stored: Store)
    ensures state.isAuthenticated && state.accessToken.None? && state.user.None?
    ensures !SessionConsistent(state)
    ensures stored == SetTokens(store, access, refresh)
  {
    var slice := new AuthSliceState();
    var envelope := AppResponse(true, Some(AuthResponse(user, access, refresh)), None);
    slice.LoginPending();
    var r := Login(Returned(envelope), store);
    slice.LoginFulfilled(r.0.payload);
    state, stored := slice.State(), r.1;
  }

  /** With the intended reducer the same login yields a consistent session holding the stored tokens. */
  method LoginKeepsSession(user: User, access: string, refresh: string, store: Store)
    returns (state: AuthState, stored: Store)
    ensures state.isAuthenticated && SessionConsistent(state) && state.user == Some(user)
    ensures state.accessToken == Some(access) && state.refreshToken == Some(refresh)
    ensures stored == SetTokens(store, access, refresh)
  {
    var slice := new AuthSliceState();
    var envelope := AppResponse(true, Some(AuthResponse(user, access, refresh)), None);
    slice.LoginPending();
    var r := Login(Returned(envelope), store);
    slice.LoginFulfilledFromResult(r.0.payload);
    state, stored := slice.State(), r.1;
  }
}
