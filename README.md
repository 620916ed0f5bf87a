# nexoworld client core in Dafny

A model of the sequential logic of the nexoworld mobile game client, with proofs about it. The model covers eight parts.

- **Shared HTTP client.** It attaches the stored access token to every request. A 401 on a request not yet marked `_retry` triggers one token refresh. A further unmarked 401 while that refresh runs waits in a FIFO queue and is settled when it ends. Any other error, and a 401 on a request already marked, is rejected at once.
- **WebSocket session.** One nullable socket.io client, plus a registry from event names to sets of callbacks. The registry is rebound onto every new socket. An `isRefreshing` guard surrounds the refresh that an `auth_error` starts.
- **`useSocket` hook.** Fixed event names over that session: subscribe and unsubscribe closures, and four emitters.
- **Redux state.** The authentication slice and the coins slice (async thunks and in-place case reducers), and the legacy `authReducer`.
- **Form screens.** The validators and submit handlers of the register, login and forgot-password screens.
- **Global token interceptor.**
- **Map marker.** Size and icon resolution.
- **Tab bar.** Route mapping and navigation guard.

## How the model is built

- **Module-level and per-object state** becomes classes whose methods change their fields:
  - for the HTTP pipeline, `AxiosService.Pipeline`;
  - for the socket session, `SocketService.SocketService`, plus the client it drives, `SocketService.Socket`;
  - for the slices, `AuthSlice.AuthSliceState` and `CoinsSlice.CoinsSliceState`;
  - axios request configs (which interceptors mutate), `Http.RequestConfig`.
- **Asynchronous code** becomes run-to-completion steps.
  - These awaits end a step: the `getItem('refreshToken')` and the POST to /auth/refresh in `refreshAccessToken`, and the refresh that the socket's `auth_error` handler awaits.
  - These awaits are folded into the step around them: the access token read in `connect` (services/socket.service.ts:15), taken with opening the socket; the request interceptor's token read (services/axios.service.ts:32), taken with the dispatch; and the `multiSet` of the new token pair (services/axios.service.ts:106-109), taken with the resends.
  - What a suspended handler has in its closure becomes a field: which request started the refresh, and how far `refreshAccessToken` got.
  - What the transport and callers observe is added to an `effects` log.
- **AsyncStorage** is a `map<string, string>`.
- **The server's answers** and the auth service's outcome are method or function parameters.
- **Pure decisions are functions:** validators, thunks, `authReducer`, the marker's size and icon, and the tab route mapping.
- **JavaScript semantics are written out:**
  - truthiness of `string | null`;
  - `a || b`;
  - `trim` with the ECMAScript whitespace set;
  - `.length` in UTF-16 code units.
- **Each of the three bugs under "## Findings"** has two members: one modelling the code as it is written, and a corrected member beside it. The corrected member carries the intended property.

## Model

| member | source | states |
|---|---|---|
| JsStrings.OrElse | redux/slices/authSlice.ts:40 | `a \|\| fallback`: the value when it is non-null and non-empty, the fallback otherwise |
| JsStrings.Trim | app/auth/register.tsx:180-183 | the result is the contiguous piece of the input that starts after its leading whitespace; everything dropped after it is whitespace, and the result has no whitespace at either end |
| JsStrings.TrimKeepsUnpadded | app/auth/register.tsx:180-183 | a string that already starts and ends with a non-whitespace character is returned unchanged by trimming |
| JsStrings.TrimKeepsWhitespaceFree | app/auth/register.tsx:182-183 | trimming a string that contains no whitespace returns it unchanged |
| JsStrings.Utf16Length | app/auth/register.tsx:125 | `.length` counts between one and two units per character |
| Storage.GetItem | services/axios.service.ts:32 | `getItem` finds a value exactly for a stored key: that key's value, otherwise null |
| Storage.SetTokens | redux/slices/authSlice.ts:33-36 | `multiSet` of the token pair stores both tokens; every other key keeps its value |
| Storage.RemoveTokens | redux/slices/authSlice.ts:64 | `multiRemove` drops both token keys, leaves no token behind and keeps every other key |
| Http.StatusOf | services/axios.service.ts:51 | `error.response?.status`: the status of an axios error, and none for an error thrown by the client's own code |
| Http.WithBearer | interceptors/token.interceptor.ts:9-14 | with a non-empty stored access token, `Authorization` becomes `Bearer <token>`; otherwise the headers are unchanged; no other header is touched |
| Http.WithBearerIdempotent | interceptors/token.interceptor.ts:12-14 | applying the interceptor twice against the same storage is applying it once |
| Http.BearerSurvivesInterceptor | services/axios.service.ts:74-76 | a retried initiator carrying `Bearer <new token>` still carries it after the interceptor runs against the refreshed storage, even for an empty token |
| TokenInterceptor.OnRequest | interceptors/token.interceptor.ts:4-17 | the same config object is returned; only its headers change, and they change by the Bearer rule |
| TokenInterceptor.OnRequestError | interceptors/token.interceptor.ts:18-20 | an error raised while setting up a request is passed on unchanged as a rejection |
| AxiosService.Classify | services/axios.service.ts:51-53 | a refresh starts exactly on an unretried 401 while none runs; the request is queued exactly on an unretried 401 while one runs; everything else is passed through |
| AxiosService.SettleOne | services/axios.service.ts:20-24 | a waiter is rejected with the error when there is one and resolved otherwise; the settlement names that waiter |
| AxiosService.Settle | services/axios.service.ts:18-27 | there is one settlement per waiter, in queue order, each with the same outcome: rejection with the error, or resolution |
| AxiosService.RefreshResult | services/axios.service.ts:101-111 | the refresh resolves exactly on a success envelope that has a result, and then with that result; an unsuccessful envelope throws its message |
| AxiosService.Pipeline.constructor | services/axios.service.ts:15-16 | not refreshing, empty queue, nothing in flight |
| AxiosService.Pipeline.OnRequest | services/axios.service.ts:30-41 | the instance's request interceptor follows the same Bearer rule as the global one |
| AxiosService.Pipeline.Send | services/axios.service.ts:30-36 | a request is sent with the Bearer header applied; it goes in flight and the request object is logged as handed to the transport |
| AxiosService.Pipeline.Request | services/axios.service.ts:30-36 | a caller's new request changes neither the refresh state nor the queue, and keeps the pipeline's invariant |
| AxiosService.Pipeline.OnResponse | services/axios.service.ts:45 | a success reply reaches its caller unchanged; the refresh state is untouched |
| AxiosService.Pipeline.ProcessQueue | services/axios.service.ts:18-27 | every waiter is settled in insertion order with the same outcome, and the queue is left empty |
| AxiosService.Pipeline.FailRefresh | services/axios.service.ts:77-82 | every waiter, then the initiator, is rejected with the refresh error; the flag is cleared and the refresh counts as settled |
| AxiosService.Pipeline.SucceedRefresh | services/axios.service.ts:72-82 | the waiters are resolved, the initiator is resent once with `Bearer <new token>`, the flag drops, then each waiter is resent in order; only headers change, so the initiator keeps its `_retry` mark and the waiters stay unmarked |
| AxiosService.Pipeline.RetryInitiator | services/axios.service.ts:74-76 | the initiator's `Authorization` is set to the new Bearer and it is resent once, keeping its `_retry` mark; the flag is cleared |
| AxiosService.Pipeline.ResendWaiters | services/axios.service.ts:57-59 | each resolved waiter is resent through the interceptor, in queue order; its `_retry` value is kept, so a waiter stays unmarked |
| AxiosService.Pipeline.OnResponseError | services/axios.service.ts:46-86 | an unretried 401 with no refresh running sets `_retry` and the flag and starts exactly one refresh; an unretried 401 during a refresh only enqueues; any other error is rejected unchanged and triggers no refresh; single flight is kept |
| AxiosService.Pipeline.BeginRefreshCall | services/axios.service.ts:89-99 | with no stored refresh token, the refresh fails with "No refresh token" and nothing is sent; otherwise it posts that token to /auth/refresh through the same instance |
| AxiosService.Pipeline.OnRefreshTokenRead | services/axios.service.ts:91-99 | as written: the refresh call goes through the intercepted instance without a `_retry` mark |
| AxiosService.Pipeline.OnRefreshTokenReadMarked | services/axios.service.ts:96-99 | corrected: the refresh call carries the `_retry` mark |
| AxiosService.Pipeline.OnRefreshReply | services/axios.service.ts:101-111 | the new pair is stored only on a success envelope, and then everyone is resent with it: the initiator's headers are its old ones with `Bearer <new token>` under the interceptor, each waiter's are its old ones under the interceptor; otherwise storage is unchanged, the initiator and the waiters are left exactly as they were, and everyone fails with the thrown error; `_retry` marks are kept and the flag is false afterwards either way |
| AxiosService.ConcurrentUnauthorized | services/axios.service.ts:51-66 | N concurrent unretried 401s start exactly one refresh: the first request is its initiator and the rest wait in arrival order |
| AxiosService.StalledIsStuck | services/axios.service.ts:53-63 | once the refresh call waits behind itself, the refresh can neither read its token again nor receive a reply, and the flag stays set |
| AxiosService.RefreshCallUnauthorized | services/axios.service.ts:96-99 | as written, a 401 on the refresh call queues it behind its own refresh: stalled, with `isRefreshing` stuck true |
| AxiosService.RefreshCallUnauthorizedMarked | services/axios.service.ts:51-63 | with the refresh call marked, the same 401 fails the refresh: the initiator is rejected and the flag is cleared |
| AxiosService.RetriedOnce | services/axios.service.ts:51-82 | a request whose 401 started a refresh that succeeded is resent still marked `_retry`; a second 401 on it is rejected at once and no second refresh starts |
| AxiosService.UnmarkedCallStalls | services/axios.service.ts:53-63 | as written, for every store and every queue of waiters, a 401 on the unmarked refresh call queues it behind its own refresh, which is then stalled with the flag set |
| AxiosService.MarkedCallFailsRefresh | services/axios.service.ts:77-82 | corrected, for every store and every queue of waiters, a 401 on the marked refresh call passes through: every waiter and then the initiator fail with it, the flag clears, and the refresh never stalls |
| SocketService.WithListener | services/socket.service.ts:92-97 | an event seen for the first time gets an entry; the callback joins that event's set; other events are untouched |
| SocketService.WithoutListener | services/socket.service.ts:99-101 | only that callback leaves only that event's set; an unknown event is a no-op; an emptied entry stays |
| SocketService.AddListenerIdempotent | services/socket.service.ts:92-97 | adding the same callback twice leaves one entry |
| SocketService.RemoveListenerIdempotent | services/socket.service.ts:99-101 | removing twice is removing once |
| SocketService.AddThenRemoveRestores | services/socket.service.ts:92-101 | adding a new callback and then removing it restores every event's callbacks |
| SocketService.Receivers | services/socket.service.ts:56-60 | an incoming event reaches exactly the callbacks of its own forwarders |
| SocketService.BoundSocketDelivers | services/socket.service.ts:56-60 | on a freshly bound socket, an event reaches exactly the callbacks registered for it, each of them once |
| SocketService.AuthErrorStep | services/socket.service.ts:49-54 | as written, an error other than 401 changes nothing; a 401 while refreshing clears the flag and settles nothing; a 401 otherwise sets the flag and starts one refresh |
| SocketService.AuthErrorStepGuarded | services/socket.service.ts:49-54 | corrected, a 401 starts a refresh only when none runs, and the flag never drops on an auth error |
| SocketService.RefreshSettledStep | services/socket.service.ts:73-77 | a refresh that settles, either way, clears the flag and leaves one fewer running; with none running nothing changes |
| SocketService.AuthErrorsOverlap | services/socket.service.ts:63-77 | as written, three 401 `auth_error`s in a row leave two refreshes running with the flag set |
| SocketService.GuardedKeepsSingleFlight | services/socket.service.ts:63-67 | with the early return outside `try`, every sequence of auth errors and settlements keeps at most one refresh running, exactly while the flag is set |
| SocketService.SocketService.constructor | services/socket.service.ts:7-10 | no socket, an empty registry, not refreshing |
| SocketService.ConnectOptions | services/socket.service.ts:18-29 | the socket is opened on `/socket.io` over websocket only, with `Bearer <token>` as auth, reconnection on, five attempts, 1000 ms apart |
| SocketService.SocketService.Connect | services/socket.service.ts:12-32 | when the socket is connected, or when no access token is stored, nothing changes; otherwise there is a new socket with the Bearer auth and the fixed options, and the whole registry is bound on it; the old socket is not closed |
| SocketService.SocketService.SetupListeners | services/socket.service.ts:34-61 | the four built-in handlers are appended, then exactly one forwarder per registered (event, callback) pair; the socket's connection and sent messages are untouched |
| SocketService.SocketService.Disconnect | services/socket.service.ts:80-85 | an existing socket is closed and forgotten; without one, nothing happens |
| SocketService.SocketService.Emit | services/socket.service.ts:87-90 | a message is sent only on a connected socket; otherwise it is dropped and nothing changes |
| SocketService.SocketService.AddListener | services/socket.service.ts:92-97 | the registry becomes `WithListener`; the live socket is not touched |
| SocketService.SocketService.RemoveListener | services/socket.service.ts:99-101 | the registry becomes `WithoutListener`; forwarders already bound stay bound |
| SocketService.SocketService.NotifyListeners | services/socket.service.ts:103-105 | every callback registered for the event is called, with the data, and no other |
| SocketService.SocketService.OnAuthError | services/socket.service.ts:49-67 | as written: a refresh starts exactly on code 401 with the flag clear; a 401 while refreshing clears the flag |
| SocketService.SocketService.OnAuthErrorGuarded | services/socket.service.ts:63-67 | corrected: a 401 while refreshing leaves the flag alone |
| SocketService.SocketService.OnRefreshSettled | services/socket.service.ts:68-77 | after a success `connect` runs again: a socket that is still connected is kept and nothing reconnects, no stored token leaves it as it is, and otherwise a new socket opens with the stored token; the flag is cleared on both outcomes; the registry is kept |
| SocketService.Reconnect | services/socket.service.ts:31 | after a disconnect, the next connect binds every registered callback on the new socket: the registry survives reconnects |
| UseSocket.Subscribe | hooks/useSocket.ts:8-14 | the callback is registered under the event, and the returned closure captures that same event and callback |
| UseSocket.RunUnsubscribe | hooks/useSocket.ts:11 | the closure removes its own callback from its own event |
| UseSocket.OnCoinsUpdate | hooks/useSocket.ts:8-14 | subscribes under "nearbyCoins" |
| UseSocket.OnCaughtCoinsUpdate | hooks/useSocket.ts:16-22 | subscribes under "caughtCoins" |
| UseSocket.GetOwnedCoins | hooks/useSocket.ts:24-26 | emits "getOwnedCoins" with `{}` |
| UseSocket.OnOwnedCoinsUpdate | hooks/useSocket.ts:28-36 | subscribes under "ownedCoins" |
| UseSocket.UpdateLocation | hooks/useSocket.ts:38-43 | emits "getNearbyCoins" carrying only the latitude and longitude; the deltas are dropped |
| UseSocket.CatchCoin | hooks/useSocket.ts:45-47 | emits "catchCoin" with the bare id as payload |
| UseSocket.OnCoinCaught | hooks/useSocket.ts:49-55 | subscribes under "coinCaught" |
| UseSocket.OnRemoveNearbyCoin | hooks/useSocket.ts:57-63 | subscribes under "removeNearbyCoin" |
| UseSocket.OnMessageRecieve | hooks/useSocket.ts:65-71 | subscribes under "message" |
| UseSocket.OnUpdateScore | hooks/useSocket.ts:73-76 | subscribes under "scoreUpdated" |
| UseSocket.SendMessage | hooks/useSocket.ts:78-80 | emits on "message", the event `onMessageRecieve` listens on |
| UseSocket.SubscribeThenUnsubscribe | hooks/useSocket.ts:10-11 | subscribing a new callback and running its closure leaves every event's callbacks as they were |
| AuthSlice.Login | redux/slices/authSlice.ts:25-43 | the service resolves only with a success envelope; the thunk fulfils exactly when that envelope has a result; then the envelope is the payload and the two tokens are stored; otherwise storage is unchanged and the reason is the server message or "Login failed" |
| AuthSlice.Register | redux/slices/authSlice.ts:45-57 | the service resolves only with a success envelope; the thunk fulfils exactly when the service resolved, with the envelope as payload; otherwise the reason is the server message or "Registration failed" |
| AuthSlice.Logout | redux/slices/authSlice.ts:59-70 | fulfils with `true` and removes both tokens, or rejects with "Logout failed" and leaves storage alone |
| AuthSlice.CheckAuthState | redux/slices/authSlice.ts:72-95 | fulfils exactly when both stored tokens are non-empty, with exactly those two; otherwise rejects with "No valid session found" |
| AuthSlice.LoginThenCheckAuthState | redux/slices/authSlice.ts:33-36 | the next session check finds the two non-empty tokens that a login stored |
| AuthSlice.LogoutThenCheckAuthState | redux/slices/authSlice.ts:64 | after a logout, no session is found |
| AuthSlice.AuthSliceState.constructor | redux/slices/authSlice.ts:16-23 | the initial state |
| AuthSlice.AuthSliceState.ResetError | redux/slices/authSlice.ts:101-103 | `error` is cleared and nothing else changes |
| AuthSlice.AuthSliceState.LoginPending | redux/slices/authSlice.ts:108-111 | loading is set and `error` is cleared; nothing else changes |
| AuthSlice.AuthSliceState.LoginFulfilled | redux/slices/authSlice.ts:112-118 | as written: not loading, authenticated, with user and tokens read from the payload's top level, where they are absent |
| AuthSlice.AuthSliceState.LoginFulfilledFromResult | redux/slices/authSlice.ts:112-118 | corrected: the user and tokens come from the envelope's result, so the session is consistent |
| AuthSlice.AuthSliceState.LoginRejected | redux/slices/authSlice.ts:119-122 | not loading, with the reason as the error; authentication and tokens unchanged |
| AuthSlice.AuthSliceState.RegisterPending | redux/slices/authSlice.ts:124-127 | loading is set and `error` is cleared; nothing else changes |
| AuthSlice.AuthSliceState.RegisterFulfilled | redux/slices/authSlice.ts:128-130 | only loading is cleared; registering never authenticates |
| AuthSlice.AuthSliceState.RegisterRejected | redux/slices/authSlice.ts:131-134 | not loading, with the reason as the error; authentication and tokens unchanged |
| AuthSlice.AuthSliceState.LogoutFulfilled | redux/slices/authSlice.ts:136-138 | the whole state returns to the initial state |
| AuthSlice.AuthSliceState.CheckAuthStateFulfilled | redux/slices/authSlice.ts:140-144 | authenticated with both tokens; user, loading and error are unchanged |
| AuthSlice.AuthSliceState.CheckAuthStateRejected | redux/slices/authSlice.ts:145-147 | the whole state returns to the initial state |
| AuthSlice.LoginLosesSession | redux/slices/authSlice.ts:112-118 | as written, a successful login leaves the slice authenticated with no tokens and no user, although storage holds the tokens |
| AuthSlice.LoginKeepsSession | redux/slices/authSlice.ts:30-38 | with the corrected reducer, the same login leaves a consistent session holding the user and the stored tokens |
| CoinsSlice.GetOwnedCoins | redux/slices/coinsSlice.ts:18-31 | fulfils exactly with the reply's body; otherwise rejects with the server message, or with the literal "Login failed" |
| CoinsSlice.CoinsSliceState.constructor | redux/slices/coinsSlice.ts:12-16 | no owned coins, not loading, no error |
| CoinsSlice.CoinsSliceState.ResetError | redux/slices/coinsSlice.ts:37-39 | only `error` is cleared |
| CoinsSlice.CoinsSliceState.Pending | redux/slices/coinsSlice.ts:44-47 | loading is set and `error` is cleared |
| CoinsSlice.CoinsSliceState.Fulfilled | redux/slices/coinsSlice.ts:48-51 | `ownedCoins` is replaced wholesale and loading is cleared; `error` is untouched |
| CoinsSlice.CoinsSliceState.Rejected | redux/slices/coinsSlice.ts:52-55 | loading is cleared and the error is stored; `ownedCoins` is kept |
| CoinsSlice.CoinsSliceState.Fetch | redux/slices/coinsSlice.ts:42-55 | after a fetch: not loading; the coins are the reply's or the old ones; the error is cleared or is the rejection message |
| CoinsSlice.FetchOnce | redux/slices/coinsSlice.ts:12-55 | a fresh slice after a reply holds exactly its coins and no error; after a failure, no coins and the rejection message |
| AuthReducer.Reduce | redux/reducers/auth.reducer.ts:5-14 | an undefined state yields the initial state; LOGIN sets `isLogged` and LOGOUT clears it, both keeping the other fields; any other action returns the state unchanged |
| AuthReducer.ReduceIdempotent | redux/reducers/auth.reducer.ts:7-10 | LOGIN twice is LOGIN once; so is LOGOUT |
| AuthReducer.ReplayTracksLastAuthAction | redux/reducers/auth.reducer.ts:5-14 | after any action sequence, `isLogged` holds exactly when the last LOGIN or LOGOUT was LOGIN; other fields never change |
| Validation.UsernamePattern | app/auth/register.tsx:97 | `/^[a-zA-Z0-9._-]+$/`: a non-empty string of ASCII letters, digits, '.', '_' and '-' (a predicate; CheckUsername's contract states it) |
| Validation.LoginUsernamePattern | app/auth/login.tsx:51 | `/^[a-zA-Z0-9._@-]+$/`: the registration class plus '@' (a predicate; CheckLoginUsername's contract states it) |
| Validation.EmailPattern | app/auth/register.tsx:80 | the email regex's test, read at the first '@' and the last '.' (a predicate; EmailPatternIsShape proves it equal to the regex's shape) |
| Validation.EmailPatternIsShape | app/auth/register.tsx:80-87 | the first-'@' / last-'.' test accepts exactly the strings the email regex describes |
| Validation.EmailHasOneAt | app/auth/register.tsx:80 | an accepted email has exactly one '@' |
| Validation.EmailPatternTrimmed | app/auth/register.tsx:80 | an accepted email contains no whitespace, so trimming leaves it as it is |
| Validation.UsernameAcceptedAtLogin | app/auth/login.tsx:51 | every username the registration pattern accepts, the login pattern accepts too |
| Validation.LoginUsernameTrimmed | app/auth/login.tsx:51 | an accepted login username is not changed by trimming |
| Validation.CheckRequired | app/auth/register.tsx:59-67 | a required value fails exactly when it is empty, with the given message; otherwise its error is cleared |
| Validation.CheckEmail | app/auth/register.tsx:79-94 | "" gives "Email is required" and never "Invalid email"; a non-empty value passes exactly when it has the email shape, and otherwise gives "Invalid email" |
| Validation.CheckUsername | app/auth/register.tsx:96-114 | passes exactly on non-empty strings over `[a-zA-Z0-9._-]`; the two failure messages are "Username is required" and "Invalid username" |
| Validation.CheckLoginUsername | app/auth/login.tsx:50-68 | passes exactly on non-empty strings over `[a-zA-Z0-9._@-]`, with the same messages |
| Validation.AtSignOnlyAtLogin | app/auth/login.tsx:51 | '@' separates the two rules: "a@b" is accepted at login and refused at registration |
| Validation.CheckPassword | app/auth/register.tsx:116-135 | "" gives "Password is required"; fewer than six UTF-16 units gives the length message; the check passes exactly at six or more |
| RegisterScreen.ValidateName | app/auth/register.tsx:59-67 | fails with "Name is required" exactly on "", otherwise clears `nameError`; no other field changes |
| RegisterScreen.ValidateGender | app/auth/register.tsx:69-77 | fails with "Gender is required" exactly on "", otherwise clears `genderError`; no other field changes |
| RegisterScreen.ValidateEmail | app/auth/register.tsx:79-94 | "" is "required"; a non-empty value passes exactly on the email shape; only `emailError` changes |
| RegisterScreen.ValidateUsername | app/auth/register.tsx:96-114 | passes exactly on non-empty strings over `[a-zA-Z0-9._-]`; only `usernameError` changes |
| RegisterScreen.ValidatePassword | app/auth/register.tsx:116-135 | passes exactly at six or more UTF-16 units; only `passwordError` changes |
| RegisterScreen.HandleGenderSelect | app/auth/register.tsx:141-147 | the choice is stored and its error cleared; nothing else changes |
| RegisterScreen.SelectedGenderValidates | app/auth/register.tsx:141-147 | after a non-empty selection, the gender validator passes and changes nothing |
| RegisterScreen.RunValidators | app/auth/register.tsx:163-177 | all five validators run, so every field gets its own error; the form passes exactly when all five pass |
| RegisterScreen.HandleRegister | app/auth/register.tsx:161-197 | only a fully valid form is submitted; name, email and username are trimmed, which is the identity for a valid email and username; password and gender are kept; the login route is shown only after success; the password is cleared on every path |
| RegisterScreen.BlankNameSubmittedEmpty | app/auth/register.tsx:179-185 | the name check accepts " ", which trimming then submits as "" |
| LoginScreen.ValidateUsername | app/auth/login.tsx:50-68 | passes exactly on non-empty strings over `[a-zA-Z0-9._@-]`; "" gives "Username is required"; only `usernameError` changes |
| LoginScreen.ValidatePassword | app/auth/login.tsx:70-89 | the registration rule, with the same messages |
| LoginScreen.RegisteredUsernameLogsIn | app/auth/login.tsx:51 | every username accepted at registration passes the login validator |
| LoginScreen.HandleLogin | app/auth/login.tsx:99-124 | both validators run before the check; only a valid form is submitted, with the username trimmed (equal to the typed one) and the password as typed; home is shown only after login; the password is cleared on every path |
| ForgotPasswordScreen.ValidateEmail | app/auth/forgot-password.tsx:45-60 | "" gives "Email is required"; a non-empty value that fails the pattern gives "Invalid email"; on success the error is cleared and the check passes |
| ForgotPasswordScreen.AgreesWithRegistration | app/auth/forgot-password.tsx:46 | this screen and registration give the same verdict and the same message on every input |
| ForgotPasswordScreen.HandleSubmit | app/auth/forgot-password.tsx:66-84 | an invalid email stops the handler; a valid one only yields the trimmed email, which is the email itself; nothing is sent |
| NexoMarker.SizeOf | components/NexoMarker.tsx:17-22 | `NEXO_SIZES`: every size lies between COMMON's 32 and 40, and only COMMON has 32 |
| NexoMarker.IconOf | components/NexoMarker.tsx:10-15 | `NEXO_ICONS`: each rarity has its own icon |
| NexoMarker.RarityOf | components/NexoMarker.tsx:10-22 | exactly the four table keys select a rarity |
| NexoMarker.SizesIncreaseWithRarity | components/NexoMarker.tsx:17-22 | table sizes strictly increase from COMMON to LEGENDARY, all between 32 and 40 |
| NexoMarker.ResolveSize | components/NexoMarker.tsx:24-25 | a non-zero explicit size is used as-is; a size of 0 (the default) uses the type's table size; an unknown type falls back to 32 |
| NexoMarker.ResolveIcon | components/NexoMarker.tsx:29 | the type's icon, or COMMON's icon for an unknown type |
| NexoMarker.Render | components/NexoMarker.tsx:24-37 | the image is square, with the resolved size and icon |
| NexoMarker.UnknownTypeRendersAsCommon | components/NexoMarker.tsx:25-29 | a coin of unknown type renders exactly like a COMMON coin |
| CustomTabBar.GetRouteName | components/CustomTabBar.tsx:21-32 | "explore" and "profile" map to their paths; every other name, "index" included, maps to "/"; the result always lies in `TabRoute` |
| CustomTabBar.RouteNamesRoundTrip | components/CustomTabBar.tsx:11-32 | each tab path is reached from its own name, and the three paths are reached from three different names |
| CustomTabBar.OnPress | components/CustomTabBar.tsx:45-56 | the press event targets the route's key; a push happens exactly when the tab is unfocused and the event was not default-prevented, and it goes to the mapped route |
| CustomTabBar.TabIcons | components/CustomTabBar.tsx:41-68 | the props each route's `tabBarIcon` would receive, one entry per route in order (the icon is optional and may render nothing); tab i is focused exactly when `state.index == i`; the selected colour shows exactly on the focused tab; the size is 24 |
| CustomTabBar.ExactlyOneSelected | components/CustomTabBar.tsx:43-66 | with the index in range, exactly one tab is focused, and only its icon gets the selected colour |
| CustomTabBar.FocusedPressStays | components/CustomTabBar.tsx:52-55 | pressing the focused tab never navigates |

## Left out

- **Timing and transport.** Real asynchronous interleaving, timeouts and the network are left out. Each handler step runs to completion, and the server's answers are parameters.
- **socket.io itself.** Its reconnection attempts and delay are recorded only as connect options.
- **Iteration order.** The order of the Map and Set iteration in `setupListeners` and `notifyListeners` is not modelled, because the registry is a map of sets.
- SocketService.SocketService.NotifyListeners: states the calls as a set, so the order of the calls is not stated. `notifyListeners` is never called in the source.
- SocketService.SocketService.SetupListeners: binds the forwarders in an unspecified order. It does not follow insertion order.
- **The refresh thunk.** The `refreshToken` thunk dispatched by `refreshTokenAndReconnect` (services/socket.service.ts:5,69) is not part of this model, because redux/slices/authSlice.ts does not define it. The socket's refresh is an abstract success or failure outcome.
- **Storage failures.** Storage is read and written as a map, so these failing calls are not modelled:
  - `multiSet` in `login` and in `refreshAccessToken`;
  - `getItem` in the request interceptor (services/axios.service.ts:32) and in `refreshAccessToken` (line 91);
  - `getItem` in `connect` (services/socket.service.ts:15);
  - `multiGet` in `checkAuthState` (redux/slices/authSlice.ts:76).

  A failing `multiRemove` in `logout` is modelled.
- AuthSlice.CheckAuthState: the iff on both stored tokens holds only for a `multiGet` that resolves. A failing read also rejects with "No valid session found".
- **Overlapping `connect` calls.** These are not modelled, because Connect is one atomic step. app/_layout.tsx does not await its call, and a refresh calls `connect` again. Two calls can both pass the `connected` check before either assigns the socket. The program then holds two sockets, each bound to every registered callback.
- **Replaced sockets.** `connect` does not close the socket it replaces, and socket.io may reconnect that old socket. An event can then be delivered once by each socket. BoundSocketDelivers speaks of one socket only.
- **Timestamps.** The `createdAt` and `updatedAt` dates of coins and users are left out. Coordinates are reals.
- NexoMarker.ResolveSize: `size` is an integer, so a NaN size (also falsy) is not modelled. Prototype keys such as "constructor" as a coin type, which JavaScript would find on the tables, are treated as unknown types.
- **Rendering.** Layout, styles, animation, the blur view, `accessibilityState` and alerts are left out.
- **The auth service.** Its POSTs are not part of this model. Its outcome is a parameter of the thunks.
- **Other files.** hooks/useAuth.ts, redux/store.ts and the other screens and components are not part of this model.
- **Console logging.** It is left out everywhere.
- **Callback behaviour.** Callbacks are compared by identity and carry no behaviour of their own.

## Findings

All three findings come from reading the code. The faithful members stay in the model, and the corrected members sit beside them.

| source | as written | input that shows it | evidently intended | confidence | as-written member | corrected member |
|---|---|---|---|---|---|---|
| services/socket.service.ts:63-77 | the early `return` while refreshing sits inside `try`, so its `finally` clears `isRefreshing` while the first refresh still runs | three `auth_error`s with code 401 in a row: the second clears the flag, the third starts a second refresh | a refresh in progress keeps the flag set until it settles, so that at most one runs | not executed | SocketService.AuthErrorsOverlap | SocketService.GuardedKeepsSingleFlight |
| services/axios.service.ts:96 | the refresh POST goes through the same instance, unmarked, so a 401 on it (its stale Bearer header is expired) is queued behind the refresh it belongs to | a request gets 401, a refresh token is stored, and /auth/refresh answers 401: `isRefreshing` stays true forever and every later 401 waits forever | a 401 on the refresh call fails the refresh | not executed | AxiosService.UnmarkedCallStalls | AxiosService.MarkedCallFailsRefresh |
| redux/slices/authSlice.ts:112-118 | `login.fulfilled` reads `user`, `accessToken` and `refreshToken` from the payload's top level, but the thunk returns the whole envelope, whose fields sit under `result` | any successful login: the slice is authenticated with null tokens and a null user | the fields come from `action.payload.result` | not executed | AuthSlice.LoginLosesSession | AuthSlice.LoginKeepsSession |
