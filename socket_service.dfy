/**
 * The WebSocket session (services/socket.service.ts): one nullable
 * socket.io client, a registry from event names to sets of callbacks that
 * is rebound onto every new socket, and an `isRefreshing` guard around the
 * token refresh an `auth_error` triggers.
 *
 * The socket.io client is the Socket class: its connected flag, the
 * handlers bound on it in order, and the messages it sent. A JavaScript
 * function is compared by identity, so a callback is an opaque number.
 */
module SocketService {
  import opened Wrappers
  import opened JsStrings
  import opened Storage
  import opened Http

  /** A listener function, by identity. */
  type Callback = nat

  /** The payloads the client emits. */
  datatype Payload =
    | EmptyObject                                    // `{}`
    | Coordinates(latitude: real, longitude: real)   // `{ latitude, longitude }`
    | Text(text: string)                             // a bare string

  datatype Message = Message(event: string, payload: Payload)

  /** A handler bound on a socket with `socket.on(event, ...)`. */
  datatype Handler =
    | Builtin(event: string)                     // one of the four handlers setupListeners defines itself
    | Forward(event: string, callback: Callback) // `data => callback(data)` for a registered callback

  /** The handlers setupListeners binds first (lines 37-54), in that order. */
  const BuiltinHandlers: seq<Handler> :=
    [Builtin("connect"), Builtin("disconnect"), Builtin("error"), Builtin("auth_error")]

  /** The options passed to `io` (lines 18-29). */
  datatype SocketOptions = SocketOptions(
    path: string,
    transports: seq<string>,
    auth: Option<string>,
    reconnection: bool,
    reconnectionAttempts: nat,
    reconnectionDelay: nat)

  /** The options `connect` opens the socket with (lines 18-29): websocket only, Bearer auth, five retries a second apart. */
  function ConnectOptions(token: string): (o: SocketOptions)
    ensures o.auth == Some(Bearer(token)) && o.transports == ["websocket"] && o.path == "/socket.io"
    ensures o.reconnection && o.reconnectionAttempts == 5 && o.reconnectionDelay == 1000
  {
    SocketOptions("/socket.io", ["websocket"], Some(Bearer(token)), true, 5, 1000)
  }

  predicate Distinct<T(==)>(s: seq<T>) {
    forall i, j :: 0 <= i < j < |s| ==> s[i] != s[j]
  }

  /** The callbacks registered for `event`; an event never seen has none. */
  function CallbacksOf(listeners: map<string, set<Callback>>, event: string): set<Callback> {
    if event in listeners then listeners[event] else {}
  }

  /**
   * `addListener` (lines 92-97): an event seen for the first time gets an
   * empty set, then the callback joins the set; nothing else changes.
   */
  function WithListener(listeners: map<string, set<Callback>>, event: string, callback: Callback): (r: map<string, set<Callback>>)
    ensures r.Keys == listeners.Keys + {event}
    ensures CallbacksOf(r, event) == CallbacksOf(listeners, event) + {callback}
    ensures forall e :: e != event ==> CallbacksOf(r, e) == CallbacksOf(listeners, e)
  {
    listeners[event := CallbacksOf(listeners, event) + {callback}]
  }

  /**
   * `removeListener` (lines 99-101): the callback leaves that event's set;
   * an unknown event is a no-op, and the event's entry stays even if empty.
   */
  function WithoutListener(listeners: map<string, set<Callback>>, event: string, callback: Callback): (r: map<string, set<Callback>>)
    ensures r.Keys == listeners.Keys
    ensures event !in listeners ==> r == listeners
    ensures CallbacksOf(r, event) == CallbacksOf(listeners, event) - {callback}
    ensures forall e :: e != event ==> CallbacksOf(r, e) == CallbacksOf(listeners, e)
  {
    if event in listeners then listeners[event := listeners[event] - {callback}] else listeners
  }

  /** Registering an already registered callback again changes nothing: the registry has set semantics. */
  lemma AddListenerIdempotent(listeners: map<string, set<Callback>>, event: string, callback: Callback)
    ensures WithListener(WithListener(listeners, event, callback), event, callback) == WithListener(listeners, event, callback)
  {
  }

  /** Removing twice is removing once. */
  lemma RemoveListenerIdempotent(listeners: map<string, set<Callback>>, event: string, callback: Callback)
    ensures WithoutListener(WithoutListener(listeners, event, callback), event, callback) == WithoutListener(listeners, event, callback)
  {
    if event in listeners {
      var once := WithoutListener(listeners, event, callback);
      assert once[event] - {callback} == once[event];
      assert once[event := once[event] - {callback}] == once;
    }
  }

  /**
   * Subscribing a new callback and unsubscribing it leaves every event's
   * callbacks as they were (the event may keep an empty entry).
   */
  lemma AddThenRemoveRestores(listeners: map<string, set<Callback>>, event: string, callback: Callback)
    requires callback !in CallbacksOf(listeners, event)
    ensures forall e :: CallbacksOf(WithoutListener(WithListener(listeners, event, callback), event, callback), e) == CallbacksOf(listeners, e)
  {
    var added := WithListener(listeners, event, callback);
    assert CallbacksOf(WithoutListener(added, event, callback), event) == CallbacksOf(listeners, event);
  }

  /**
   * The handlers a socket carries after setupListeners: the four built-in
   * ones, then exactly one forwarder per registered (event, callback) pair.
   */
  ghost predicate BoundRegistry(handlers: seq<Handler>, listeners: map<string, set<Callback>>) {
    && |handlers| >= |BuiltinHandlers|
    && handlers[..|BuiltinHandlers|] == BuiltinHandlers
    && Distinct(handlers[|BuiltinHandlers|..])
    && (forall i :: |BuiltinHandlers| <= i < |handlers| ==> handlers[i].Forward?)
    && (forall e, c :: Forward(e, c) in handlers[|BuiltinHandlers|..] <==> c in CallbacksOf(listeners, e))
  }

  /** The callbacks socket.io invokes, in binding order, when the server sends `event`. */
  function Receivers(handlers: seq<Handler>, event: string): (r: seq<Callback>)
    ensures forall c :: c in r <==> Forward(event, c) in handlers
  {
    if handlers == [] then []
    else
      var last := handlers[|handlers| - 1];
      Receivers(handlers[..|handlers| - 1], event)
        + (if last.Forward? && last.event == event then [last.callback] else [])
  }

  /** Below the four built-in handlers every forwarder sits in the bound part. */
  lemma ForwarderIsBound(handlers: seq<Handler>, event: string, c: Callback)
    requires |handlers| >= |BuiltinHandlers| && handlers[..|BuiltinHandlers|] == BuiltinHandlers
    ensures Forward(event, c) in handlers <==> Forward(event, c) in handlers[|BuiltinHandlers|..]
  {
    if Forward(event, c) in handlers {
      var i :| 0 <= i < |handlers| && handlers[i] == Forward(event, c);
      assert i >= |BuiltinHandlers|;
      assert handlers[|BuiltinHandlers|..][i - |BuiltinHandlers|] == handlers[i];
    }
    if Forward(event, c) in handlers[|BuiltinHandlers|..] {
      var k :| 0 <= k < |handlers| - |BuiltinHandlers| && handlers[|BuiltinHandlers|..][k] == Forward(event, c);
      assert handlers[|BuiltinHandlers| + k] == Forward(event, c);
    }
  }

  /** Handlers with no forwarder bound twice deliver each callback at most once. */
  lemma {:induction false} ReceiversDistinct(handlers: seq<Handler>, event: string)
    requires forall i, j :: 0 <= i < j < |handlers| && handlers[i].Forward? ==> handlers[i] != handlers[j]
    ensures Distinct(Receivers(handlers, event))
    decreases |handlers|
  {
    if handlers != [] {
      var n := |handlers| - 1;
      var prefix := handlers[..n];
      ReceiversDistinct(prefix, event);
      var last := handlers[n];
      if last.Forward? && last.event == event {
        forall i | 0 <= i < n
          ensures prefix[i] != last
        {
          assert prefix[i] == handlers[i];
        }
        assert last.callback !in Receivers(prefix, event);
      }
    }
  }

  /**
   * On a freshly bound socket, an incoming event reaches exactly the
   * callbacks registered for it, each of them once.
   */
  lemma BoundSocketDelivers(handlers: seq<Handler>, listeners: map<string, set<Callback>>, event: string)
    requires BoundRegistry(handlers, listeners)
    ensures forall c :: c in Receivers(handlers, event) <==> c in CallbacksOf(listeners, event)
    ensures Distinct(Receivers(handlers, event))
  {
    var b := |BuiltinHandlers|;
    forall i, j | 0 <= i < j < |handlers| && handlers[i].Forward?
      ensures handlers[i] != handlers[j]
    {
      if i >= b {
        assert handlers[i] == handlers[b..][i - b] && handlers[j] == handlers[b..][j - b];
      }
    }
    ReceiversDistinct(handlers, event);
    forall c
      ensures Forward(event, c) in handlers <==> Forward(event, c) in handlers[|BuiltinHandlers|..]
    {
      ForwarderIsBound(handlers, event, c);
    }
  }

  /**
   * The `isRefreshing` guard and how many refreshes are unsettled; the
   * refresh itself is an abstract outcome.
   */
  datatype Guard = Guard(isRefreshing: bool, pending: nat)

  datatype GuardEvent = AuthError(code: Option<int>) | RefreshSettled

  /**
   * `auth_error` as written (lines 49-54, 63-67, 75-77): the early return
   * sits inside `try`, so its `finally` clears the flag of the refresh that
   * is still running.
   */
  function AuthErrorStep(g: Guard, code: Option<int>): (r: Guard)
    ensures code != Some(401) ==> r == g
    ensures code == Some(401) && g.isRefreshing ==> !r.isRefreshing && r.pending == g.pending
    ensures code == Some(401) && !g.isRefreshing ==> r.isRefreshing && r.pending == g.pending + 1
  {
    if code != Some(401) then g
    else if g.isRefreshing then Guard(false, g.pending)
    else Guard(true, g.pending + 1)
  }

  /** The corrected guard: the early return happens before `try`, leaving the flag alone. */
  function AuthErrorStepGuarded(g: Guard, code: Option<int>): (r: Guard)
    ensures r.isRefreshing == (g.isRefreshing || code == Some(401))
    ensures r.pending == g.pending + (if code == Some(401) && !g.isRefreshing then 1 else 0)
  {
    if code != Some(401) || g.isRefreshing then g
    else Guard(true, g.pending + 1)
  }

  /** One refresh settles; its `finally` clears the flag (lines 75-77). */
  function RefreshSettledStep(g: Guard): (r: Guard)
    ensures g.pending == 0 ==> r == g
    ensures g.pending > 0 ==> !r.isRefreshing && r.pending == g.pending - 1
  {
    if g.pending == 0 then g else Guard(false, g.pending - 1)
  }

  function Run(g: Guard, events: seq<GuardEvent>, guarded: bool): (r: Guard)
    decreases |events|
  {
    if events == [] then g
    else
      var next := match events[0]
        case AuthError(code) => if guarded then AuthErrorStepGuarded(g, code) else AuthErrorStep(g, code)
        case RefreshSettled => RefreshSettledStep(g);
      Run(next, events[1..], guarded)
  }

  /** Single flight: at most one refresh runs, and exactly while the flag is set. */
  predicate SingleFlight(g: Guard) {
    g.pending <= 1 && (g.isRefreshing <==> g.pending == 1)
  }

  /** As written, three 401s in a row while the first refresh is running start a second refresh. */
  lemma AuthErrorsOverlap()
    ensures var code := AuthError(Some(401));
      Run(Guard(false, 0), [code, code, code], false) == Guard(true, 2)
  {
    var code := AuthError(Some(401));
    var s1 := AuthErrorStep(Guard(false, 0), Some(401));
    var s2 := AuthErrorStep(s1, Some(401));
    var s3 := AuthErrorStep(s2, Some(401));
    assert s1 == Guard(true, 1) && s2 == Guard(false, 1) && s3 == Guard(true, 2);
    assert [code, code, code][1..] == [code, code] && [code, code][1..] == [code];
    assert Run(s3, [], false) == s3;
    assert Run(s2, [code], false) == Run(s3, [], false);
    assert Run(s1, [code, code], false) == Run(s2, [code], false);
  }

  /** With the corrected guard every sequence of events keeps single flight. */
  lemma {:induction false} GuardedKeepsSingleFlight(g: Guard, events: seq<GuardEvent>)
    requires SingleFlight(g)
    ensures SingleFlight(Run(g, events, true))
    decreases |events|
  {
    if events != [] {
      var next := match events[0]
        case AuthError(code) => AuthErrorStepGuarded(g, code)
        case RefreshSettled => RefreshSettledStep(g);
      assert SingleFlight(next);
      GuardedKeepsSingleFlight(next, events[1..]);
    }
  }

  /** The socket.io client: the handlers bound on it and what it has sent. */
  class Socket {
    const url: string
    const options: SocketOptions
    var connected: bool
    var handlers: seq<Handler>
    var sent: seq<Message>

    constructor (url: string, options: SocketOptions)
      ensures this.url == url && this.options == options
      ensures !connected && handlers == [] && sent == []
    {
      this.url := url;
      this.options := options;
      connected := false;
      handlers := [];
      sent := [];
    }

    method On(h: Handler)
      modifies this`handlers
      ensures handlers == old(handlers) + [h]
    {
      handlers := handlers + [h];
    }

    method Emit(m: Message)
      modifies this`sent
      ensures sent == old(sent) + [m]
    {
      sent := sent + [m];
    }

    /** The handshake completed, or socket.io reconnected by itself. */
    method Opened()
      modifies this`connected
      ensures connected
    {
      connected := true;
    }

    /** The client closed the socket, or the connection dropped. */
    method Closed()
      modifies this`connected
      ensures !connected
    {
      connected := false;
    }
  }

  class SocketService {
    const wsUrl: string
    var socket: Socket?
    var listeners: map<string, set<Callback>>
    var isRefreshing: bool
    /** Refreshes started by an `auth_error` and not yet settled. */
    ghost var pendingRefreshes: nat

    ghost function GuardState(): Guard
      reads this
    {
      Guard(isRefreshing, pendingRefreshes)
    }

    constructor (wsUrl: string)
      ensures this.wsUrl == wsUrl && socket == null && listeners == map[]
      ensures !isRefreshing && pendingRefreshes == 0
    {
      this.wsUrl := wsUrl;
      socket := null;
      listeners := map[];
      isRefreshing := false;
      pendingRefreshes := 0;
    }

    /**
     * What `connect` did: nothing if the socket is connected or no access
     * token is stored; otherwise a new socket carrying the token, with the
     * whole registry bound on it.
     */
    twostate predicate ConnectOutcome(store: Store)
      reads this, socket
    {
      if old(socket) != null && old(socket.connected) then socket == old(socket)
      else if !HasToken(store, AccessTokenKey) then socket == old(socket)
      else
        && socket != null && fresh(socket)
        && socket.url == wsUrl && socket.options == ConnectOptions(store[AccessTokenKey])
        && !socket.connected && socket.sent == []
        && BoundRegistry(socket.handlers, listeners)
    }

    /** `connect` (lines 12-32); the socket it replaces is not closed. */
    method Connect(store: Store)
      modifies this`socket
      ensures ConnectOutcome(store)
    {
      if socket != null && socket.connected {
        return;
      }
      var token := GetItem(store, AccessTokenKey);
      if !Truthy(token) {
        return;
      }
      socket := new Socket(wsUrl, ConnectOptions(token.value));
      SetupListeners();
    }

    /** `setupListeners` (lines 34-61): the built-in handlers, then one forwarder per registered pair. */
    method SetupListeners()
      modifies socket
      ensures socket != null ==>
        && |socket.handlers| >= |old(socket.handlers)|
        && socket.handlers[..|old(socket.handlers)|] == old(socket.handlers)
        && BoundRegistry(socket.handlers[|old(socket.handlers)|..], listeners)
        && socket.connected == old(socket.connected) && socket.sent == old(socket.sent)
    {
      if socket == null {
        return;
      }
      var s := socket;
      s.On(Builtin("connect"));
      s.On(Builtin("disconnect"));
      s.On(Builtin("error"));
      s.On(Builtin("auth_error"));
      ghost var base := s.handlers;
      ghost var added: seq<Handler> := [];
      var events := listeners.Keys;
      while events != {}
        invariant events <= listeners.Keys
        invariant s.handlers == base + added && s.connected == old(s.connected) && s.sent == old(s.sent)
        invariant Distinct(added) && forall i :: 0 <= i < |added| ==> added[i].Forward?
        invariant forall e, c :: Forward(e, c) in added <==> e !in events && c in CallbacksOf(listeners, e)
        decreases events
      {
        var event :| event in events;
        var callbacks := listeners[event];
        while callbacks != {}
          invariant callbacks <= listeners[event]
          invariant s.handlers == base + added && s.connected == old(s.connected) && s.sent == old(s.sent)
          invariant Distinct(added) && forall i :: 0 <= i < |added| ==> added[i].Forward?
          invariant forall e, c :: Forward(e, c) in added <==>
            (e !in events && c in CallbacksOf(listeners, e)) || (e == event && c in listeners[event] && c !in callbacks)
          decreases callbacks
        {
          var callback :| callback in callbacks;
          s.On(Forward(event, callback));
          added := added + [Forward(event, callback)];
          callbacks := callbacks - {callback};
        }
        events := events - {event};
      }
      assert s.handlers[|old(s.handlers)|..] == BuiltinHandlers + added;
    }

    /** `disconnect` (lines 80-85): closes and forgets the socket; without one it does nothing. */
    method Disconnect()
      modifies this`socket, socket
      ensures socket == null
      ensures old(socket) != null ==>
        !old(socket).connected && old(socket).handlers == old(socket.handlers) && old(socket).sent == old(socket.sent)
    {
      if socket != null {
        socket.Closed();
        socket := null;
      }
    }

    /** Only a connected socket sends; otherwise the message is dropped and nothing changes. */
    twostate predicate EmitOutcome(m: Message)
      reads this, socket
    {
      && socket == old(socket)
      && (socket != null ==>
            && socket.connected == old(socket.connected)
            && socket.handlers == old(socket.handlers)
            && socket.sent == (if old(socket.connected) then old(socket.sent) + [m] else old(socket.sent)))
    }

    /** `emit` (lines 87-90). */
    method Emit(event: string, payload: Payload)
      modifies socket
      ensures EmitOutcome(Message(event, payload))
    {
      if socket == null || !socket.connected {
        return;
      }
      socket.Emit(Message(event, payload));
    }

    /** `addListener` (lines 92-97): the live socket is not touched. */
    method AddListener(event: string, callback: Callback)
      modifies this`listeners
      ensures listeners == WithListener(old(listeners), event, callback)
    {
      if event !in listeners {
        listeners := listeners[event := {}];
      }
      listeners := listeners[event := listeners[event] + {callback}];
    }

    /** `removeListener` (lines 99-101): a forwarder already bound on the live socket stays bound. */
    method RemoveListener(event: string, callback: Callback)
      modifies this`listeners
      ensures listeners == WithoutListener(old(listeners), event, callback)
    {
      if event in listeners {
        listeners := listeners[event := listeners[event] - {callback}];
      }
    }

    /** `notifyListeners` (lines 103-105): every callback registered for the event is called once with the data. */
    function NotifyListeners(event: string, data: Payload): (calls: set<(Callback, Payload)>)
      reads this
      ensures forall c, d :: (c, d) in calls <==> c in CallbacksOf(listeners, event) && d == data
    {
      set c | c in CallbacksOf(listeners, event) :: (c, data)
    }

    /**
     * The `auth_error` handler and the synchronous start of
     * `refreshTokenAndReconnect`, as written; `started` says whether a
     * refresh was dispatched.
     */
    method OnAuthError(code: Option<int>) returns (started: bool)
      modifies this`isRefreshing, this`pendingRefreshes
      ensures GuardState() == AuthErrorStep(old(GuardState()), code)
      ensures started <==> code == Some(401) && !old(isRefreshing)
    {
      started := false;
      if code == Some(401) {
        if isRefreshing {
          isRefreshing := false;
        } else {
          isRefreshing := true;
          pendingRefreshes := pendingRefreshes + 1;
          started := true;
        }
      }
    }

    /** The same with the early return moved out of `try`. */
    method OnAuthErrorGuarded(code: Option<int>) returns (started: bool)
      modifies this`isRefreshing, this`pendingRefreshes
      ensures GuardState() == AuthErrorStepGuarded(old(GuardState()), code)
      ensures started <==> code == Some(401) && !old(isRefreshing)
    {
      started := false;
      if code == Some(401) && !isRefreshing {
        isRefreshing := true;
        pendingRefreshes := pendingRefreshes + 1;
        started := true;
      }
    }

    /**
     * A refresh settled (lines 69-77): after a success the socket
     * reconnects with the stored token; either way the flag is cleared.
     */
    method OnRefreshSettled(succeeded: bool, store: Store)
      requires pendingRefreshes > 0
      modifies this`socket, this`isRefreshing, this`pendingRefreshes
      ensures GuardState() == RefreshSettledStep(old(GuardState()))
      ensures listeners == old(listeners)
      ensures !succeeded ==> socket == old(socket)
      ensures succeeded ==> ConnectOutcome(store)
    {
      if succeeded {
        Connect(store);
      }
      isRefreshing := false;
      pendingRefreshes := pendingRefreshes - 1;
    }
  }

  /** The registry outlives the socket: after a disconnect, the next connect rebinds every registered callback. */
  method Reconnect(service: SocketService, store: Store)
    requires HasToken(store, AccessTokenKey)
    modifies service, service.socket
    ensures service.socket != null && fresh(service.socket) && !service.socket.connected
    ensures service.listeners == old(service.listeners)
    ensures BoundRegistry(service.socket.handlers, service.listeners)
  {
    service.Disconnect();
    service.Connect(store);
  }
}
