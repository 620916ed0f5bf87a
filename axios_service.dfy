/**
 * The shared HTTP client (services/axios.service.ts): a request interceptor
 * that attaches the stored access token, and a response interceptor that
 * turns a 401 into ONE token refresh shared by every request that fails
 * while it runs.
 *
 * The module-level `isRefreshing` flag and `failedQueue`, and what the
 * suspended async handlers keep in their closures (which request started
 * the refresh, how far `refreshAccessToken` got), are the fields of one
 * Pipeline object. Each method is one run-to-completion step of the event
 * loop; the transport and the storage are abstract, and what the callers
 * and the transport observe is appended to `effects`.
 */
module AxiosService {
  import opened Wrappers
  import opened Types
  import opened Storage
  import opened Http
  import TokenInterceptor

  const RefreshUrl: string := "/auth/refresh"
  /** The instance's default headers (lines 10-12). */
  const DefaultHeaders: map<string, string> := map["Content-Type" := "application/json"]
  const NoRefreshToken: string := "No refresh token"
  /** The TypeError of `response.data.result.accessToken` when `result` is missing. */
  const MissingResult: string := "Cannot read properties of undefined (reading 'accessToken')"

  /** What the transport and the callers of the instance observe. */
  datatype Effect =
    | Dispatched(request: RequestConfig)                                // handed to the transport; the object is shared, so its headers read as they are now
    | Answered(request: RequestConfig)                                  // the caller received the response
    | WaiterResolved(request: RequestConfig)                            // processQueue resolved this waiter
    | Failed(request: RequestConfig, error: ErrorInfo)                  // the caller's promise rejected

  /** The three ways the response interceptor treats an error. */
  datatype Handling = PassedThrough | Queued | StartedRefresh

  /** Where the one refresh stands; each non-idle stage is a suspended `refreshAccessToken`. */
  datatype RefreshStage =
    | Idle
    | ReadingRefreshToken                          // awaiting AsyncStorage.getItem('refreshToken')
    | AwaitingRefreshReply(request: RequestConfig) // awaiting the POST to /auth/refresh

  /** The decision of lines 51 and 53: only an unretried 401 is handled, and only one refresh starts. */
  function Classify(status: Option<int>, retried: bool, refreshing: bool): (h: Handling)
    ensures h == StartedRefresh <==> status == Some(401) && !retried && !refreshing
    ensures h == Queued <==> status == Some(401) && !retried && refreshing
  {
    if status == Some(401) && !retried then (if refreshing then Queued else StartedRefresh)
    else PassedThrough
  }

  /** One waiter's settlement: rejected with the error when there is one, resolved otherwise. */
  function SettleOne(waiter: RequestConfig, error: Option<ErrorInfo>): (e: Effect)
    ensures e.request == waiter
    ensures e.Failed? <==> error.Some?
    ensures e.Failed? ==> e.error == error.value
    ensures !e.Failed? ==> e.WaiterResolved?
  {
    if error.Some? then Failed(waiter, error.value) else WaiterResolved(waiter)
  }

  /** processQueue's settlements: every waiter, in queue order, with the same outcome. */
  function Settle(queue: seq<RequestConfig>, error: Option<ErrorInfo>): (effects: seq<Effect>)
    ensures |effects| == |queue|
    ensures forall i :: 0 <= i < |queue| ==> effects[i] == SettleOne(queue[i], error)
  {
    if queue == [] then [] else Settle(queue[..|queue| - 1], error) + [SettleOne(queue[|queue| - 1], error)]
  }

  /** The dispatches of `requests`, in order. */
  function Dispatches(requests: seq<RequestConfig>): (effects: seq<Effect>)
    ensures |effects| == |requests|
    ensures forall i :: 0 <= i < |requests| ==> effects[i] == Dispatched(requests[i])
  {
    if requests == [] then [] else Dispatches(requests[..|requests| - 1]) + [Dispatched(requests[|requests| - 1])]
  }

  /** How `refreshAccessToken` ends once the refresh endpoint answered (lines 101-111). */
  function RefreshResult(reply: AppResponse<AuthResponse>): (r: Settlement<AuthResponse>)
    ensures r.Resolved? <==> reply.success && reply.result.Some?
    ensures r.Resolved? ==> r.value == reply.result.value
    ensures !reply.success ==> r == Rejected(ScriptError(reply.message.GetOr("")))
  {
    if !reply.success then Rejected(ScriptError(reply.message.GetOr("")))
    else if reply.result.None? then Rejected(ScriptError(MissingResult))
    else Resolved(reply.result.value)
  }

  class Pipeline {
    /** AsyncStorage. */
    var storage: Store
    var isRefreshing: bool
    /** The waiters: requests that got a 401 while the refresh was running. */
    var failedQueue: seq<RequestConfig>
    /** The request whose 401 handler awaits the refresh. */
    var initiator: RequestConfig?
    var stage: RefreshStage
    /** Requests on the wire, awaiting a response. */
    var inFlight: set<RequestConfig>
    var effects: seq<Effect>
    /** Calls of `refreshAccessToken` so far, and how many of them have settled. */
    ghost var refreshCalls: nat
    ghost var refreshesSettled: nat

    /**
     * Single flight: a refresh runs exactly when `isRefreshing` is set, at
     * most one is unsettled, and waiters exist only while it runs.
     */
    ghost predicate Valid()
      reads this
    {
      && (isRefreshing <==> initiator != null)
      && (isRefreshing <==> !stage.Idle?)
      && (!isRefreshing ==> failedQueue == [])
      && refreshCalls == refreshesSettled + (if isRefreshing then 1 else 0)
      && (forall i, j :: 0 <= i < j < |failedQueue| ==> failedQueue[i] != failedQueue[j])
      && (forall w :: w in failedQueue ==> w !in inFlight && w != initiator)
      && (initiator != null ==> initiator !in inFlight)
      && (stage.AwaitingRefreshReply? ==> stage.request != initiator)
    }

    /** The refresh call is itself a waiter of the refresh it belongs to: nothing will ever settle it. */
    ghost predicate Stalled()
      reads this
    {
      stage.AwaitingRefreshReply? && stage.request in failedQueue
    }

    /** The fields the response interceptor coordinates through. */
    ghost function Control(): (bool, seq<RequestConfig>, RequestConfig?, RefreshStage, nat, nat)
      reads this
    {
      (isRefreshing, failedQueue, initiator, stage, refreshCalls, refreshesSettled)
    }

    constructor (storage: Store)
      ensures Valid() && this.storage == storage
      ensures !isRefreshing && failedQueue == [] && initiator == null && stage == Idle
      ensures inFlight == {} && effects == [] && refreshCalls == 0 && refreshesSettled == 0
    {
      this.storage := storage;
      isRefreshing := false;
      failedQueue := [];
      initiator := null;
      stage := Idle;
      inFlight := {};
      effects := [];
      refreshCalls := 0;
      refreshesSettled := 0;
    }

    /** The instance's request interceptor (lines 30-41): the same rule as the global one. */
    method OnRequest(config: RequestConfig) returns (r: RequestConfig)
      modifies config`headers
      ensures r == config && config.headers == WithBearer(old(config.headers), storage)
    {
      r := TokenInterceptor.OnRequest(config, storage);
    }

    /** `axiosInstance(config)`: the request interceptor, then the transport. */
    method Send(config: RequestConfig)
      modifies this`inFlight, this`effects, config`headers
      ensures config.headers == WithBearer(old(config.headers), storage)
      ensures inFlight == old(inFlight) + {config}
      ensures effects == old(effects) + [Dispatched(config)]
    {
      var c := OnRequest(config);
      inFlight := inFlight + {c};
      effects := effects + [Dispatched(c)];
    }

    /** A caller issues a new request through the instance. */
    method Request(config: RequestConfig)
      requires Valid() && config !in failedQueue && config != initiator
      modifies this`inFlight, this`effects, config`headers
      ensures Valid() && Control() == old(Control()) && storage == old(storage)
      ensures config.headers == WithBearer(old(config.headers), storage)
      ensures inFlight == old(inFlight) + {config}
      ensures effects == old(effects) + [Dispatched(config)]
    {
      Send(config);
    }

    /** A 2xx reply to an ordinary request is handed to its caller as it is (line 45). */
    method OnResponse(config: RequestConfig)
      requires Valid() && config in inFlight && stage != AwaitingRefreshReply(config)
      modifies this`inFlight, this`effects
      ensures Valid() && Control() == old(Control()) && storage == old(storage)
      ensures inFlight == old(inFlight) - {config}
      ensures effects == old(effects) + [Answered(config)]
    {
      inFlight := inFlight - {config};
      effects := effects + [Answered(config)];
    }

    /** `processQueue(error)` (lines 18-27): settle every waiter in order, then empty the queue. */
    method ProcessQueue(error: Option<ErrorInfo>)
      modifies this`failedQueue, this`effects
      ensures failedQueue == []
      ensures effects == old(effects) + Settle(old(failedQueue), error)
    {
      var i := 0;
      while i < |failedQueue|
        invariant 0 <= i <= |failedQueue|
        invariant failedQueue == old(failedQueue)
        invariant effects == old(effects) + Settle(failedQueue[..i], error)
      {
        assert failedQueue[..i + 1][..i] == failedQueue[..i];
        effects := effects + [SettleOne(failedQueue[i], error)];
        i := i + 1;
      }
      assert failedQueue[..i] == failedQueue;
      failedQueue := [];
    }

    /** The 401 handler's `catch` and `finally` (lines 77-82): everyone fails with the refresh error. */
    method FailRefresh(error: ErrorInfo)
      requires initiator != null
      modifies this`failedQueue, this`effects, this`isRefreshing, this`initiator, this`stage, this`refreshesSettled
      ensures effects == old(effects) + Settle(old(failedQueue), Some(error)) + [Failed(old(initiator), error)]
      ensures failedQueue == [] && !isRefreshing && initiator == null && stage == Idle
      ensures refreshesSettled == old(refreshesSettled) + 1
    {
      var init := initiator;
      ProcessQueue(Some(error));
      effects := effects + [Failed(init, error)];
      isRefreshing := false;
      initiator := null;
      stage := Idle;
      refreshesSettled := refreshesSettled + 1;
    }

    /**
     * The 401 handler after a successful refresh (lines 72-76, 80-82): the
     * waiters are resolved, the initiator is resent with the new token, the
     * flag drops, and then each resolved waiter's continuation resends it.
     */
    method SucceedRefresh(accessToken: string)
      requires initiator != null && initiator !in failedQueue
      requires forall i, j :: 0 <= i < j < |failedQueue| ==> failedQueue[i] != failedQueue[j]
      modifies this`failedQueue, this`effects, this`isRefreshing, this`initiator, this`stage
      modifies this`refreshesSettled, this`inFlight, initiator`headers, failedQueue`headers
      ensures failedQueue == [] && !isRefreshing && initiator == null && stage == Idle
      ensures refreshesSettled == old(refreshesSettled) + 1
      ensures old(initiator).headers == WithBearer(old(initiator.headers)[AuthorizationHeader := Bearer(accessToken)], storage)
      ensures old(initiator).retry == old(initiator.retry)
      ensures forall w :: w in old(failedQueue) ==> w.headers == WithBearer(old(w.headers), storage) && w.retry == old(w.retry)
      ensures inFlight == old(inFlight) + {old(initiator)} + (set w | w in old(failedQueue))
      ensures effects == old(effects) + Settle(old(failedQueue), None)
                         + [Dispatched(old(initiator))] + Dispatches(old(failedQueue))
    {
      var q := failedQueue;
      ProcessQueue(None);
      RetryInitiator(accessToken);
      ResendWaiters(q);
    }

    /** Lines 74-76 and 80-82: the initiator is resent with the new token and the flag drops. */
    method RetryInitiator(accessToken: string)
      requires initiator != null
      modifies this`effects, this`isRefreshing, this`initiator, this`stage
      modifies this`refreshesSettled, this`inFlight, initiator`headers
      ensures !isRefreshing && initiator == null && stage == Idle
      ensures refreshesSettled == old(refreshesSettled) + 1
      ensures old(initiator).headers == WithBearer(old(initiator.headers)[AuthorizationHeader := Bearer(accessToken)], storage)
      ensures old(initiator).retry == old(initiator.retry)
      ensures inFlight == old(inFlight) + {old(initiator)}
      ensures effects == old(effects) + [Dispatched(old(initiator))]
    {
      var init := initiator;
      init.headers := init.headers[AuthorizationHeader := Bearer(accessToken)];
      Send(init);
      isRefreshing := false;
      initiator := null;
      stage := Idle;
      refreshesSettled := refreshesSettled + 1;
    }

    /** Each resolved waiter's continuation resends its request, in queue order (lines 58-59). */
    method ResendWaiters(q: seq<RequestConfig>)
      requires forall i, j :: 0 <= i < j < |q| ==> q[i] != q[j]
      modifies this`inFlight, this`effects, q`headers
      ensures forall w :: w in q ==> w.headers == WithBearer(old(w.headers), storage) && w.retry == old(w.retry)
      ensures inFlight == old(inFlight) + (set w | w in q)
      ensures effects == old(effects) + Dispatches(q)
    {
      var i := 0;
      while i < |q|
        invariant 0 <= i <= |q|
        invariant effects == old(effects) + Dispatches(q[..i])
        invariant inFlight == old(inFlight) + (set j | 0 <= j < i :: q[j])
        invariant forall j :: 0 <= j < i ==> q[j].headers == WithBearer(old(q[j].headers), storage)
        invariant forall j :: i <= j < |q| ==> q[j].headers == old(q[j].headers)
        invariant forall j :: 0 <= j < |q| ==> q[j].retry == old(q[j].retry)
      {
        assert q[..i + 1][..i] == q[..i];
        Send(q[i]);
        i := i + 1;
      }
      assert q[..i] == q;
      assert (set j | 0 <= j < i :: q[j]) == (set w | w in q);
    }

    /** The error branch of the response interceptor (lines 46-86). */
    method OnResponseError(config: RequestConfig, error: ErrorInfo) returns (handling: Handling)
      requires Valid() && config in inFlight
      modifies this, config`retry
      ensures Valid() && (old(Stalled()) ==> Stalled())
      ensures handling == Classify(StatusOf(error), old(config.retry), old(isRefreshing))
      ensures inFlight == old(inFlight) - {config} && storage == old(storage)
      ensures config.retry == (old(config.retry) || handling == StartedRefresh)
      ensures handling == PassedThrough && old(stage) != AwaitingRefreshReply(config) ==>
        effects == old(effects) + [Failed(config, error)] && Control() == old(Control())
      ensures handling == PassedThrough && old(stage) == AwaitingRefreshReply(config) ==>
        && effects == old(effects) + Settle(old(failedQueue), Some(error)) + [Failed(old(initiator), error)]
        && !isRefreshing && failedQueue == [] && initiator == null && stage == Idle
        && refreshCalls == old(refreshCalls) && refreshesSettled == old(refreshesSettled) + 1
      ensures handling == Queued ==>
        && failedQueue == old(failedQueue) + [config] && effects == old(effects)
        && isRefreshing && initiator == old(initiator) && stage == old(stage)
        && refreshCalls == old(refreshCalls) && refreshesSettled == old(refreshesSettled)
      ensures handling == Queued && old(stage) == AwaitingRefreshReply(config) ==> Stalled()
      ensures handling == StartedRefresh ==>
        && isRefreshing && initiator == config && stage == ReadingRefreshToken && failedQueue == []
        && effects == old(effects)
        && refreshCalls == old(refreshCalls) + 1 && refreshesSettled == old(refreshesSettled)
    {
      handling := Classify(StatusOf(error), config.retry, isRefreshing);
      inFlight := inFlight - {config};
      match handling
      case Queued =>
        failedQueue := failedQueue + [config];
      case StartedRefresh =>
        config.retry := true;
        isRefreshing := true;
        initiator := config;
        refreshCalls := refreshCalls + 1;
        stage := ReadingRefreshToken;
      case PassedThrough =>
        if stage == AwaitingRefreshReply(config) {
          // the refresh call itself was rejected: refreshAccessToken rethrows
          FailRefresh(error);
        } else {
          effects := effects + [Failed(config, error)];
        }
    }

    /**
     * `refreshAccessToken` resumed with the stored refresh token (lines
     * 91-99): without one it throws before any network call; with one it
     * posts it to /auth/refresh through this same instance. `markRetried`
     * says whether that refresh call carries the `_retry` mark.
     */
    method BeginRefreshCall(markRetried: bool)
      requires Valid() && stage == ReadingRefreshToken
      modifies this
      ensures Valid() && storage == old(storage) && refreshCalls == old(refreshCalls)
      ensures !HasToken(storage, RefreshTokenKey) ==>
        && effects == old(effects) + Settle(old(failedQueue), Some(ScriptError(NoRefreshToken)))
                      + [Failed(old(initiator), ScriptError(NoRefreshToken))]
        && !isRefreshing && failedQueue == [] && initiator == null && stage == Idle
        && inFlight == old(inFlight) && refreshesSettled == old(refreshesSettled) + 1
      ensures HasToken(storage, RefreshTokenKey) ==>
        && stage.AwaitingRefreshReply? && fresh(stage.request)
        && stage.request.url == RefreshUrl && stage.request.data == map["refreshToken" := storage[RefreshTokenKey]]
        && stage.request.retry == markRetried
        && stage.request.headers == WithBearer(DefaultHeaders, storage)
        && effects == old(effects) + [Dispatched(stage.request)]
        && inFlight == old(inFlight) + {stage.request}
        && isRefreshing && failedQueue == old(failedQueue) && initiator == old(initiator)
        && refreshesSettled == old(refreshesSettled)
    {
      var refreshToken := GetItem(storage, RefreshTokenKey);
      if !HasToken(storage, RefreshTokenKey) {
        FailRefresh(ScriptError(NoRefreshToken));
      } else {
        var call := new RequestConfig(RefreshUrl, map["refreshToken" := refreshToken.value], DefaultHeaders);
        call.retry := markRetried;
        Send(call);
        stage := AwaitingRefreshReply(call);
      }
    }

    /** `refreshAccessToken` as written: the refresh call has no `_retry` mark. */
    method OnRefreshTokenRead()
      requires Valid() && stage == ReadingRefreshToken
      modifies this
      ensures Valid() && storage == old(storage) && refreshCalls == old(refreshCalls)
      ensures !HasToken(storage, RefreshTokenKey) ==>
        && effects == old(effects) + Settle(old(failedQueue), Some(ScriptError(NoRefreshToken)))
                      + [Failed(old(initiator), ScriptError(NoRefreshToken))]
        && !isRefreshing && failedQueue == [] && stage == Idle && inFlight == old(inFlight)
      ensures HasToken(storage, RefreshTokenKey) ==>
        && stage.AwaitingRefreshReply? && fresh(stage.request) && !stage.request.retry
        && stage.request.url == RefreshUrl && stage.request.data == map["refreshToken" := storage[RefreshTokenKey]]
        && stage.request.headers == WithBearer(DefaultHeaders, storage)
        && effects == old(effects) + [Dispatched(stage.request)]
        && inFlight == old(inFlight) + {stage.request}
        && isRefreshing && failedQueue == old(failedQueue) && initiator == old(initiator)
    {
      BeginRefreshCall(false);
    }

    /** The corrected refresh call: marked `_retry`, so a 401 on it fails the refresh instead of queueing it. */
    method OnRefreshTokenReadMarked()
      requires Valid() && stage == ReadingRefreshToken
      modifies this
      ensures Valid() && storage == old(storage) && refreshCalls == old(refreshCalls)
      ensures !HasToken(storage, RefreshTokenKey) ==>
        && effects == old(effects) + Settle(old(failedQueue), Some(ScriptError(NoRefreshToken)))
                      + [Failed(old(initiator), ScriptError(NoRefreshToken))]
        && !isRefreshing && failedQueue == [] && stage == Idle && inFlight == old(inFlight)
      ensures HasToken(storage, RefreshTokenKey) ==>
        && stage.AwaitingRefreshReply? && fresh(stage.request) && stage.request.retry
        && stage.request.url == RefreshUrl && stage.request.data == map["refreshToken" := storage[RefreshTokenKey]]
        && stage.request.headers == WithBearer(DefaultHeaders, storage)
        && effects == old(effects) + [Dispatched(stage.request)]
        && inFlight == old(inFlight) + {stage.request}
        && isRefreshing && failedQueue == old(failedQueue) && initiator == old(initiator)
    {
      BeginRefreshCall(true);
    }

    /**
     * The refresh endpoint answered 2xx (lines 101-111, then 72-82): on a
     * success envelope the new pair is stored and everyone is resent with
     * it; otherwise everyone fails with the thrown error.
     */
    method OnRefreshReply(reply: AppResponse<AuthResponse>)
      requires Valid() && stage.AwaitingRefreshReply? && stage.request in inFlight
      modifies this, initiator`headers, failedQueue`headers
      ensures Valid() && refreshCalls == old(refreshCalls) && refreshesSettled == old(refreshesSettled) + 1
      ensures !isRefreshing && failedQueue == [] && initiator == null && stage == Idle
      ensures old(initiator).retry == old(initiator.retry)
      ensures forall w :: w in old(failedQueue) ==> w.retry == old(w.retry)
      ensures RefreshResult(reply).Rejected? ==>
        && storage == old(storage) && inFlight == old(inFlight) - {old(stage).request}
        && effects == old(effects) + Settle(old(failedQueue), Some(RefreshResult(reply).reason))
                      + [Failed(old(initiator), RefreshResult(reply).reason)]
        && unchanged(old(initiator)) && (forall w :: w in old(failedQueue) ==> unchanged(w))
      ensures RefreshResult(reply).Resolved? ==>
        var tokens := RefreshResult(reply).value;
        && storage == SetTokens(old(storage), tokens.accessToken, tokens.refreshToken)
        && old(initiator).headers == WithBearer(old(initiator.headers)[AuthorizationHeader := Bearer(tokens.accessToken)], storage)
        && AuthorizationHeader in old(initiator).headers
        && old(initiator).headers[AuthorizationHeader] == Bearer(tokens.accessToken)
        && (forall w :: w in old(failedQueue) ==> w.headers == WithBearer(old(w.headers), storage))
        && (tokens.accessToken != "" ==> forall w :: w in old(failedQueue) ==>
              AuthorizationHeader in w.headers && w.headers[AuthorizationHeader] == Bearer(tokens.accessToken))
        && inFlight == old(inFlight) - {old(stage).request} + {old(initiator)} + (set w | w in old(failedQueue))
        && effects == old(effects) + Settle(old(failedQueue), None)
                      + [Dispatched(old(initiator))] + Dispatches(old(failedQueue))
    {
      inFlight := inFlight - {stage.request};
      var result := RefreshResult(reply);
      match result
      case Rejected(reason) =>
        FailRefresh(reason);
      case Resolved(tokens) =>
        ghost var init := initiator;
        storage := SetTokens(storage, tokens.accessToken, tokens.refreshToken);
        BearerSurvivesInterceptor(old(init.headers), old(storage), tokens.accessToken, tokens.refreshToken);
        SucceedRefresh(tokens.accessToken);
    }
  }

  /**
   * Single flight: N requests that all get a 401 while no refresh runs start
   * exactly one refresh; the first becomes its initiator and the others wait
   * in arrival order.
   */
  method ConcurrentUnauthorized(p: Pipeline, requests: seq<RequestConfig>, error: ErrorInfo)
    requires p.Valid() && !p.isRefreshing && requests != [] && StatusOf(error) == Some(401)
    requires forall i :: 0 <= i < |requests| ==> requests[i] in p.inFlight && !requests[i].retry
    requires forall i, j :: 0 <= i < j < |requests| ==> requests[i] != requests[j]
    modifies p, set r | r in requests
    ensures p.Valid() && p.isRefreshing && p.stage == ReadingRefreshToken
    ensures p.refreshCalls == old(p.refreshCalls) + 1
    ensures p.initiator == requests[0] && p.failedQueue == requests[1..]
    ensures p.effects == old(p.effects) && p.storage == old(p.storage)
  {
    var h := p.OnResponseError(requests[0], error);
    var i := 1;
    while i < |requests|
      invariant 1 <= i <= |requests|
      invariant p.Valid() && p.isRefreshing && p.stage == ReadingRefreshToken
      invariant p.refreshCalls == old(p.refreshCalls) + 1
      invariant p.initiator == requests[0] && p.failedQueue == requests[1..i]
      invariant p.effects == old(p.effects) && p.storage == old(p.storage)
      invariant forall j :: i <= j < |requests| ==> requests[j] in p.inFlight && !requests[j].retry
    {
      h := p.OnResponseError(requests[i], error);
      assert requests[1..i + 1] == requests[1..i] + [requests[i]];
      i := i + 1;
    }
  }

  /**
   * `_retry` bounds each request to one refresh (line 51): a request whose
   * 401 started a refresh that succeeded is resent still marked, so a second
   * 401 on it is rejected at once and starts no second refresh.
   */
  method RetriedOnce(p: Pipeline, r: RequestConfig, error: ErrorInfo, reply: AppResponse<AuthResponse>)
    returns (first: Handling, second: Handling)
    requires p.Valid() && !p.isRefreshing && r in p.inFlight && !r.retry && StatusOf(error) == Some(401)
    requires HasToken(p.storage, RefreshTokenKey) && RefreshResult(reply).Resolved?
    modifies p, r
    ensures first == StartedRefresh && second == PassedThrough
    ensures p.Valid() && !p.isRefreshing && p.refreshCalls == old(p.refreshCalls) + 1
    ensures r.retry && r !in p.inFlight
    ensures |p.effects| > 0 && p.effects[|p.effects| - 1] == Failed(r, error)
  {
    first := p.OnResponseError(r, error);
    p.OnRefreshTokenRead();
    p.OnRefreshReply(reply);
    second := p.OnResponseError(r, error);
  }

  /**
   * As written, for every store and every queue of waiters: a 401 on the
   * unmarked refresh call queues it behind its own refresh.
   */
  method UnmarkedCallStalls(p: Pipeline, error: ErrorInfo) returns (call: RequestConfig, h: Handling)
    requires p.Valid() && p.stage == ReadingRefreshToken && HasToken(p.storage, RefreshTokenKey)
    requires StatusOf(error) == Some(401)
    modifies p
    ensures h == Queued && p.Valid() && p.Stalled() && p.isRefreshing && p.stage == AwaitingRefreshReply(call)
    ensures p.failedQueue == old(p.failedQueue) + [call] && p.refreshesSettled == old(p.refreshesSettled)
  {
    p.OnRefreshTokenRead();
    call := p.stage.request;
    h := p.OnResponseError(call, error);
  }

  /**
   * Corrected, for every store and every queue of waiters: a 401 on the
   * marked refresh call passes through, fails the initiator and every
   * waiter with it, and clears the flag; the refresh never stalls.
   */
  method MarkedCallFailsRefresh(p: Pipeline, error: ErrorInfo) returns (call: RequestConfig, h: Handling)
    requires p.Valid() && p.stage == ReadingRefreshToken && HasToken(p.storage, RefreshTokenKey)
    requires StatusOf(error) == Some(401)
    modifies p
    ensures h == PassedThrough && p.Valid() && !p.Stalled()
    ensures !p.isRefreshing && p.failedQueue == [] && p.initiator == null && p.stage == Idle
    ensures p.refreshCalls == old(p.refreshCalls) && p.refreshesSettled == old(p.refreshesSettled) + 1
    ensures p.effects == old(p.effects) + [Dispatched(call)] + Settle(old(p.failedQueue), Some(error))
                         + [Failed(old(p.initiator), error)]
  {
    p.OnRefreshTokenReadMarked();
    call := p.stage.request;
    h := p.OnResponseError(call, error);
  }

  /** Once stalled, the refresh can neither read its token again nor receive a reply: the flag stays set. */
  lemma StalledIsStuck(p: Pipeline)
    requires p.Valid() && p.Stalled()
    ensures p.isRefreshing && p.stage != ReadingRefreshToken && p.stage.request !in p.inFlight
  {
  }

  /**
   * As written, a 401 on the refresh call itself (the call carries the stale
   * access token through the same interceptors) queues that call behind the
   * refresh it belongs to: the refresh never settles.
   */
  method RefreshCallUnauthorized() returns (stalled: bool, refreshing: bool)
    ensures stalled && refreshing
  {
    var p := new Pipeline(map[AccessTokenKey := "a1", RefreshTokenKey := "r1"]);
    var r := new RequestConfig("/coins/owned", map[], DefaultHeaders);
    p.Request(r);
    var h := p.OnResponseError(r, HttpError(Some(401), "Unauthorized"));
    p.OnRefreshTokenRead();
    var call := p.stage.request;
    h := p.OnResponseError(call, HttpError(Some(401), "Unauthorized"));
    assert p.failedQueue == [call];
    stalled := p.stage.AwaitingRefreshReply? && p.stage.request in p.failedQueue && p.stage.request !in p.inFlight;
    refreshing := p.isRefreshing;
  }

  /** With the refresh call marked `_retry`, the same 401 fails the refresh and clears the flag. */
  method RefreshCallUnauthorizedMarked() returns (refreshing: bool, initiatorFailed: bool)
    ensures !refreshing && initiatorFailed
  {
    var p := new Pipeline(map[AccessTokenKey := "a1", RefreshTokenKey := "r1"]);
    var r := new RequestConfig("/coins/owned", map[], DefaultHeaders);
    var error := HttpError(Some(401), "Unauthorized");
    p.Request(r);
    var h := p.OnResponseError(r, error);
    p.OnRefreshTokenReadMarked();
    var call := p.stage.request;
    h := p.OnResponseError(call, error);
    refreshing := p.isRefreshing;
    initiatorFailed := |p.effects| > 0 && p.effects[|p.effects| - 1] == Failed(r, error);
  }
}
