/**
 * `EnterpriseTokenManager` and the response interceptor of
 * src/interceptor/api.ts (lines 226-533): which failures start a token
 * refresh, the single refresh in flight that every other 401 joins by
 * waiting in the priority queue, the drain of that queue once the refresh
 * settles, the silent-refresh gate, the cross-tab message and the
 * interceptor's own retry of idempotent requests.
 *
 * The transport is the constant `net`: the k-th request the manager sends
 * (its config is `sent[k]`) gets the reply `net(k)`. Promise settlement is
 * the log `settled`, in the order the promises settle. `refreshToken` is
 * split where it awaits the refresh: `RefreshToken` is what happens when
 * it is called and `CompleteRefresh` what happens when the refresh
 * settles; between the two, further failures are handled and queued.
 */
module TokenManager {
  import opened Wrappers
  import opened Http
  import opened Text
  import opened CircuitBreakers
  import opened RequestQueue
  import opened Retry

  const SkipEndpoints: seq<string> := ["/refresh", "/logout", "/health", "/me"]
  const PublicEndpoints: seq<string> := ["/", "/auth/register", "/auth/login", "/public"]

  /** `api.post("/refresh", null, …)`. */
  const RefreshConfig := Config(Some("/refresh"), Some("post"), false, None)
  const TokenRefreshed := "TOKEN_REFRESHED"
  const QueueFullMessage := "Request queue is full"

  /** `endpoints.some((e) => url.includes(e))`. */
  predicate MatchesAny(url: string, endpoints: seq<string>) {
    exists k :: 0 <= k < |endpoints| && Contains(url, endpoints[k])
  }

  /** `shouldIntercept`: a non-empty URL that contains no public and no skipped endpoint. */
  predicate ShouldIntercept(url: Option<string>, publicEndpoints: seq<string>, skipEndpoints: seq<string>) {
    url.Some? && url.value != []
    && !MatchesAny(url.value, publicEndpoints) && !MatchesAny(url.value, skipEndpoints)
  }

  /** With `"/"` among the public endpoints no URL holding a slash is intercepted. */
  lemma SlashedUrlNotIntercepted(url: string, publicEndpoints: seq<string>, skipEndpoints: seq<string>)
    requires "/" in publicEndpoints && '/' in url
    ensures !ShouldIntercept(Some(url), publicEndpoints, skipEndpoints)
  {
    ContainsSingle(url, '/');
    var k :| 0 <= k < |publicEndpoints| && publicEndpoints[k] == "/";
    assert Contains(url, publicEndpoints[k]);
  }

  /** Every default endpoint holds a slash, so with the defaults exactly the non-empty slash-free URLs are intercepted. */
  lemma DefaultInterceptIff(url: string)
    ensures ShouldIntercept(Some(url), PublicEndpoints, SkipEndpoints) <==> url != [] && '/' !in url
  {
    if '/' in url {
      SlashedUrlNotIntercepted(url, PublicEndpoints, SkipEndpoints);
    } else {
      forall k | 0 <= k < |PublicEndpoints| ensures !Contains(url, PublicEndpoints[k]) {
        assert PublicEndpoints[k][0] == '/';
        AbsentChar(url, PublicEndpoints[k], '/');
      }
      forall k | 0 <= k < |SkipEndpoints| ensures !Contains(url, SkipEndpoints[k]) {
        assert SkipEndpoints[k][0] == '/';
        AbsentChar(url, SkipEndpoints[k], '/');
      }
    }
  }

  /** `error.config?.url?.includes(sub)`, false when config or URL is missing. */
  predicate UrlIncludes(e: Failure, sub: string) {
    ConfigOf(e).Some? && ConfigOf(e).value.url.Some? && Contains(ConfigOf(e).value.url.value, sub)
  }

  /** `isAuthError`: a 401 whose URL includes neither `/login` nor `/public`. */
  predicate IsAuthError(e: Failure) {
    StatusOf(e) == Some(401) && !UrlIncludes(e, "/login") && !UrlIncludes(e, "/public")
  }

  /** Among the URLs the default lists intercept, an auth error is exactly a 401. */
  lemma InterceptedAuthIff(e: Failure)
    requires ConfigOf(e).Some? && ShouldIntercept(ConfigOf(e).value.url, PublicEndpoints, SkipEndpoints)
    ensures IsAuthError(e) <==> StatusOf(e) == Some(401)
  {
    var url := ConfigOf(e).value.url.value;
    DefaultInterceptIff(url);
    AbsentChar(url, "/login", '/');
    AbsentChar(url, "/public", '/');
  }

  /** `_priority || "normal"`. */
  function PriorityTag(config: Config): (p: string)
    ensures p != ""
    ensures TierOf(p) == TierOf(config.priority.GetOr("normal"))
  {
    if config.priority.None? || config.priority.value == "" then "normal" else config.priority.value
  }

  /** The caller of `refreshToken` that waits for its outcome, and what it does with it. */
  datatype Starter =
    | Reissue(id: nat, config: Config)  // `handleError`: reissue the original request once refreshed
    | Silent                            // `refreshTokenSilently`: swallow the outcome
    | Forced(id: nat)                   // `forceRefresh`: hand the outcome to its caller

  /**
   * The refresh in flight: who started it, whether the breaker let it run,
   * the number of its first request, and the `forceRefresh` callers that
   * joined it.
   */
  datatype InFlight = InFlight(starter: Starter, admitted: bool, first: nat, joiners: seq<nat>)

  datatype Settlement = Resolved(response: Response) | Rejected(reason: Failure)

  /** The promise with number `id` settled `how`. */
  datatype Settled = Settled(id: nat, how: Settlement)

  /** What the interceptor does with a failure: settle now, or hand out a promise that settles later. */
  datatype Handling = Done(outcome: Outcome) | Pending(id: nat)

  function Settle(o: Outcome): (s: Settlement)
    ensures s.Resolved? <==> o.Ok?
    ensures o.Err? ==> s == Rejected(o.error)
  {
    if o.Ok? then Resolved(o.response) else Rejected(o.error)
  }

  function ErrorOf(o: Outcome): Option<Failure> {
    if o.Err? then Some(o.error) else None
  }

  /**
   * A rejection the interceptor passes on unchanged: its reason is one
   * `shouldRetryRequest` refuses, so the catch block of the interceptor
   * does not retry a queued request that settles with it.
   */
  predicate Final(s: Settlement) {
    s.Rejected? ==> !ShouldRetryRequest(s.reason)
  }

  ghost predicate AllFinal(log: seq<Settled>) {
    forall k :: 0 <= k < |log| ==> Final(log[k].how)
  }

  lemma AllFinalSnoc(log: seq<Settled>, s: Settled)
    requires AllFinal(log) && Final(s.how)
    ensures AllFinal(log + [s])
  {
    forall k | 0 <= k < |log| + 1 ensures Final((log + [s])[k].how) {
      if k < |log| {
        assert (log + [s])[k] == log[k];
      }
    }
  }

  /** `TokenManagerConfig`, each field optional. */
  datatype TokenManagerConfig = TokenManagerConfig(
    failureThreshold: Option<int>, timeout: Option<int>, maxRetries: Option<int>,
    baseDelay: Option<int>, maxQueueSize: Option<int>, silentRefreshInterval: Option<int>)

  /** `Required<TokenManagerConfig>`. */
  datatype Settings = Settings(
    failureThreshold: int, timeout: int, maxRetries: int,
    baseDelay: int, maxQueueSize: int, silentRefreshInterval: int)

  /** The constructor's `??` defaults (lines 253-260). */
  function Resolve(c: TokenManagerConfig): (s: Settings)
    ensures c == TokenManagerConfig(None, None, None, None, None, None) ==> s == Settings(5, 30000, 3, 1000, 100, 300000)
    ensures c.failureThreshold.Some? ==> s.failureThreshold == c.failureThreshold.value
    ensures c.timeout.Some? ==> s.timeout == c.timeout.value
    ensures c.maxRetries.Some? ==> s.maxRetries == c.maxRetries.value
    ensures c.baseDelay.Some? ==> s.baseDelay == c.baseDelay.value
    ensures c.maxQueueSize.Some? ==> s.maxQueueSize == c.maxQueueSize.value
    ensures c.silentRefreshInterval.Some? ==> s.silentRefreshInterval == c.silentRefreshInterval.value
  {
    Settings(
      c.failureThreshold.GetOr(5), c.timeout.GetOr(30000), c.maxRetries.GetOr(3),
      c.baseDelay.GetOr(1000), c.maxQueueSize.GetOr(100), c.silentRefreshInterval.GetOr(5 * 60 * 1000))
  }

  /**
   * Attempt 0 of the refresh is the request numbered `first`, sent when
   * `refreshToken` is called; attempt `i > 0` is the request numbered
   * `base + i - 1`, sent after its backoff wait.
   */
  function RefreshAttempt(net: nat -> Reply, first: nat, base: nat): nat -> Outcome {
    (i: nat) => Answer(net(if i == 0 then first else base + i - 1), RefreshConfig)
  }

  /** How the breaker-wrapped refresh settles and how many refresh requests it sends in all. */
  function RefreshRun(admitted: bool, net: nat -> Reply, first: nat, base: nat, maxRetries: int): (Outcome, nat) {
    if admitted then Run(RefreshAttempt(net, first, base), RefreshPolicy, maxRetries, 0)
    else (Err(Plain(OpenMessage)), 0)
  }

  /** An admitted refresh whose first POST is answered, or that has no retries, settles with that first reply after one request. */
  lemma FirstRefreshSettles(net: nat -> Reply, first: nat, base: nat, maxRetries: int)
    requires maxRetries >= 0 && (net(first).Delivered? || maxRetries == 0)
    ensures RefreshRun(true, net, first, base, maxRetries) == (Answer(net(first), RefreshConfig), 1)
  {
    var fn := RefreshAttempt(net, first, base);
    assert fn(0) == Answer(net(first), RefreshConfig);
  }

  /** The attempts after the first. */
  function Later(calls: nat): nat {
    if calls == 0 then 0 else calls - 1
  }

  /** A failure of the refresh POST is not one `shouldRetryRequest` accepts. */
  lemma RefreshPostNotRetried(e: Failure)
    requires ConfigOf(e) == Some(RefreshConfig)
    ensures !ShouldRetryRequest(e)
  {
    assert ToLower("post") == "post";
  }

  /** A failed refresh is never a reason the interceptor retries: it is a POST, or a plain error. */
  lemma RefreshErrorFinal(admitted: bool, net: nat -> Reply, first: nat, base: nat, maxRetries: int)
    ensures Final(Settle(RefreshRun(admitted, net, first, base, maxRetries).0))
  {
    var fn := RefreshAttempt(net, first, base);
    if admitted && maxRetries >= 0 {
      RunLast(fn, RefreshPolicy, maxRetries, 0);
      var n := Run(fn, RefreshPolicy, maxRetries, 0).1;
      RefreshAttemptIsPost(net, first, base, n - 1);
      var r := Run(fn, RefreshPolicy, maxRetries, 0).0;
      if r.Err? {
        RefreshPostNotRetried(r.error);
      }
    }
  }

  /** Every attempt of the refresh that fails carries the `/refresh` POST config. */
  lemma RefreshAttemptIsPost(net: nat -> Reply, first: nat, base: nat, i: nat)
    ensures var o := RefreshAttempt(net, first, base)(i);
      o.Err? ==> ConfigOf(o.error) == Some(RefreshConfig)
  {
    var k := if i == 0 then first else base + i - 1;
    assert RefreshAttempt(net, first, base)(i) == Answer(net(k), RefreshConfig);
  }

  /** A failure of a request sent with `_retry` set is never retried again. */
  lemma RetriedAnswerFinal(reply: Reply, config: Config)
    ensures Final(Settle(Answer(reply, Retried(config))))
  {
  }

  function Repeat(config: Config, n: nat): seq<Config> {
    seq(n, _ => config)
  }

  /** The configs the drain sends: each queued request, in order, with `_retry` set. */
  function Reissues(items: seq<Item>): seq<Config> {
    seq(|items|, k requires 0 <= k < |items| => Retried(items[k].config))
  }

  /** How the drain settles one queued request: with the refresh error, or with the reply to its reissue. */
  function DrainEntry(item: Item, error: Option<Failure>, net: nat -> Reply, call: nat): Settled {
    if error.Some? then Settled(item.id, Rejected(error.value))
    else Settled(item.id, Settle(Answer(net(call), Retried(item.config))))
  }

  /** The drain of `items`; without an error the k-th reissue is request `base + k`. */
  function DrainEntries(items: seq<Item>, error: Option<Failure>, net: nat -> Reply, base: nat): seq<Settled> {
    seq(|items|, k requires 0 <= k < |items| => DrainEntry(items[k], error, net, base + k))
  }

  lemma AppendAssoc<T>(a: seq<T>, b: seq<T>, c: seq<T>)
    ensures a + (b + c) == a + b + c
  {
  }

  lemma DrainEntriesSnoc(items: seq<Item>, n: nat, error: Option<Failure>, net: nat -> Reply, base: nat)
    requires n < |items|
    ensures DrainEntries(items[..n + 1], error, net, base)
         == DrainEntries(items[..n], error, net, base) + [DrainEntry(items[n], error, net, base + n)]
  {
  }

  lemma ReissuesSnoc(items: seq<Item>, n: nat)
    requires n < |items|
    ensures Reissues(items[..n + 1]) == Reissues(items[..n]) + [Retried(items[n].config)]
  {
  }

  /** One more drained request extends the settlement log by its entry. */
  lemma DrainLogStep(log: seq<Settled>, items: seq<Item>, n: nat, error: Option<Failure>, net: nat -> Reply, base: nat)
    requires n < |items|
    ensures log + DrainEntries(items[..n], error, net, base) + [DrainEntry(items[n], error, net, base + n)]
         == log + DrainEntries(items[..n + 1], error, net, base)
  {
    DrainEntriesSnoc(items, n, error, net, base);
    AppendAssoc(log, DrainEntries(items[..n], error, net, base), [DrainEntry(items[n], error, net, base + n)]);
  }

  /** One more reissued request extends the send log by its config. */
  lemma ReissueLogStep(log: seq<Config>, items: seq<Item>, n: nat)
    requires n < |items|
    ensures log + Reissues(items[..n]) + [Retried(items[n].config)] == log + Reissues(items[..n + 1])
  {
    ReissuesSnoc(items, n);
    AppendAssoc(log, Reissues(items[..n]), [Retried(items[n].config)]);
  }

  /** With an error every queued request is rejected with it, in queue order, and nothing is sent. */
  lemma DrainWithError(items: seq<Item>, e: Failure, net: nat -> Reply, base: nat)
    ensures |DrainEntries(items, Some(e), net, base)| == |items|
    ensures forall k :: 0 <= k < |items| ==> DrainEntries(items, Some(e), net, base)[k] == Settled(items[k].id, Rejected(e))
  {
  }

  /** `forceRefresh` callers that joined the refresh all get its outcome. */
  function JoinerEntries(joiners: seq<nat>, result: Outcome): seq<Settled> {
    seq(|joiners|, k requires 0 <= k < |joiners| => Settled(joiners[k], Settle(result)))
  }

  /** What the starter does once `refreshToken` has returned or thrown. */
  function Resumption(starter: Starter, result: Outcome, net: nat -> Reply, call: nat): seq<Settled> {
    match starter
    case Silent => []
    case Forced(id) => [Settled(id, Settle(result))]
    case Reissue(id, config) =>
      if result.Ok? then [Settled(id, Settle(Answer(net(call), Retried(config))))]
      else [Settled(id, Settle(result))]
  }

  function ResumedSends(starter: Starter, result: Outcome): seq<Config> {
    if starter.Reissue? && result.Ok? then [Retried(starter.config)] else []
  }

  /**
   * What a settled refresh sends after its attempts, in order: the reissues
   * of the drain when it succeeded, then the starter's reissue.
   */
  function WoundSends(call: InFlight, queued: seq<Item>, result: Outcome): seq<Config> {
    (if result.Ok? then Reissues(queued) else []) + ResumedSends(call.starter, result)
  }

  /**
   * How a settled refresh settles promises, in order: its joiners, the drain
   * of the queue whose first reissue is request `base`, then its starter.
   */
  function RefreshSettlements(call: InFlight, queued: seq<Item>, result: Outcome, net: nat -> Reply, base: nat): seq<Settled> {
    JoinerEntries(call.joiners, result)
    + DrainEntries(queued, ErrorOf(result), net, base)
    + Resumption(call.starter, result, net, base + (if result.Ok? then |queued| else 0))
  }

  class EnterpriseTokenManager {
    const settings: Settings
    const skipEndpoints: seq<string>
    const publicEndpoints: seq<string>
    /** `typeof window !== "undefined"`: only then is there a broadcast channel and a session to end. */
    const isClient: bool
    const net: nat -> Reply
    const failedQueue: PriorityQueue
    const circuitBreaker: CircuitBreaker

    var isRefreshing: bool
    var refreshCall: Option<InFlight>
    var lastRefreshTime: Option<int>
    /** Every request the manager has sent, in order. */
    var sent: seq<Config>
    /** Every promise the manager has settled, in order. */
    var settled: seq<Settled>
    /** The number the next handed-out promise gets. */
    var nextId: nat
    /** How many `TOKEN_REFRESHED` messages were posted to other tabs. */
    var broadcasts: nat
    /** How many times `handleCriticalAuthFailure` ended the session. */
    var sessionEnds: nat

    /** The invariant that holds at every point, also while a settled refresh is being wound up. */
    ghost predicate ValidCore()
      reads this, failedQueue, circuitBreaker
    {
      failedQueue.Valid() && circuitBreaker.Valid()
      && failedQueue.maxSize == settings.maxQueueSize
      && circuitBreaker.failureThreshold == settings.failureThreshold
      && circuitBreaker.timeout == settings.timeout
      && (isRefreshing <==> refreshCall.Some?)
      && AllFinal(settled)
    }

    /** Between calls also: a refresh the breaker admitted finds it not OPEN. */
    ghost predicate Valid()
      reads this, failedQueue, circuitBreaker
    {
      ValidCore()
      && (refreshCall.Some? && refreshCall.value.admitted ==> circuitBreaker.state != Open)
    }

    constructor (config: TokenManagerConfig, skipEndpoints: seq<string>, publicEndpoints: seq<string>,
                 isClient: bool, net: nat -> Reply, now: int)
      ensures Valid() && fresh(failedQueue) && fresh(circuitBreaker)
      ensures settings == Resolve(config) && this.net == net && this.isClient == isClient
      ensures this.skipEndpoints == skipEndpoints && this.publicEndpoints == publicEndpoints
      ensures failedQueue.Contents() == NoTiers && failedQueue.maxSize == settings.maxQueueSize
      ensures circuitBreaker.state == Closed && circuitBreaker.failureCount == 0
      ensures !isRefreshing && refreshCall.None? && lastRefreshTime.None?
      ensures sent == [] && settled == [] && nextId == 0 && broadcasts == 0 && sessionEnds == 0
    {
      var s := Resolve(config);
      settings := s;
      this.skipEndpoints := skipEndpoints;
      this.publicEndpoints := publicEndpoints;
      this.isClient := isClient;
      this.net := net;
      failedQueue := new PriorityQueue(s.maxQueueSize);
      circuitBreaker := new CircuitBreaker(s.failureThreshold, s.timeout, now);
      isRefreshing := false;
      refreshCall := None;
      lastRefreshTime := None;
      sent := [];
      settled := [];
      nextId := 0;
      broadcasts := 0;
      sessionEnds := 0;
    }

    /** The failures `handleError` takes over: a config, an intercepted URL, an auth error, and no `_retry`. */
    predicate Intercepts(e: Failure) {
      ConfigOf(e).Some? && ShouldIntercept(ConfigOf(e).value.url, publicEndpoints, skipEndpoints)
      && IsAuthError(e) && !ConfigOf(e).value.retry
    }

    /** What a new refresh sends at once: the first `/refresh` POST, when the breaker admits it and the loop runs at all. */
    function FirstSend(admitted: bool): seq<Config> {
      if admitted && settings.maxRetries >= 0 then [RefreshConfig] else []
    }

    /**
     * `refreshToken` up to its first `await` (lines 332-349): while a refresh
     * is in flight the caller joins it and nothing is sent; otherwise
     * `isRefreshing` is set, the breaker's gate decides whether the refresh
     * runs, and an admitted refresh sends its first POST at once, as
     * `circuitBreaker.call` and `exponentialBackoff` call their `fn` before
     * they first await. Only `forceRefresh` can call it while a refresh is in
     * flight, since the other callers test `isRefreshing` first.
     */
    method RefreshToken(now: int, starter: Starter)
      requires Valid()
      requires isRefreshing ==> starter.Forced?
      modifies this`isRefreshing, this`refreshCall, this`sent, circuitBreaker`state
      ensures Valid() && isRefreshing
      ensures old(isRefreshing) ==>
        refreshCall == Some(old(refreshCall.value).(joiners := old(refreshCall.value.joiners) + [starter.id]))
        && sent == old(sent) && circuitBreaker.state == old(circuitBreaker.state)
      ensures !old(isRefreshing) ==>
        refreshCall == Some(InFlight(starter, old(circuitBreaker.Admits(now)), old(|sent|), []))
        && sent == old(sent) + FirstSend(old(circuitBreaker.Admits(now)))
      ensures !old(isRefreshing) && old(circuitBreaker.Admits(now)) ==>
        circuitBreaker.state == (if old(circuitBreaker.state) == Open then HalfOpen else old(circuitBreaker.state))
      ensures !old(circuitBreaker.Admits(now)) ==> circuitBreaker.state == old(circuitBreaker.state)
    {
      if isRefreshing {
        var call := refreshCall.value;
        refreshCall := Some(call.(joiners := call.joiners + [starter.id]));
        return;
      }
      isRefreshing := true;
      var admitted := circuitBreaker.Enter(now);
      var first := |sent|;
      sent := sent + FirstSend(admitted);
      refreshCall := Some(InFlight(starter, admitted, first, []));
    }

    /**
     * One turn of the `processQueue` loop (lines 311-328): take the next
     * request; with an error reject it, otherwise reissue it with `_retry`
     * set and settle it with the reply.
     */
    method DrainStep(error: Option<Failure>) returns (it: Item)
      requires ValidCore() && Order(failedQueue.Contents()) != []
      requires error.Some? ==> Final(Rejected(error.value))
      modifies this`settled, this`sent, failedQueue
      ensures ValidCore()
      ensures it == old(Order(failedQueue.Contents()))[0]
      ensures Order(failedQueue.Contents()) == old(Order(failedQueue.Contents()))[1..]
      ensures settled == old(settled) + [DrainEntry(it, error, net, old(|sent|))]
      ensures sent == old(sent) + (if error.None? then [Retried(it.config)] else [])
    {
      TakeIsHeadOfOrder(failedQueue.Contents());
      var item := failedQueue.GetNext();
      it := item.value;
      if error.Some? {
        AllFinalSnoc(settled, Settled(it.id, Rejected(error.value)));
        settled := settled + [Settled(it.id, Rejected(error.value))];
      } else {
        var reply := net(|sent|);
        sent := sent + [Retried(it.config)];
        RetriedAnswerFinal(reply, it.config);
        AllFinalSnoc(settled, Settled(it.id, Settle(Answer(reply, Retried(it.config)))));
        settled := settled + [Settled(it.id, Settle(Answer(reply, Retried(it.config))))];
      }
    }

    /**
     * `processQueue` (lines 309-330): take the next request until the queue
     * is empty; with an error reject each with it, otherwise reissue each
     * with `_retry` set and settle it with the reply.
     */
    method ProcessQueue(error: Option<Failure>)
      requires ValidCore()
      requires error.Some? ==> Final(Rejected(error.value))
      modifies this`settled, this`sent, failedQueue
      ensures ValidCore()
      ensures failedQueue.Contents() == NoTiers
      ensures settled == old(settled) + DrainEntries(Order(old(failedQueue.Contents())), error, net, old(|sent|))
      ensures sent == old(sent) + (if error.None? then Reissues(Order(old(failedQueue.Contents()))) else [])
    {
      ghost var items := Order(failedQueue.Contents());
      ghost var done: nat := 0;
      while !failedQueue.IsEmpty()
        invariant ValidCore()
        invariant done <= |items| && Order(failedQueue.Contents()) == items[done..]
        invariant settled == old(settled) + DrainEntries(items[..done], error, net, old(|sent|))
        invariant sent == old(sent) + (if error.None? then Reissues(items[..done]) else [])
        invariant error.None? ==> |sent| == old(|sent|) + done
        decreases |items| - done
      {
        ghost var sentBefore := |sent|;
        var it := DrainStep(error);
        assert it == items[done];
        assert DrainEntry(it, error, net, sentBefore) == DrainEntry(items[done], error, net, old(|sent|) + done);
        DrainLogStep(old(settled), items, done, error, net, old(|sent|));
        ReissueLogStep(old(sent), items, done);
        done := done + 1;
        assert items[done..] == items[done - 1..][1..];
      }
      assert items[..done] == items;
      assert Order(failedQueue.Contents()) == [];
    }

    /**
     * The breaker-wrapped `exponentialBackoff` over `/refresh` (lines 340-349)
     * once it settles: an admitted refresh has sent its later attempts and
     * reports to the breaker (lines 39-60); a refused one fails with
     * `OpenMessage`, has sent nothing and leaves the breaker as it was.
     */
    method RunRefresh(now: int) returns (result: Outcome, calls: nat)
      requires Valid() && isRefreshing
      modifies this`sent, circuitBreaker
      ensures ValidCore()
      ensures (result, calls)
        == RefreshRun(refreshCall.value.admitted, net, refreshCall.value.first, old(|sent|), settings.maxRetries)
      ensures Final(Settle(result))
      ensures sent == old(sent) + Repeat(RefreshConfig, Later(calls))
      ensures refreshCall.value.admitted && result.Ok? ==>
        circuitBreaker.state == Closed && circuitBreaker.failureCount == 0
        && circuitBreaker.nextAttempt == old(circuitBreaker.nextAttempt)
      ensures refreshCall.value.admitted && result.Err? ==>
        circuitBreaker.failureCount == old(circuitBreaker.failureCount) + 1
      ensures refreshCall.value.admitted && result.Err? && circuitBreaker.failureCount >= settings.failureThreshold ==>
        circuitBreaker.state == Open && circuitBreaker.nextAttempt == now + settings.timeout
      ensures refreshCall.value.admitted && result.Err? && circuitBreaker.failureCount < settings.failureThreshold ==>
        circuitBreaker.state == old(circuitBreaker.state) == Closed
        && circuitBreaker.nextAttempt == old(circuitBreaker.nextAttempt)
      ensures refreshCall.value.admitted && result.Err? && old(circuitBreaker.state) == HalfOpen ==>
        circuitBreaker.state == Open
      ensures !refreshCall.value.admitted ==>
        circuitBreaker.state == old(circuitBreaker.state) && circuitBreaker.failureCount == old(circuitBreaker.failureCount)
        && circuitBreaker.nextAttempt == old(circuitBreaker.nextAttempt)
    {
      if refreshCall.value.admitted {
        result, calls := SendRefreshes();
        Report(now, result);
      } else {
        result, calls := Err(Plain(OpenMessage)), 0;
      }
    }

    /** The refresh POSTs of an admitted run, under `retryRequest`'s exponential backoff. */
    method SendRefreshes() returns (result: Outcome, calls: nat)
      requires ValidCore() && isRefreshing
      modifies this`sent
      ensures ValidCore()
      ensures (result, calls) == RefreshRun(true, net, refreshCall.value.first, old(|sent|), settings.maxRetries)
      ensures sent == old(sent) + Repeat(RefreshConfig, Later(calls))
      ensures Final(Settle(result))
    {
      RefreshErrorFinal(true, net, refreshCall.value.first, |sent|, settings.maxRetries);
      var delays;
      result, calls, delays :=
        Backoff(RefreshAttempt(net, refreshCall.value.first, |sent|), settings.maxRetries, settings.baseDelay, RefreshPolicy);
      sent := sent + Repeat(RefreshConfig, Later(calls));
    }

    /** The breaker's verdict on an admitted refresh run: `success()` or `failure()`. */
    method Report(now: int, result: Outcome)
      requires ValidCore() && circuitBreaker.state != Open
      modifies circuitBreaker
      ensures ValidCore()
      ensures result.Ok? ==>
        circuitBreaker.state == Closed && circuitBreaker.failureCount == 0
        && circuitBreaker.nextAttempt == old(circuitBreaker.nextAttempt)
      ensures result.Err? ==> circuitBreaker.failureCount == old(circuitBreaker.failureCount) + 1
      ensures result.Err? && circuitBreaker.failureCount >= settings.failureThreshold ==>
        circuitBreaker.state == Open && circuitBreaker.nextAttempt == now + settings.timeout
      ensures result.Err? && circuitBreaker.failureCount < settings.failureThreshold ==>
        circuitBreaker.state == old(circuitBreaker.state) == Closed
        && circuitBreaker.nextAttempt == old(circuitBreaker.nextAttempt)
      ensures result.Err? && old(circuitBreaker.state) == HalfOpen ==> circuitBreaker.state == Open
    {
      if result.Ok? {
        circuitBreaker.Success();
      } else {
        circuitBreaker.Failure(now);
      }
    }

    /**
     * The `try`/`catch` of `refreshToken` (lines 351-363): on success drain the
     * queue by reissuing, record the time and tell other tabs; on failure
     * drain it by rejecting, and a 401 ends the session.
     */
    method WindUp(now: int, result: Outcome)
      requires ValidCore() && Final(Settle(result))
      modifies this`sent, this`settled, this`lastRefreshTime, this`broadcasts, this`sessionEnds, failedQueue
      ensures ValidCore() && failedQueue.Contents() == NoTiers
      ensures settled == old(settled) + DrainEntries(Order(old(failedQueue.Contents())), ErrorOf(result), net, old(|sent|))
      ensures sent == old(sent) + (if result.Ok? then Reissues(Order(old(failedQueue.Contents()))) else [])
      ensures lastRefreshTime == if result.Ok? then Some(now) else old(lastRefreshTime)
      ensures broadcasts == old(broadcasts) + (if result.Ok? && isClient then 1 else 0)
      ensures sessionEnds == old(sessionEnds) + (if result.Err? && StatusOf(result.error) == Some(401) && isClient then 1 else 0)
    {
      if result.Ok? {
        ProcessQueue(None);
        lastRefreshTime := Some(now);
        if isClient {
          broadcasts := broadcasts + 1;
        }
      } else {
        ProcessQueue(Some(result.error));
        if StatusOf(result.error) == Some(401) && isClient {
          sessionEnds := sessionEnds + 1;
        }
      }
    }

    /**
     * The starter once `refreshToken` has returned or thrown: `handleError`
     * reissues its request with `_retry` set (lines 385-392) or passes the
     * refresh error on, `forceRefresh` hands the outcome to its caller, and
     * the silent refresh swallows it.
     */
    method Resume(starter: Starter, result: Outcome)
      requires ValidCore() && Final(Settle(result))
      modifies this`sent, this`settled
      ensures ValidCore()
      ensures settled == old(settled) + Resumption(starter, result, net, old(|sent|))
      ensures sent == old(sent) + ResumedSends(starter, result)
    {
      match starter {
        case Silent =>
        case Forced(id) =>
          settled := settled + [Settled(id, Settle(result))];
        case Reissue(id, config) =>
          if result.Ok? {
            var reply := net(|sent|);
            sent := sent + [Retried(config)];
            RetriedAnswerFinal(reply, config);
            settled := settled + [Settled(id, Settle(Answer(reply, Retried(config))))];
          } else {
            settled := settled + [Settled(id, Settle(result))];
          }
      }
    }

    /**
     * What `refreshToken` does once its refresh call has settled (lines
     * 351-367), and the starter's resumption: the `forceRefresh` callers that
     * joined get the outcome first, the queue is wound up, `isRefreshing` and
     * `refreshCall` are cleared in the `finally`, and then the starter resumes.
     */
    method FinishRefresh(now: int, result: Outcome)
      requires ValidCore() && isRefreshing && Final(Settle(result))
      modifies this`isRefreshing, this`refreshCall, this`lastRefreshTime, this`sent, this`settled
      modifies this`broadcasts, this`sessionEnds, failedQueue
      ensures Valid()
      ensures !isRefreshing && refreshCall.None? && failedQueue.Contents() == NoTiers
      ensures sent == old(sent) + WoundSends(old(refreshCall.value), Order(old(failedQueue.Contents())), result)
      ensures settled == old(settled) + RefreshSettlements(old(refreshCall.value), Order(old(failedQueue.Contents())), result, net, old(|sent|))
      ensures lastRefreshTime == if result.Ok? then Some(now) else old(lastRefreshTime)
      ensures broadcasts == old(broadcasts) + (if result.Ok? && isClient then 1 else 0)
      ensures sessionEnds == old(sessionEnds) + (if result.Err? && StatusOf(result.error) == Some(401) && isClient then 1 else 0)
    {
      var call := refreshCall.value;
      ghost var queued := Order(failedQueue.Contents());
      ghost var sent0 := sent;
      ghost var settled0 := settled;
      var joined := JoinerEntries(call.joiners, result);
      settled := settled + joined;
      WindUp(now, result);
      ghost var sent1 := sent;
      ghost var drained := DrainEntries(queued, ErrorOf(result), net, |sent0|);
      assert settled == settled0 + joined + drained;
      assert |sent1| == |sent0| + (if result.Ok? then |queued| else 0);
      isRefreshing := false;
      refreshCall := None;
      Resume(call.starter, result);
      ghost var resumed := Resumption(call.starter, result, net, |sent1|);
      AppendAssoc(settled0, joined, drained);
      AppendAssoc(settled0, joined + drained, resumed);
      AppendAssoc(sent0, if result.Ok? then Reissues(queued) else [], ResumedSends(call.starter, result));
    }

    /**
     * The rest of `refreshToken` once the refresh settles (lines 351-367):
     * the breaker-wrapped backoff settles, then `FinishRefresh`.
     */
    method CompleteRefresh(now: int) returns (result: Outcome)
      requires Valid() && isRefreshing
      modifies this`isRefreshing, this`refreshCall, this`lastRefreshTime, this`sent, this`settled
      modifies this`broadcasts, this`sessionEnds, failedQueue, circuitBreaker
      ensures Valid()
      ensures !isRefreshing && refreshCall.None? && failedQueue.Contents() == NoTiers
      ensures result == RefreshRun(old(refreshCall.value.admitted), net, old(refreshCall.value.first), old(|sent|), settings.maxRetries).0
      ensures var n := Later(RefreshRun(old(refreshCall.value.admitted), net, old(refreshCall.value.first), old(|sent|), settings.maxRetries).1);
        sent == old(sent) + Repeat(RefreshConfig, n) + WoundSends(old(refreshCall.value), Order(old(failedQueue.Contents())), result)
      ensures var n := Later(RefreshRun(old(refreshCall.value.admitted), net, old(refreshCall.value.first), old(|sent|), settings.maxRetries).1);
        settled == old(settled) + RefreshSettlements(old(refreshCall.value), Order(old(failedQueue.Contents())), result, net, old(|sent|) + n)
      ensures lastRefreshTime == if result.Ok? then Some(now) else old(lastRefreshTime)
      ensures broadcasts == old(broadcasts) + (if result.Ok? && isClient then 1 else 0)
      ensures sessionEnds == old(sessionEnds) + (if result.Err? && StatusOf(result.error) == Some(401) && isClient then 1 else 0)
      ensures old(refreshCall.value.admitted) && result.Ok? ==>
        circuitBreaker.state == Closed && circuitBreaker.failureCount == 0
        && circuitBreaker.nextAttempt == old(circuitBreaker.nextAttempt)
      ensures old(refreshCall.value.admitted) && result.Err? ==>
        circuitBreaker.failureCount == old(circuitBreaker.failureCount) + 1
      ensures old(refreshCall.value.admitted) && result.Err? && circuitBreaker.failureCount >= settings.failureThreshold ==>
        circuitBreaker.state == Open && circuitBreaker.nextAttempt == now + settings.timeout
      ensures old(refreshCall.value.admitted) && result.Err? && circuitBreaker.failureCount < settings.failureThreshold ==>
        circuitBreaker.state == old(circuitBreaker.state) == Closed
        && circuitBreaker.nextAttempt == old(circuitBreaker.nextAttempt)
      ensures old(refreshCall.value.admitted) && result.Err? && old(circuitBreaker.state) == HalfOpen ==>
        circuitBreaker.state == Open
      ensures !old(refreshCall.value.admitted) ==>
        circuitBreaker.state == old(circuitBreaker.state) && circuitBreaker.failureCount == old(circuitBreaker.failureCount)
        && circuitBreaker.nextAttempt == old(circuitBreaker.nextAttempt)
    {
      ghost var call := refreshCall.value;
      ghost var queued := Order(failedQueue.Contents());
      ghost var settled0 := settled;
      var calls;
      result, calls := RunRefresh(now);
      ghost var n := Later(calls);
      assert refreshCall.value == call && Order(failedQueue.Contents()) == queued && settled == settled0;
      ghost var sentMid := sent;
      assert |sentMid| == old(|sent|) + n;
      FinishRefresh(now, result);
      assert settled == settled0 + RefreshSettlements(call, queued, result, net, |sentMid|);
      assert sent == sentMid + WoundSends(call, queued, result);
    }

    /**
     * `handleError` up to its `await` (lines 370-399): a failure it does not
     * take over is rejected as it is. One it takes over while a refresh is
     * in flight is queued at its `_priority` (default normal), and a refused
     * enqueue rejects at once with `QueueFullMessage`; an evicted request is
     * rejected with `OverflowMessage`. Otherwise it starts the refresh, to be
     * reissued when the refresh settles.
     */
    method HandleError(now: int, error: Failure) returns (h: Handling)
      requires Valid()
      modifies this`nextId, this`settled, this`isRefreshing, this`refreshCall, this`sent, failedQueue, circuitBreaker`state
      ensures Valid()
      ensures !(Intercepts(error) && !old(isRefreshing)) ==> sent == old(sent)
      ensures !Intercepts(error) ==>
        h == Done(Err(error)) && nextId == old(nextId) && settled == old(settled)
        && isRefreshing == old(isRefreshing) && refreshCall == old(refreshCall)
        && failedQueue.Contents() == old(failedQueue.Contents()) && circuitBreaker.state == old(circuitBreaker.state)
      ensures Intercepts(error) ==> nextId == old(nextId) + 1 && isRefreshing
      ensures Intercepts(error) && old(isRefreshing) ==>
        var a := Admit(old(failedQueue.Contents()), settings.maxQueueSize,
                       Item(old(nextId), ConfigOf(error).value), TierOf(PriorityTag(ConfigOf(error).value)));
        failedQueue.Contents() == a.after
        && h == (if a.added then Pending(old(nextId)) else Done(Err(Plain(QueueFullMessage))))
        && settled == old(settled) + (if a.evicted.Some? then [Settled(a.evicted.value.id, Rejected(Plain(OverflowMessage)))] else [])
        && refreshCall == old(refreshCall) && circuitBreaker.state == old(circuitBreaker.state)
      ensures Intercepts(error) && !old(isRefreshing) ==>
        h == Pending(old(nextId)) && settled == old(settled)
        && failedQueue.Contents() == old(failedQueue.Contents())
        && refreshCall == Some(InFlight(Reissue(old(nextId), ConfigOf(error).value), old(circuitBreaker.Admits(now)), old(|sent|), []))
        && sent == old(sent) + FirstSend(old(circuitBreaker.Admits(now)))
      ensures Intercepts(error) && !old(isRefreshing) && old(circuitBreaker.Admits(now)) ==>
        circuitBreaker.state == (if old(circuitBreaker.state) == Open then HalfOpen else old(circuitBreaker.state))
      ensures Intercepts(error) && !old(circuitBreaker.Admits(now)) ==> circuitBreaker.state == old(circuitBreaker.state)
    {
      if !Intercepts(error) {
        return Done(Err(error));
      }
      var config := ConfigOf(error).value;
      var id := nextId;
      nextId := nextId + 1;
      if isRefreshing {
        var added, evicted := failedQueue.Add(Item(id, config), PriorityTag(config));
        if evicted.Some? {
          settled := settled + [Settled(evicted.value.id, Rejected(Plain(OverflowMessage)))];
        }
        if added {
          h := Pending(id);
        } else {
          h := Done(Err(Plain(QueueFullMessage)));
        }
      } else {
        RefreshToken(now, Reissue(id, config));
        h := Pending(id);
      }
    }

    /** Whether the silent refresh goes ahead (lines 402-408): not refreshing, a non-zero `lastRefreshTime`, and a full interval since. */
    predicate SilentDue(now: int)
      reads this
    {
      !isRefreshing && lastRefreshTime.Some? && lastRefreshTime.value != 0
      && now - lastRefreshTime.value >= settings.silentRefreshInterval
    }

    /** `refreshTokenSilently`: start a refresh whose outcome is swallowed, or do nothing at all. */
    method RefreshTokenSilently(now: int) returns (started: bool)
      requires Valid()
      modifies this`isRefreshing, this`refreshCall, this`sent, circuitBreaker`state
      ensures Valid()
      ensures started == old(SilentDue(now))
      ensures started ==>
        refreshCall == Some(InFlight(Silent, old(circuitBreaker.Admits(now)), old(|sent|), []))
        && sent == old(sent) + FirstSend(old(circuitBreaker.Admits(now)))
      ensures started && old(circuitBreaker.Admits(now)) ==>
        circuitBreaker.state == (if old(circuitBreaker.state) == Open then HalfOpen else old(circuitBreaker.state))
      ensures !old(circuitBreaker.Admits(now)) ==> circuitBreaker.state == old(circuitBreaker.state)
      ensures !started ==>
        isRefreshing == old(isRefreshing) && refreshCall == old(refreshCall)
        && sent == old(sent) && circuitBreaker.state == old(circuitBreaker.state)
    {
      started := SilentDue(now);
      if started {
        RefreshToken(now, Silent);
      }
    }

    /** `forceRefresh`: forget `lastRefreshTime`, then start a refresh or join the one in flight. */
    method ForceRefresh(now: int) returns (id: nat)
      requires Valid()
      modifies this`lastRefreshTime, this`nextId, this`isRefreshing, this`refreshCall, this`sent, circuitBreaker`state
      ensures Valid() && isRefreshing
      ensures lastRefreshTime.None? && id == old(nextId) && nextId == id + 1
      ensures old(isRefreshing) ==>
        refreshCall == Some(old(refreshCall.value).(joiners := old(refreshCall.value.joiners) + [id]))
        && sent == old(sent) && circuitBreaker.state == old(circuitBreaker.state)
      ensures !old(isRefreshing) ==>
        refreshCall == Some(InFlight(Forced(id), old(circuitBreaker.Admits(now)), old(|sent|), []))
        && sent == old(sent) + FirstSend(old(circuitBreaker.Admits(now)))
      ensures !old(isRefreshing) && old(circuitBreaker.Admits(now)) ==>
        circuitBreaker.state == (if old(circuitBreaker.state) == Open then HalfOpen else old(circuitBreaker.state))
      ensures !old(circuitBreaker.Admits(now)) ==> circuitBreaker.state == old(circuitBreaker.state)
    {
      lastRefreshTime := None;
      id := nextId;
      nextId := nextId + 1;
      RefreshToken(now, Forced(id));
    }

    /**
     * The `BroadcastChannel` handler (lines 272-277), installed only on a
     * client: `TOKEN_REFRESHED` from another tab drains the queue by
     * reissuing and records the time; any other message changes nothing.
     */
    method OnBroadcast(now: int, data: string)
      requires Valid()
      modifies this`settled, this`sent, this`lastRefreshTime, failedQueue
      ensures Valid()
      ensures isClient && data == TokenRefreshed ==>
        failedQueue.Contents() == NoTiers && lastRefreshTime == Some(now)
        && settled == old(settled) + DrainEntries(Order(old(failedQueue.Contents())), None, net, old(|sent|))
        && sent == old(sent) + Reissues(Order(old(failedQueue.Contents())))
      ensures !(isClient && data == TokenRefreshed) ==>
        settled == old(settled) && sent == old(sent) && lastRefreshTime == old(lastRefreshTime)
        && failedQueue.Contents() == old(failedQueue.Contents())
    {
      if isClient && data == TokenRefreshed {
        ProcessQueue(None);
        lastRefreshTime := Some(now);
      }
    }

    /** `clearQueue`: every waiting request is rejected with `ClearedMessage`, high to low, and the queue is empty. */
    method ClearQueue()
      requires Valid()
      modifies this`settled, failedQueue
      ensures Valid() && failedQueue.Contents() == NoTiers
      ensures |settled| == old(|settled|) + |Order(old(failedQueue.Contents()))| && settled[..old(|settled|)] == old(settled)
      ensures forall k :: 0 <= k < |Order(old(failedQueue.Contents()))| ==>
        settled[old(|settled|) + k] == Settled(Order(old(failedQueue.Contents()))[k].id, Rejected(Plain(ClearedMessage)))
    {
      var rejected := failedQueue.Clear();
      settled := settled + seq(|rejected|, k requires 0 <= k < |rejected| => Settled(rejected[k].id, Rejected(Plain(ClearedMessage))));
    }

    /** `getQueueSize`: the number of requests waiting for the refresh. */
    function GetQueueSize(): (n: int)
      requires Valid()
      reads this, failedQueue, circuitBreaker
      ensures n == |Order(failedQueue.Contents())|
    {
      failedQueue.GetSize()
    }
  }

  /**
   * The response interceptor's error handler (lines 502-533). A request
   * already marked `_retry` is rejected as it is. Otherwise the manager
   * handles the failure; a failure it rejects at once is retried through
   * `retryRequest` with three retries when `shouldRetryRequest` accepts it
   * and its config has no `_retry`. Since that retry is sent with `_retry`
   * set, it is sent at most once, and the interceptor settles with its reply.
   */
  method OnResponseError(m: EnterpriseTokenManager, now: int, error: Failure) returns (h: Handling)
    requires m.Valid()
    modifies m`nextId, m`settled, m`isRefreshing, m`refreshCall, m`sent, m.failedQueue, m.circuitBreaker`state
    ensures m.Valid()
    ensures |m.sent| <= old(|m.sent|) + 1
    ensures !m.Intercepts(error) ==>
      m.settled == old(m.settled) && m.nextId == old(m.nextId)
      && m.isRefreshing == old(m.isRefreshing) && m.refreshCall == old(m.refreshCall)
      && m.failedQueue.Contents() == old(m.failedQueue.Contents())
      && m.circuitBreaker.state == old(m.circuitBreaker.state)
    ensures ConfigOf(error).Some? && ConfigOf(error).value.retry ==> h == Done(Err(error)) && m.sent == old(m.sent)
    ensures !m.Intercepts(error) && ShouldRetryRequest(error) ==>
      h == Done(Answer(m.net(old(|m.sent|)), Retried(ConfigOf(error).value)))
      && m.sent == old(m.sent) + [Retried(ConfigOf(error).value)]
    ensures !m.Intercepts(error) && !ShouldRetryRequest(error) ==> h == Done(Err(error)) && m.sent == old(m.sent)
    ensures m.Intercepts(error) ==> m.isRefreshing && m.nextId == old(m.nextId) + 1
    ensures m.Intercepts(error) && old(m.isRefreshing) ==>
      var a := Admit(old(m.failedQueue.Contents()), m.settings.maxQueueSize,
                     Item(old(m.nextId), ConfigOf(error).value), TierOf(PriorityTag(ConfigOf(error).value)));
      m.failedQueue.Contents() == a.after
      && h == (if a.added then Pending(old(m.nextId)) else Done(Err(Plain(QueueFullMessage))))
      && m.settled == old(m.settled)
         + (if a.evicted.Some? then [Settled(a.evicted.value.id, Rejected(Plain(OverflowMessage)))] else [])
      && m.refreshCall == old(m.refreshCall) && m.sent == old(m.sent)
      && m.circuitBreaker.state == old(m.circuitBreaker.state)
    ensures m.Intercepts(error) && !old(m.isRefreshing) ==>
      h == Pending(old(m.nextId)) && m.settled == old(m.settled)
      && m.failedQueue.Contents() == old(m.failedQueue.Contents())
      && m.refreshCall == Some(InFlight(Reissue(old(m.nextId), ConfigOf(error).value), old(m.circuitBreaker.Admits(now)), old(|m.sent|), []))
      && m.sent == old(m.sent) + m.FirstSend(old(m.circuitBreaker.Admits(now)))
    ensures m.Intercepts(error) && !old(m.isRefreshing) && old(m.circuitBreaker.Admits(now)) ==>
      m.circuitBreaker.state == (if old(m.circuitBreaker.state) == Open then HalfOpen else old(m.circuitBreaker.state))
    ensures m.Intercepts(error) && !old(m.circuitBreaker.Admits(now)) ==>
      m.circuitBreaker.state == old(m.circuitBreaker.state)
  {
    if ConfigOf(error).Some? && ConfigOf(error).value.retry {
      return Done(Err(error));
    }
    h := m.HandleError(now, error);
    if h.Done? && h.outcome.Err? {
      var e := h.outcome.error;
      if ShouldRetryRequest(e) && ConfigOf(e).Some? && !ConfigOf(e).value.retry {
        var config := Retried(ConfigOf(e).value);
        var base := |m.sent|;
        var fn := (i: nat) => Answer(m.net(base + i), config);
        forall j: nat ensures fn(j).Err? ==> ConfigOf(fn(j).error).Some? && ConfigOf(fn(j).error).value.retry {
          assert fn(j) == Answer(m.net(base + j), config);
        }
        RetriedCallsOnce(fn, 3);
        var r, calls, delays := Backoff(fn, 3, 500, GeneralPolicy);
        m.sent := m.sent + Repeat(config, calls);
        h := Done(r);
      }
    }
  }
}

/**
 * Three requests fail with 401 at once under the default settings: the
 * first starts the one refresh, the others wait in the queue; once the
 * refresh succeeds the high-priority request is reissued first, then the
 * normal one, and then the request that started the refresh. A silent
 * refresh right afterwards does nothing; one a full interval later starts.
 */
module TokenManagerScenarios {
  import opened Wrappers
  import opened Http
  import opened Text
  import opened TokenManager
  import opened RequestQueue
  import opened CircuitBreakers

  lemma SlashFreeAuthError(url: string, httpMethod: string, priority: Option<string>)
    requires url != [] && '/' !in url
    ensures var e := AxiosError(Some(Config(Some(url), Some(httpMethod), false, priority)), Some(401), None);
      IsAuthError(e) && ShouldIntercept(Some(url), PublicEndpoints, SkipEndpoints)
  {
    DefaultInterceptIff(url);
    AbsentChar(url, "/login", '/');
    AbsentChar(url, "/public", '/');
  }

  /** Under the default settings and a transport that always answers 200, a first 401 starts the refresh. */
  method OneUnauthorized(now: int) returns (m: EnterpriseTokenManager)
    ensures fresh(m) && fresh(m.failedQueue) && fresh(m.circuitBreaker) && m.Valid()
    ensures m.settings == Resolve(TokenManagerConfig(None, None, None, None, None, None)) && m.isClient
    ensures forall k: nat :: m.net(k) == Delivered(Response(200))
    ensures m.skipEndpoints == SkipEndpoints && m.publicEndpoints == PublicEndpoints
    ensures m.sent == [RefreshConfig] && m.broadcasts == 0 && m.nextId == 1
    ensures m.refreshCall == Some(InFlight(Reissue(0, Config(Some("users"), Some("get"), false, None)), true, 0, []))
    ensures m.failedQueue.Contents() == NoTiers
  {
    var defaults := TokenManagerConfig(None, None, None, None, None, None);
    m := new EnterpriseTokenManager(defaults, SkipEndpoints, PublicEndpoints, true, (k: nat) => Delivered(Response(200)), now);
    var c1 := Config(Some("users"), Some("get"), false, None);
    SlashFreeAuthError("users", "get", None);
    var h1 := OnResponseError(m, now, AxiosError(Some(c1), Some(401), None));
    assert h1 == Pending(0) && m.refreshCall.value.starter == Reissue(0, c1);
  }

  /**
   * Three requests fail with 401 under the default settings and a transport
   * that always answers 200: the first starts the refresh and sends its first
   * POST at once, the other two wait in the queue, the high-priority one first.
   */
  method ThreeUnauthorized(now: int) returns (m: EnterpriseTokenManager)
    ensures fresh(m) && fresh(m.failedQueue) && fresh(m.circuitBreaker) && m.Valid()
    ensures m.settings == Resolve(TokenManagerConfig(None, None, None, None, None, None)) && m.isClient
    ensures forall k: nat :: m.net(k) == Delivered(Response(200))
    ensures m.sent == [RefreshConfig] && m.broadcasts == 0
    ensures m.refreshCall == Some(InFlight(Reissue(0, Config(Some("users"), Some("get"), false, None)), true, 0, []))
    ensures Order(m.failedQueue.Contents())
      == [Item(1, Config(Some("orders"), Some("get"), false, Some("high"))), Item(2, Config(Some("items"), Some("get"), false, None))]
  {
    m := OneUnauthorized(now);
    var c2 := Config(Some("orders"), Some("get"), false, Some("high"));
    var c3 := Config(Some("items"), Some("get"), false, None);
    SlashFreeAuthError("orders", "get", Some("high"));
    SlashFreeAuthError("items", "get", None);
    var h2 := OnResponseError(m, now, AxiosError(Some(c2), Some(401), None));
    assert h2 == Pending(1);
    var h3 := OnResponseError(m, now, AxiosError(Some(c3), Some(401), None));
    assert h3 == Pending(2);
  }

  /**
   * Once the refresh succeeds the high-priority request is reissued first,
   * then the normal one, and then the request that started the refresh.
   */
  method SingleFlightScenario(now: int) {
    var m := ThreeUnauthorized(now);
    var c1 := Config(Some("users"), Some("get"), false, None);
    var c2 := Config(Some("orders"), Some("get"), false, Some("high"));
    var c3 := Config(Some("items"), Some("get"), false, None);
    FirstRefreshSettles(m.net, 0, 1, m.settings.maxRetries);
    assert Reissues(Order(m.failedQueue.Contents())) == [Retried(c2), Retried(c3)];
    assert Repeat(RefreshConfig, Later(1)) == [];

    var r := m.CompleteRefresh(now);
    assert r == Ok(Response(200));
    assert m.sent == [RefreshConfig, Retried(c2), Retried(c3), Retried(c1)];
    assert m.lastRefreshTime == Some(now) && m.broadcasts == 1 && !m.isRefreshing;
  }

  /**
   * With a threshold of one failure and no retries, a forced refresh
   * answered 503 opens the breaker for the default 30 seconds.
   */
  method BreakerOpened(now: int) returns (m: EnterpriseTokenManager)
    ensures fresh(m) && fresh(m.failedQueue) && fresh(m.circuitBreaker) && m.Valid() && !m.isRefreshing
    ensures m.settings == Resolve(TokenManagerConfig(Some(1), None, Some(0), None, None, None))
    ensures m.sent == [RefreshConfig]
    ensures m.circuitBreaker.failureCount == 1
    ensures m.circuitBreaker.state == Open && m.circuitBreaker.nextAttempt == now + 30000
  {
    var config := TokenManagerConfig(Some(1), None, Some(0), None, None, None);
    m := new EnterpriseTokenManager(config, SkipEndpoints, PublicEndpoints, true, (k: nat) => Failed(Some(503), None), now);
    var id := m.ForceRefresh(now);
    assert m.sent == [RefreshConfig] && m.refreshCall.value == InFlight(Forced(id), true, 0, []);
    FirstRefreshSettles(m.net, 0, 1, m.settings.maxRetries);
    var r := m.CompleteRefresh(now);
    assert r.Err?;
  }

  /** A forced refresh a moment after the breaker opened is refused with `OpenMessage` and sends nothing. */
  method BreakerScenario(now: int) {
    var m := BreakerOpened(now);
    var id := m.ForceRefresh(now + 1);
    assert !m.refreshCall.value.admitted && m.sent == [RefreshConfig];
    var r := m.CompleteRefresh(now + 1);
    assert r == Err(Plain(OpenMessage)) && m.sent == [RefreshConfig];
    assert m.circuitBreaker.state == Open;
  }

  /**
   * Under the default settings and a transport that always answers 200, no
   * silent refresh is due before the first refresh has succeeded; a forced
   * refresh that succeeds at `now` records `now` as the last refresh time.
   */
  method ForcedRefreshDone(now: int) returns (m: EnterpriseTokenManager)
    requires now != 0
    ensures fresh(m) && fresh(m.failedQueue) && fresh(m.circuitBreaker) && m.Valid()
    ensures m.settings == Resolve(TokenManagerConfig(None, None, None, None, None, None))
    ensures !m.isRefreshing && m.lastRefreshTime == Some(now) && m.circuitBreaker.state == Closed
  {
    var defaults := TokenManagerConfig(None, None, None, None, None, None);
    m := new EnterpriseTokenManager(defaults, SkipEndpoints, PublicEndpoints, true, (k: nat) => Delivered(Response(200)), now);
    var started := m.RefreshTokenSilently(now);
    assert !started;
    var id := m.ForceRefresh(now);
    assert m.refreshCall.value == InFlight(Forced(id), true, 0, []) && m.sent == [RefreshConfig];
    FirstRefreshSettles(m.net, 0, 1, m.settings.maxRetries);
    var r := m.CompleteRefresh(now);
    assert m.settled == [Settled(id, Resolved(Response(200)))];
  }

  /** After that, a silent refresh is not due one second later, and is due five minutes later. */
  method SilentRefreshScenario(now: int)
    requires now != 0
  {
    var m := ForcedRefreshDone(now);
    var started := m.RefreshTokenSilently(now + 1000);
    assert !started;
    started := m.RefreshTokenSilently(now + 300000);
    assert started && m.refreshCall.value.starter == Silent;
  }
}
