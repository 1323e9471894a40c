/**
 * The retry policies of src/interceptor/api.ts: `exponentialBackoff`
 * (lines 159-182), which retries the refresh call, and `retryRequest`
 * (lines 205-224) with its eligibility test `shouldRetryRequest` (lines
 * 185-203). Both are one counted loop that differs only in the test that
 * decides whether a failure is worth another attempt.
 */
module Retry {
  import opened Wrappers
  import opened Http
  import opened Text

  /** `exponentialBackoff` retries by `RefreshPolicy`, `retryRequest` by `GeneralPolicy`. */
  datatype Policy = RefreshPolicy | GeneralPolicy

  const IdempotentMethods: seq<string> := ["get", "head", "options", "put", "patch"]
  const Aborted := "ECONNABORTED"
  const NetworkError := "NETWORK_ERROR"

  /**
   * `shouldRetryRequest`, with line 189 read as `return false`: no config, a
   * request already retried, or a method outside the idempotent ones is
   * never retried; otherwise a missing response, a 5xx, a timeout or
   * network code, or a 429 is.
   */
  function ShouldRetryRequest(e: Failure): bool {
    match ConfigOf(e)
    case None => false
    case Some(config) =>
      if config.retry then false
      else if ToLower(config.httpMethod.GetOr("")) !in IdempotentMethods then false
      else
        StatusOf(e).None?
        || (500 <= StatusOf(e).value < 600)
        || CodeOf(e) == Some(Aborted)
        || CodeOf(e) == Some(NetworkError)
        || StatusOf(e).value == 429
  }

  /** What evaluating `shouldRetryRequest` can do as written: return, or throw. */
  datatype Evaluation = Returns(value: bool) | ThrowsReferenceError(name: string)

  /** `shouldRetryRequest` exactly as written: line 189 evaluates the undefined identifier `fal`. */
  function ShouldRetryRequestAsWritten(e: Failure): Evaluation {
    match ConfigOf(e)
    case None => Returns(false)
    case Some(config) =>
      if config.retry then ThrowsReferenceError("fal")
      else if ToLower(config.httpMethod.GetOr("")) !in IdempotentMethods then Returns(false)
      else Returns(
        StatusOf(e).None?
        || (500 <= StatusOf(e).value < 600)
        || CodeOf(e) == Some(Aborted)
        || CodeOf(e) == Some(NetworkError)
        || StatusOf(e).value == 429)
  }

  /** As written, a failed GET already marked `_retry` makes the test throw where `false` was meant. */
  lemma RetryFlagThrowsAsWritten()
    ensures var e := AxiosError(Some(Config(Some("/users"), Some("get"), true, None)), Some(503), None);
      ShouldRetryRequestAsWritten(e) == ThrowsReferenceError("fal") && !ShouldRetryRequest(e)
  {
  }

  /** As intended, a request already marked `_retry` is never retried again. */
  lemma RetryFlagNeverRetried(e: Failure)
    requires ConfigOf(e).Some? && ConfigOf(e).value.retry
    ensures !ShouldRetryRequest(e)
  {
  }

  /** Apart from `_retry`-flagged configs the code as written and the intended reading agree. */
  lemma AsWrittenAgreesWithoutFlag(e: Failure)
    requires ConfigOf(e).None? || !ConfigOf(e).value.retry
    ensures ShouldRetryRequestAsWritten(e) == Returns(ShouldRetryRequest(e))
  {
  }

  /** A POST is never retried, whatever the failure; a GET answered with 503 is. */
  lemma RetryScenarios(url: Option<string>)
    ensures !ShouldRetryRequest(AxiosError(Some(Config(url, Some("POST"), false, None)), Some(500), None))
    ensures ShouldRetryRequest(AxiosError(Some(Config(url, Some("GET"), false, None)), Some(503), None))
  {
    assert ToLower("POST") == "post";
    assert ToLower("GET") == "get";
  }

  /** Whether the loop goes on after a failed attempt that was not the last. */
  predicate Retryable(policy: Policy, e: Failure) {
    match policy
    case RefreshPolicy => !(StatusOf(e).Some? && StatusOf(e).value != 0 && StatusOf(e).value < 500)
    case GeneralPolicy => ShouldRetryRequest(e)
  }

  /** The errors after the loop, reached only when `maxRetries` is negative. */
  function Exhausted(policy: Policy): Failure {
    match policy
    case RefreshPolicy => Plain("Max retries exceeded")
    case GeneralPolicy => Plain("Retry failed")
  }

  function Pow2(n: nat): (r: nat)
    ensures r >= 1
  {
    if n == 0 then 1 else 2 * Pow2(n - 1)
  }

  /** The loop from attempt `i` on: how the promise settles and how many calls of `fn` were made in all. */
  function Run(fn: nat -> Outcome, policy: Policy, maxRetries: int, i: nat): (Outcome, nat)
    decreases maxRetries - i
  {
    if i > maxRetries then (Err(Exhausted(policy)), i)
    else if fn(i).Ok? || i == maxRetries || !Retryable(policy, fn(i).error) then (fn(i), i + 1)
    else Run(fn, policy, maxRetries, i + 1)
  }

  /**
   * The loop of both policies: attempt `i` calls `fn(i)`; a success is
   * returned, a failure is rethrown when it is the last attempt or the
   * policy does not retry it, and otherwise the loop waits
   * `baseDelay * 2^i` milliseconds (plus jitter) before attempt `i + 1`.
   */
  method Backoff(fn: nat -> Outcome, maxRetries: int, baseDelay: int, policy: Policy)
    returns (r: Outcome, calls: nat, delays: seq<int>)
    ensures (r, calls) == Run(fn, policy, maxRetries, 0)
    ensures |delays| == if calls == 0 then 0 else calls - 1
    ensures forall j :: 0 <= j < |delays| ==> delays[j] == baseDelay * Pow2(j)
  {
    delays := [];
    var i: nat := 0;
    while i <= maxRetries
      invariant i == 0 || i <= maxRetries
      invariant Run(fn, policy, maxRetries, i) == Run(fn, policy, maxRetries, 0)
      invariant |delays| == i
      invariant forall j :: 0 <= j < i ==> delays[j] == baseDelay * Pow2(j)
      decreases maxRetries - i
    {
      var attempt := fn(i);
      if attempt.Ok? || i == maxRetries || !Retryable(policy, attempt.error) {
        return attempt, i + 1, delays;
      }
      ghost var before := delays;
      delays := delays + [baseDelay * Pow2(i)];
      assert forall j :: 0 <= j < i ==> delays[j] == before[j];
      i := i + 1;
    }
    return Err(Exhausted(policy)), 0, [];
  }

  /** From attempt `i`, at most `maxRetries + 1` calls in all, and at least one more. */
  lemma {:induction false} RunBound(fn: nat -> Outcome, policy: Policy, maxRetries: int, i: nat)
    requires i <= maxRetries
    ensures i + 1 <= Run(fn, policy, maxRetries, i).1 <= maxRetries + 1
    decreases maxRetries - i
  {
    if !(fn(i).Ok? || i == maxRetries || !Retryable(policy, fn(i).error)) {
      RunBound(fn, policy, maxRetries, i + 1);
    }
  }

  lemma {:induction false} RunFrom(fn: nat -> Outcome, policy: Policy, maxRetries: int, i: nat)
    requires i <= maxRetries
    requires forall j :: 0 <= j < i ==> fn(j).Err? && Retryable(policy, fn(j).error)
    ensures var (r, n) := Run(fn, policy, maxRetries, i);
      i + 1 <= n && r == fn(n - 1)
      && (forall j :: 0 <= j < n - 1 ==> fn(j).Err? && Retryable(policy, fn(j).error))
      && (fn(n - 1).Ok? || n - 1 == maxRetries || !Retryable(policy, fn(n - 1).error))
    decreases maxRetries - i
  {
    if !(fn(i).Ok? || i == maxRetries || !Retryable(policy, fn(i).error)) {
      RunFrom(fn, policy, maxRetries, i + 1);
    }
  }

  /** From attempt `i` on, the loop's outcome is that of the last call it makes. */
  lemma {:induction false} RunLast(fn: nat -> Outcome, policy: Policy, maxRetries: int, i: nat)
    requires i <= maxRetries
    ensures i < Run(fn, policy, maxRetries, i).1
    ensures Run(fn, policy, maxRetries, i).0 == fn(Run(fn, policy, maxRetries, i).1 - 1)
    decreases maxRetries - i
  {
    if !(fn(i).Ok? || i == maxRetries || !Retryable(policy, fn(i).error)) {
      RunLast(fn, policy, maxRetries, i + 1);
    }
  }

  /**
   * What the loop returns: with `maxRetries >= 0`, the outcome of the last
   * call made, every earlier call having failed in a way the policy
   * retries, and the last one being a success, the final attempt, or a
   * failure the policy does not retry; with `maxRetries < 0`, no call and
   * the exhaustion error.
   */
  lemma RunCharacterisation(fn: nat -> Outcome, policy: Policy, maxRetries: int)
    ensures var (r, n) := Run(fn, policy, maxRetries, 0);
      (maxRetries < 0 ==> r == Err(Exhausted(policy)) && n == 0)
      && (maxRetries >= 0 ==>
            1 <= n <= maxRetries + 1 && r == fn(n - 1)
            && (forall j :: 0 <= j < n - 1 ==> fn(j).Err? && Retryable(policy, fn(j).error))
            && (fn(n - 1).Ok? || n - 1 == maxRetries || !Retryable(policy, fn(n - 1).error)))
  {
    if maxRetries >= 0 {
      RunFrom(fn, policy, maxRetries, 0);
      RunBound(fn, policy, maxRetries, 0);
    }
  }

  /** The refresh policy gives up at once on a response whose status is set and below 500. */
  lemma RefreshStopsOnClientError(fn: nat -> Outcome, maxRetries: int)
    requires maxRetries >= 0 && fn(0).Err?
    requires StatusOf(fn(0).error).Some? && 0 < StatusOf(fn(0).error).value < 500
    ensures Run(fn, RefreshPolicy, maxRetries, 0) == (fn(0), 1)
  {
  }

  /** A request whose every failure carries a `_retry` config is called at most once by the general policy. */
  lemma RetriedCallsOnce(fn: nat -> Outcome, maxRetries: int)
    requires forall j :: fn(j).Err? ==> ConfigOf(fn(j).error).Some? && ConfigOf(fn(j).error).value.retry
    ensures Run(fn, GeneralPolicy, maxRetries, 0).1 <= 1
  {
  }
}
