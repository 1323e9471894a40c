/**
 * `CircuitBreaker` (src/interceptor/api.ts:16-61): CLOSED, OPEN and
 * HALF_OPEN with a failure counter and the time before which an OPEN
 * breaker refuses. `call(fn)` is split at the point where it awaits `fn`:
 * `Enter` is the gate before `fn` runs, `Success` and `Failure` are what
 * happens once `fn` has settled. The clock is the parameter `now`.
 */
module CircuitBreakers {

  datatype State = Closed | Open | HalfOpen

  const OpenMessage := "Circuit breaker is OPEN"

  class CircuitBreaker {
    const failureThreshold: int
    const timeout: int
    var failureCount: nat
    var state: State
    var nextAttempt: int

    /** A breaker that is not CLOSED has seen at least `failureThreshold` failures. */
    ghost predicate Valid()
      reads this
    {
      state != Closed ==> failureCount >= failureThreshold
    }

    constructor (failureThreshold: int, timeout: int, now: int)
      ensures Valid()
      ensures this.failureThreshold == failureThreshold && this.timeout == timeout
      ensures state == Closed && failureCount == 0 && nextAttempt == now
    {
      this.failureThreshold := failureThreshold;
      this.timeout := timeout;
      failureCount := 0;
      state := Closed;
      nextAttempt := now;
    }

    /** Whether `call` would let `fn` run at time `now`. */
    predicate Admits(now: int)
      reads this
    {
      state != Open || now >= nextAttempt
    }

    /**
     * The gate of `call` (lines 31-37). An OPEN breaker before `nextAttempt`
     * refuses (the caller rejects with `OpenMessage`, `fn` does not run) and
     * changes nothing; from `nextAttempt` on it becomes HALF_OPEN and lets
     * `fn` run; CLOSED and HALF_OPEN let it run unchanged. It is never OPEN
     * after admitting.
     */
    method Enter(now: int) returns (admitted: bool)
      requires Valid()
      modifies this`state
      ensures Valid()
      ensures admitted <==> old(state) != Open || now >= nextAttempt
      ensures !admitted ==> state == old(state) == Open && now < nextAttempt
      ensures admitted ==> state == (if old(state) == Open then HalfOpen else old(state))
      ensures admitted ==> state != Open
    {
      admitted := true;
      if state == Open {
        if now < nextAttempt {
          admitted := false;
          return;
        }
        state := HalfOpen;
      }
    }

    /** `success()` (lines 49-52), reached only after `Enter` admitted: the count is zeroed and HALF_OPEN closes. */
    method Success()
      requires Valid() && state != Open
      modifies this`failureCount, this`state
      ensures Valid()
      ensures failureCount == 0 && state == Closed
    {
      failureCount := 0;
      if state == HalfOpen {
        state := Closed;
      }
    }

    /**
     * `failure()` (lines 54-60): one more failure; at the threshold the
     * breaker opens until `now + timeout`. A failed HALF_OPEN probe always
     * reopens, since HALF_OPEN already had the threshold count.
     */
    method Failure(now: int)
      requires Valid()
      modifies this`failureCount, this`state, this`nextAttempt
      ensures Valid()
      ensures failureCount == old(failureCount) + 1
      ensures failureCount >= failureThreshold ==> state == Open && nextAttempt == now + timeout
      ensures failureCount < failureThreshold ==> state == old(state) == Closed && nextAttempt == old(nextAttempt)
      ensures old(state) == HalfOpen ==> state == Open
    {
      failureCount := failureCount + 1;
      if failureCount >= failureThreshold {
        state := Open;
        nextAttempt := now + timeout;
      }
    }
  }

  /**
   * With the default threshold, five failed calls open the breaker, a call
   * during the cooldown is refused without running, the first call after it
   * is a HALF_OPEN probe, and a failed probe reopens.
   */
  method ThresholdScenario(start: int) {
    var b := new CircuitBreaker(5, 30000, start);
    var i := 0;
    while i < 5
      invariant 0 <= i <= 5
      invariant b.Valid() && b.failureThreshold == 5 && b.timeout == 30000
      invariant b.failureCount == i
      invariant i < 5 ==> b.state == Closed
      invariant i == 5 ==> b.state == Open && b.nextAttempt == start + 30000
    {
      var ok := b.Enter(start);
      b.Failure(start);
      i := i + 1;
    }
    var early := b.Enter(start + 29999);
    assert !early && b.state == Open;
    var probe := b.Enter(start + 30000);
    assert probe && b.state == HalfOpen;
    b.Failure(start + 30000);
    assert b.state == Open && b.nextAttempt == start + 60000;
    var probe2 := b.Enter(start + 60000);
    b.Success();
    assert b.state == Closed && b.failureCount == 0;
  }
}
