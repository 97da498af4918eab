/** Capped doubling delays in 64-bit arithmetic, and the backoffs built on them. */
module Backoff {
  /** time.Duration: a signed 64-bit number of nanoseconds. */
  newtype Duration = x: int | -0x8000_0000_0000_0000 <= x < 0x8000_0000_0000_0000

  const MILLISECOND: Duration := 1_000_000
  const CHECK_RETRY_INITIAL: Duration := 250 * MILLISECOND
  const CHECK_RETRY_MAX: Duration := 30_000 * MILLISECOND
  const REQUEUE_INITIAL: Duration := 250 * MILLISECOND
  const REQUEUE_MAX: Duration := 4_000 * MILLISECOND

  function Pow2(n: nat): (p: nat)
    ensures p >= 1
  {
    if n == 0 then 1 else 2 * Pow2(n - 1)
  }

  function Min(a: int, b: int): int { if a <= b then a else b }

  /** min(initial * 2^(attempt - 1), maximum), with attempts below one counted as the first. */
  function Capped(attempt: int, initial: int, maximum: int): int {
    Min(initial * Pow2(if attempt < 1 then 0 else attempt - 1), maximum)
  }

  lemma {:induction false} Pow2Monotone(a: nat, b: nat)
    requires a <= b
    ensures Pow2(a) <= Pow2(b)
  {
    if a < b { Pow2Monotone(a, b - 1); }
  }

  lemma Scaled(initial: nat, a: nat, b: nat)
    requires a <= b
    ensures initial * a <= initial * b
  {
  }

  /** The delay never gets shorter with more attempts. */
  lemma CappedMonotone(a: int, b: int, initial: nat, maximum: int)
    requires a <= b
    ensures Capped(a, initial, maximum) <= Capped(b, initial, maximum)
  {
    var p, q := if a < 1 then 0 else a - 1, if b < 1 then 0 else b - 1;
    Pow2Monotone(p, q);
    Scaled(initial, Pow2(p), Pow2(q));
  }

  /** Once the uncapped delay has reached the maximum at some attempt, it is the maximum from there on. */
  lemma StaysCapped(k: int, attempt: int, initial: nat, maximum: nat)
    requires 1 <= k <= attempt && initial * Pow2(k - 1) >= maximum
    ensures Capped(attempt, initial, maximum) == maximum
  {
    Pow2Monotone(k - 1, attempt - 1);
    Scaled(initial, Pow2(k - 1), Pow2(attempt - 1));
  }

  lemma DoubleStep(initial: nat, k: nat)
    ensures initial * Pow2(k + 1) == 2 * (initial * Pow2(k))
  {
  }

  /** The doubling loop shared by alert retries and reconnects: no product overflows. */
  method DoublingDelay(attempt: int, initial: Duration, maximum: Duration) returns (delay: Duration)
    requires initial >= 0 && maximum >= 0
    ensures delay as int == Capped(attempt, initial as int, maximum as int)
  {
    var n := if attempt < 1 then 1 else attempt;
    delay := initial;
    var i := 1;
    while i < n && delay < maximum
      invariant 1 <= i <= n
      invariant delay as int == initial as int * Pow2(i - 1) && delay >= 0
    {
      DoubleStep(initial as int, i - 1);
      if delay > maximum / 2 {
        StaysCapped(i + 1, n, initial as int, maximum as int);
        return maximum;
      }
      delay := delay * 2;
      i := i + 1;
    }
    if delay >= maximum { StaysCapped(i, n, initial as int, maximum as int); }
    if delay > maximum { return maximum; }
  }

  /** Reconnecting adds jitter downwards: between half the base and the base. `random` stands for the draw. */
  method ReconnectDelay(attempt: int, initial: Duration, maximum: Duration, random: nat) returns (delay: Duration)
    requires initial >= 0 && maximum >= 0
    ensures var base := Capped(attempt, initial as int, maximum as int); base / 2 <= delay as int <= base
  {
    var base := DoublingDelay(attempt, initial, maximum);
    if base <= 1 { return base; }
    var half := base / 2;
    var jitter := random % ((base - half) as int + 1);
    return half + jitter as Duration;
  }

  method CheckJobRetryDelay(attempt: int) returns (delay: Duration)
    ensures delay as int == Capped(attempt, CHECK_RETRY_INITIAL as int, CHECK_RETRY_MAX as int)
    ensures CHECK_RETRY_INITIAL <= delay <= CHECK_RETRY_MAX
  {
    delay := DoublingDelay(attempt, CHECK_RETRY_INITIAL, CHECK_RETRY_MAX);
    if attempt >= 1 { CappedMonotone(1, attempt, CHECK_RETRY_INITIAL as int, CHECK_RETRY_MAX as int); }
  }

  /** The same base by another loop: doubling, cut to the maximum at each turn. */
  method RequeueBase(attempt: nat) returns (delay: Duration)
    requires attempt >= 1
    ensures delay as int == Capped(attempt, REQUEUE_INITIAL as int, REQUEUE_MAX as int)
    ensures 0 < delay <= REQUEUE_MAX
  {
    delay := REQUEUE_INITIAL;
    var current := 1;
    while current < attempt && delay < REQUEUE_MAX
      invariant 1 <= current <= attempt
      invariant delay as int == Capped(current, REQUEUE_INITIAL as int, REQUEUE_MAX as int)
      invariant 0 < delay <= REQUEUE_MAX
    {
      DoubleStep(REQUEUE_INITIAL as int, current - 1);
      delay := if delay * 2 <= REQUEUE_MAX then delay * 2 else REQUEUE_MAX;
      current := current + 1;
    }
    CappedMonotone(current, attempt, REQUEUE_INITIAL as int, REQUEUE_MAX as int);
  }

  /** Consecutive infrastructure failures of a worker pool. */
  class InfrastructureRequeueBackoff {
    var failures: nat

    constructor ()
      ensures failures == 0
    {
      failures := 0;
    }

    /** The next delay lies between the capped doubling base and five quarters of it; `hash` stands for the
        hash of job, worker and attempt. */
    method NextDelay(hash: nat) returns (delay: Duration)
      modifies this
      ensures failures == old(failures) + 1
      ensures var base := Capped(failures, REQUEUE_INITIAL as int, REQUEUE_MAX as int);
        base <= delay as int <= base + base / 4
    {
      failures := failures + 1;
      var base := RequeueBase(failures);
      var limit := base / 4;
      if limit <= 0 { return base; }
      var jitter := hash % (limit as int + 1);
      return base + jitter as Duration;
    }

    method Reset()
      modifies this
      ensures failures == 0
    {
      failures := 0;
    }
  }
}
