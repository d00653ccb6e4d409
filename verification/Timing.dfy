/** Lease and retry-backoff arithmetic on wrapping 64-bit durations (nanoseconds). */
module Timing {
  import opened Entities

  const TWO_34 := 0x4_0000_0000
  const TWO_63 := 0x8000_0000_0000_0000
  const TWO_64 := 0x1_0000_0000_0000_0000
  const NS_PER_MS := 1_000_000
  const DEFAULT_VISIBILITY := 30_000_000_000
  const LEASE_BUFFER := 10_000_000_000
  const MAX_RETRY_BACKOFF := 300_000_000_000

  /** The int64 that the low 64 bits of x denote. */
  function Wrap(x: int): (r: int)
    ensures IsInt64(r)
    ensures IsInt64(x) ==> r == x
    ensures TWO_63 <= x < TWO_64 ==> r < 0
  {
    var m := x % TWO_64;
    if m < TWO_63 then m else m - TWO_64
  }

  function Pow2(n: nat): (r: int)
    ensures r >= 1
    ensures n > 0 ==> r >= 2
  {
    if n == 0 then 1 else 2 * Pow2(n - 1)
  }

  lemma {:induction false} Pow2Monotone(m: nat, n: nat)
    requires m <= n
    ensures Pow2(m) <= Pow2(n)
    ensures m < n ==> 2 * Pow2(m) <= Pow2(n)
  {
    if m < n {
      Pow2Monotone(m, n - 1);
    }
  }

  lemma Pow2Of30()
    ensures Pow2(30) == 0x4000_0000
  {
    assert Pow2(10) == 1024;
    assert Pow2(20) == 1024 * 1024;
    assert Pow2(30) == 1024 * 1024 * 1024;
  }

  // ----- lease length -----

  function VisibilityTimeout(taskTimeout: Duration): (r: Duration)
    ensures r >= DEFAULT_VISIBILITY
    ensures 0 < taskTimeout < TWO_63 - LEASE_BUFFER ==> r == Max(30_000_000_000, taskTimeout + 10_000_000_000)
    ensures taskTimeout <= 0 || taskTimeout >= TWO_63 - LEASE_BUFFER ==> r == DEFAULT_VISIBILITY
  {
    if taskTimeout <= 0 then DEFAULT_VISIBILITY
    else
      var v := Wrap(taskTimeout + LEASE_BUFFER);
      if v < DEFAULT_VISIBILITY then DEFAULT_VISIBILITY else v
  }

  /** Lease length in whole milliseconds, as it is added to the dequeue clock. */
  function VisibilityMs(taskTimeout: Duration): (r: int)
    ensures r >= 30_000
  {
    VisibilityTimeout(taskTimeout) / NS_PER_MS
  }

  /** The lease outlasts a declared handler timeout exactly when adding the buffer does not overflow. */
  lemma LeaseCoversTimeoutIff(taskTimeout: Duration)
    requires taskTimeout > 0
    ensures VisibilityTimeout(taskTimeout) == Max(DEFAULT_VISIBILITY, taskTimeout + LEASE_BUFFER)
            <==> taskTimeout + LEASE_BUFFER < TWO_63
    ensures taskTimeout < VisibilityTimeout(taskTimeout) <==> taskTimeout + LEASE_BUFFER < TWO_63
  {
  }

  // ----- retry backoff -----

  /** What the code computes before it adds jitter. */
  function RetryBackoff(base: Duration, retryCount: int): int
  {
    if base <= 0 || retryCount <= 0 then 0
    else
      Clamp(base * Pow2(Min(retryCount - 1, 30)))
  }

  /** A shifted base, cut to int64 and clamped the way the code clamps it. */
  function Clamp(shifted: int): int {
    var backoff := Wrap(shifted);
    if backoff > MAX_RETRY_BACKOFF || backoff < 0 then MAX_RETRY_BACKOFF else backoff
  }

  lemma ClampIff(shifted: int, ideal: int)
    requires 0 < shifted <= ideal
    ensures Clamp(shifted) == Min(ideal, MAX_RETRY_BACKOFF)
            <==> if shifted < TWO_63 then shifted == ideal || shifted >= MAX_RETRY_BACKOFF
                 else shifted % TWO_64 >= MAX_RETRY_BACKOFF
  {
  }

  /** The documented formula over unbounded integers. */
  function IdealBackoff(base: int, retryCount: int): int
    requires retryCount > 0
  {
    Min(base * Pow2(retryCount - 1), MAX_RETRY_BACKOFF)
  }

  lemma Product(a: int, b: int, x: int, y: int)
    requires 0 <= a <= b && 0 <= x <= y
    ensures a * x <= b * y
  {
  }

  /** The shift is cut at 30: up to retry 31 nothing is lost, beyond it at least half. */
  lemma ShiftIsCut(base: Duration, retryCount: int)
    requires base > 0 && retryCount > 0
    ensures
      var shifted, ideal := base * Pow2(Min(retryCount - 1, 30)), base * Pow2(retryCount - 1);
      && 0 < shifted <= ideal && (retryCount <= 31 ==> shifted == ideal) && (retryCount > 31 ==> 2 * shifted <= ideal)
  {
    var shift := Min(retryCount - 1, 30);
    Pow2Monotone(shift, retryCount - 1);
    Product(1, base, 1, Pow2(shift));
    Product(base, base, Pow2(shift), Pow2(retryCount - 1));
    if retryCount > 31 {
      Product(base, base, 2 * Pow2(30), Pow2(retryCount - 1));
      Twice(base, Pow2(30));
    }
  }

  lemma BackoffIs(base: Duration, retryCount: int)
    requires base > 0 && retryCount > 0
    ensures RetryBackoff(base, retryCount) == Clamp(base * Pow2(Min(retryCount - 1, 30)))
    ensures IdealBackoff(base, retryCount) == Min(base * Pow2(retryCount - 1), MAX_RETRY_BACKOFF)
  {
    hide Clamp, Pow2;
  }

  /** Exactly when one call returns the documented value: the shift must not be cut short while
      still below the cap, and a shift that overflows must not land in [0, cap). */
  lemma BackoffMeetsFormulaIff(base: Duration, retryCount: int)
    requires base > 0 && retryCount > 0
    ensures
      var shifted := base * Pow2(Min(retryCount - 1, 30));
      RetryBackoff(base, retryCount) == IdealBackoff(base, retryCount)
      <==> if shifted < TWO_63 then retryCount <= 31 || shifted >= MAX_RETRY_BACKOFF
           else shifted % TWO_64 >= MAX_RETRY_BACKOFF
  {
    hide Clamp, Pow2, RetryBackoff, IdealBackoff;
    var shifted, ideal := base * Pow2(Min(retryCount - 1, 30)), base * Pow2(retryCount - 1);
    ShiftIsCut(base, retryCount);
    BackoffIs(base, retryCount);
    ClampIff(shifted, ideal);
  }

  lemma Twice(a: int, x: int)
    ensures a * (2 * x) == 2 * (a * x)
  {
  }

  /** For a base below 2^34 ns (about 17 s) every retry follows the formula iff the base is at least
      280 ns. */
  lemma BackoffRange(base: int)
    requires 0 < base < TWO_34
    ensures (forall n: int | n > 0 :: RetryBackoff(base, n) == IdealBackoff(base, n)) <==> 280 <= base
  {
    Pow2Of30();
    if 280 <= base {
      forall n: int | n > 0 ensures RetryBackoff(base, n) == IdealBackoff(base, n) {
        BackoffInRange(base, n);
      }
    } else {
      BackoffMeetsFormulaIff(base, 32);
      assert RetryBackoff(base, 32) != IdealBackoff(base, 32);
    }
  }

  lemma BackoffInRange(base: int, n: int)
    requires 280 <= base < TWO_34 && n > 0
    ensures RetryBackoff(base, n) == IdealBackoff(base, n)
  {
    Pow2Of30();
    var shift := Min(n - 1, 30);
    Pow2Monotone(shift, 30);
    Product(base, TWO_34 - 1, Pow2(shift), Pow2(30));
    BackoffMeetsFormulaIff(base, n);
  }

  /** Both ends of the range are tight: one step beyond either, some retry departs from the formula,
      and at 2^34 the thirty-first retry waits no time at all. */
  lemma BackoffRangeIsTight()
    ensures RetryBackoff(279, 32) < IdealBackoff(279, 32)
    ensures RetryBackoff(TWO_34, 31) == 0
    ensures IdealBackoff(TWO_34, 31) == MAX_RETRY_BACKOFF
  {
    Pow2Of30();
    assert Pow2(31) == 2 * Pow2(30);
  }

  /** Within the range the wait before jitter grows with the retry number up to the cap. */
  lemma BackoffMonotone(base: int, m: int, n: int)
    requires 280 <= base < TWO_34 && 0 < m <= n
    ensures base <= RetryBackoff(base, m) <= RetryBackoff(base, n) <= MAX_RETRY_BACKOFF
    ensures m < n && RetryBackoff(base, n) < MAX_RETRY_BACKOFF
            ==> 2 * RetryBackoff(base, m) <= RetryBackoff(base, n)
  {
    var low, high := base * Pow2(m - 1), base * Pow2(n - 1);
    assert base <= low <= high && (m < n ==> 2 * low <= high) by {
      Pow2Monotone(m - 1, n - 1);
      Product(base, base, 1, Pow2(m - 1));
      Product(base, base, Pow2(m - 1), Pow2(n - 1));
      Twice(base, Pow2(m - 1));
      if m < n {
        Product(base, base, 2 * Pow2(m - 1), Pow2(n - 1));
      }
    }
    assert RetryBackoff(base, m) == Min(low, MAX_RETRY_BACKOFF) by { BackoffInRange(base, m); }
    assert RetryBackoff(base, n) == Min(high, MAX_RETRY_BACKOFF) by { BackoffInRange(base, n); }
  }

  /** A random draw from [0, base/4]. */
  predicate JitterFits(base: Duration, jitter: int) {
    base > 0 ==> 0 <= jitter <= base / 4
  }

  /** The whole computation: in the range where every retry follows the formula it is the documented backoff
      and the random draw on top, everywhere it is at most the cap and a quarter of the base. */
  function ComputeRetryBackoff(base: Duration, retryCount: int, jitter: int): (r: int)
    requires JitterFits(base, jitter)
    ensures base <= 0 || retryCount <= 0 ==> r == 0
    ensures 280 <= base < TWO_34 && retryCount > 0 ==> r == IdealBackoff(base, retryCount) + jitter
    ensures 0 <= r <= MAX_RETRY_BACKOFF + Max(base, 0) / 4
    ensures IsInt64(r)
  {
    if base <= 0 || retryCount <= 0 then 0
    else
      assert 280 <= base < TWO_34 ==> RetryBackoff(base, retryCount) == IdealBackoff(base, retryCount) by {
        if 280 <= base < TWO_34 {
          BackoffInRange(base, retryCount);
        }
      }
      RetryBackoff(base, retryCount) + jitter
  }

  /** For every base and retry, the wait is the documented backoff and the random draw, so it lies between the
      backoff and a quarter of the base more, exactly when the wrapped shift meets the formula. */
  lemma RetryDelayIff(base: Duration, retryCount: int, jitter: int)
    requires base > 0 && retryCount > 0 && JitterFits(base, jitter)
    ensures
      var shifted, delay := base * Pow2(Min(retryCount - 1, 30)), ComputeRetryBackoff(base, retryCount, jitter);
      && (delay == IdealBackoff(base, retryCount) + jitter
          <==> if shifted < TWO_63 then retryCount <= 31 || shifted >= MAX_RETRY_BACKOFF
               else shifted % TWO_64 >= MAX_RETRY_BACKOFF)
      && (280 <= base < TWO_34 ==>
            IdealBackoff(base, retryCount) <= delay <= IdealBackoff(base, retryCount) + base / 4)
  {
    hide Pow2, IdealBackoff;
    BackoffMeetsFormulaIff(base, retryCount);
    ComputeIs(base, retryCount, jitter);
  }

  lemma ComputeIs(base: Duration, retryCount: int, jitter: int)
    requires base > 0 && retryCount > 0 && JitterFits(base, jitter)
    ensures ComputeRetryBackoff(base, retryCount, jitter) == RetryBackoff(base, retryCount) + jitter
  {
  }

  /** The time (ms) that Nack gives to a retry: `clock` is its clock in nanoseconds. */
  function RetryTime(base: Duration, retryCount: int, clock: int, jitter: int): (at: int)
    requires JitterFits(base, jitter)
    ensures 280 <= base < TWO_34 && retryCount > 0 ==>
              at == (clock + IdealBackoff(base, retryCount) + jitter) / NS_PER_MS
  {
    (clock + ComputeRetryBackoff(base, retryCount, jitter)) / NS_PER_MS
  }
}
