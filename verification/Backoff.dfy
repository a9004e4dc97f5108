/** The retry delay (internal/backoff/backoff.go), in wrapping 64-bit arithmetic. */
module Backoff {
  import opened Tokens

  const SECOND := 1_000_000_000
  const DEFAULT_MAX := 15 * 60 * SECOND

  /** What is left of `n` in a signed 64-bit integer. */
  function Wrap(n: int): (r: int)
    ensures Int64(r)
    ensures Int64(n) ==> r == n
  {
    (n + INT64_MAX + 1) % (2 * (INT64_MAX + 1)) - (INT64_MAX + 1)
  }

  function Pow2(n: nat): nat {
    if n == 0 then 1 else 2 * Pow2(n - 1)
  }

  function Min(a: int, b: int): int {
    if a < b then a else b
  }

  // ---- The schedule ----

  function EffectiveAttempt(attempt: int): nat {
    if attempt < 1 then 1 else attempt
  }

  function EffectiveBase(base: int): int {
    if base <= 0 then SECOND else base
  }

  function EffectiveMax(max: int): int {
    if max <= 0 then DEFAULT_MAX else max
  }

  /** `min(max, base * 2^(attempt-1))`, with the defaults filled in. */
  function Scheduled(attempt: int, base: int, max: int): int {
    Min(EffectiveMax(max), EffectiveBase(base) * Pow2(EffectiveAttempt(attempt) - 1))
  }

  /** Doubling a positive 64-bit number wraps exactly when the result is smaller than it was. */
  lemma WrapCaught(delay: int)
    requires 0 < delay <= INT64_MAX
    ensures Wrap(2 * delay) < delay <==> 2 * delay > INT64_MAX
    ensures 2 * delay <= INT64_MAX ==> Wrap(2 * delay) == 2 * delay
  {
  }

  lemma {:induction false} Pow2Grows(m: nat, n: nat)
    requires m <= n
    ensures 1 <= Pow2(m) <= Pow2(n)
    decreases n
  {
    if m < n {
      Pow2Grows(m, n - 1);
    } else if m > 0 {
      Pow2Grows(m - 1, n - 1);
    }
  }

  /** Doubling past the cap stays past it. */
  lemma Saturates(base: int, m: nat, n: nat, cap: int)
    requires base > 0 && m <= n && base * Pow2(m) >= cap
    ensures base * Pow2(n) >= cap
  {
  }

  lemma DoubleStep(base: int, n: nat)
    ensures base * Pow2(n + 1) == 2 * (base * Pow2(n))
  {
  }

  /** The doubling loop. */
  method Schedule(attempt: int, base: int, max: int) returns (delay: int)
    requires Int64(base) && Int64(max)
    ensures delay == Scheduled(attempt, base, max)
  {
    var n := if attempt < 1 then 1 else attempt;
    var first := if base <= 0 then SECOND else base;
    var cap := if max <= 0 then DEFAULT_MAX else max;
    delay := first;
    var i := 1;
    while i < n
      invariant 1 <= i <= n && 0 < delay <= INT64_MAX
      invariant delay == first * Pow2(i - 1)
      decreases n - i
    {
      if delay >= cap {
        Saturates(first, i - 1, n - 1, cap);
        delay := cap;
        break;
      }
      WrapCaught(delay);
      DoubleStep(first, i - 1);
      var next := Wrap(delay * 2);
      if next > cap || next < delay {
        Saturates(first, i, n - 1, cap);
        delay := cap;
        break;
      }
      delay := next;
      i := i + 1;
    }
    if delay > cap {
      delay := cap;
    }
  }

  // ---- Jitter ----

  /** What is slept: the schedule plus a jitter of at most a tenth of it. */
  predicate Draws(attempt: int, base: int, max: int, jitter: int) {
    0 <= jitter <= Scheduled(attempt, base, max) / 10
  }

  function Jittered(attempt: int, base: int, max: int, jitter: int): int {
    Wrap(Scheduled(attempt, base, max) + jitter)
  }

  method Delay(attempt: int, base: int, max: int) returns (d: int, jitter: int)
    requires Int64(base) && Int64(max)
    ensures Draws(attempt, base, max, jitter) && d == Jittered(attempt, base, max, jitter)
    ensures Int64(d)
  {
    var delay := Schedule(attempt, base, max);
    ScheduledRange(attempt, base, max);
    jitter :| 0 <= jitter < delay / 10 + 1;
    d := Wrap(delay + jitter);
  }

  lemma ScheduledRange(attempt: int, base: int, max: int)
    requires Int64(base) && Int64(max)
    ensures 0 < Scheduled(attempt, base, max) <= EffectiveMax(max) <= INT64_MAX
  {
    Pow2Grows(0, EffectiveAttempt(attempt) - 1);
    Saturates(EffectiveBase(base), 0, EffectiveAttempt(attempt) - 1, EffectiveBase(base));
  }

  /** The first attempt waits the base, and every further one twice as long as the one before, up to
      the cap; one second and fifteen minutes where nothing else is configured. */
  lemma ScheduleDoubles(attempt: int, base: int, max: int)
    requires attempt >= 1
    ensures var cap := if max <= 0 then 900_000_000_000 else max;
      var first := if base <= 0 then 1_000_000_000 else base;
      && Scheduled(1, base, max) == (if first < cap then first else cap)
      && var twice := 2 * Scheduled(attempt, base, max);
         Scheduled(attempt + 1, base, max) == if twice < cap then twice else cap
    ensures attempt == 1 ==> forall a :: a <= 1 ==> Scheduled(a, base, max) == Scheduled(1, base, max)
  {
    DoubleStep(EffectiveBase(base), attempt - 1);
  }

  /** Later attempts never wait less. */
  lemma ScheduleMonotone(a: int, b: int, base: int, max: int)
    requires a <= b
    ensures Scheduled(a, base, max) <= Scheduled(b, base, max)
  {
    var x := EffectiveBase(base) * Pow2(EffectiveAttempt(a) - 1);
    Saturates(EffectiveBase(base), EffectiveAttempt(a) - 1, EffectiveAttempt(b) - 1, x);
  }

  predicate InJitterRange(d: int, delay: int) {
    delay <= d <= delay + delay / 10
  }

  /** The sum of a delay and a jitter is in range exactly when it fits in 64 bits. */
  lemma SumInRange(delay: int, jitter: int)
    requires 0 < delay <= INT64_MAX && 0 <= jitter <= delay / 10
    ensures InJitterRange(Wrap(delay + jitter), delay) <==> delay + jitter <= INT64_MAX
  {
  }

  lemma Pow63()
    ensures Pow2(63) == INT64_MAX + 1
  {
    assert Pow2(8) == 256;
    assert Pow2(16) == 0x1_0000;
    assert Pow2(24) == 0x100_0000;
    assert Pow2(32) == 0x1_0000_0000;
    assert Pow2(40) == 0x100_0000_0000;
    assert Pow2(48) == 0x1_0000_0000_0000;
    assert Pow2(56) == 0x100_0000_0000_0000;
    assert Pow2(60) == 0x1000_0000_0000_0000;
  }

  /** For a configuration, every delay of every attempt is between the schedule and a tenth more
      exactly when the cap and a tenth of it fit in 64 bits. */
  lemma DelaysInRange(base: int, max: int)
    requires Int64(base) && Int64(max)
    ensures (forall attempt: int, jitter: int :: Draws(attempt, base, max, jitter) ==>
               InJitterRange(Jittered(attempt, base, max, jitter), Scheduled(attempt, base, max)))
      <==> EffectiveMax(max) + EffectiveMax(max) / 10 <= INT64_MAX
  {
    var cap := EffectiveMax(max);
    if cap + cap / 10 <= INT64_MAX {
      forall attempt: int, jitter: int | Draws(attempt, base, max, jitter)
        ensures InJitterRange(Jittered(attempt, base, max, jitter), Scheduled(attempt, base, max))
      {
        ScheduledRange(attempt, base, max);
        SumInRange(Scheduled(attempt, base, max), jitter);
      }
    } else {
      CapIsReached(base, max);
      ScheduledRange(64, base, max);
      SumInRange(cap, cap / 10);
      assert Draws(64, base, max, cap / 10);
    }
  }

  /** After 63 doublings every schedule is at its cap. */
  lemma CapIsReached(base: int, max: int)
    requires Int64(base) && Int64(max)
    ensures Scheduled(64, base, max) == EffectiveMax(max)
  {
    Pow63();
    assert EffectiveBase(base) * Pow2(63) >= EffectiveMax(max);
  }

  /** The longest delay that can be configured may come out negative. */
  lemma LongestDelayWraps()
    ensures Draws(1, INT64_MAX, INT64_MAX, 1) && Jittered(1, INT64_MAX, INT64_MAX, 1) < 0
  {
  }
}
