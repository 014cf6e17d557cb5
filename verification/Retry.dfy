/**
 The growing wait between the attempts of an operation (pkg/resilience/retry.go)
 and the two copies of the same loop that lack its overflow guard
 (services/origination/internal/issuance/contract.go, processor.go).
 */
module Retry {
  import opened Common

  const TWO_62: int := 0x4000_0000_0000_0000
  const TWO_63: int := 0x8000_0000_0000_0000
  const TWO_64: int := 0x1_0000_0000_0000_0000

  /** A duration: verification of a method over this type proves the absence of overflow. */
  newtype Duration = x: int | -0x8000_0000_0000_0000 <= x < 0x8000_0000_0000_0000

  datatype RetryPolicy = RetryPolicy(base: Duration, max: Duration, window: Duration) {
    predicate Valid() {
      0 < base <= max && 0 <= window
    }
  }

  function Pow2(n: nat): (r: nat)
    ensures 1 <= r
  {
    if n == 0 then 1 else 2 * Pow2(n - 1)
  }

  lemma {:induction false} Pow2Monotone(m: nat, n: nat)
    requires m <= n
    ensures Pow2(m) <= Pow2(n)
    decreases n
  {
    if m < n {
      Pow2Monotone(m, n - 1);
    }
  }

  /** Doubling is monotone in the exponent, also after scaling. */
  lemma ScaledPow2Monotone(base: int, m: nat, n: nat)
    requires 0 < base && m <= n
    ensures base * Pow2(m) <= base * Pow2(n)
  {
    Pow2Monotone(m, n);
  }

  /** min(base * 2^(n-1), max), where a count below 1 is treated as 1. */
  function CappedDoubling(base: int, max: int, failedAttempts: int): (wait: int)
    requires 0 < base <= max
    ensures base <= wait <= max
  {
    var n := if failedAttempts < 1 then 0 else failedAttempts - 1;
    ScaledPow2Monotone(base, 0, n);
    Min(base * Pow2(n), max)
  }

  function Wait(p: RetryPolicy, failedAttempts: int): (wait: int)
    requires p.Valid()
    ensures p.base as int <= wait <= p.max as int
  {
    CappedDoubling(p.base as int, p.max as int, failedAttempts)
  }

  /** More failures never wait less. */
  lemma WaitMonotone(p: RetryPolicy, m: int, n: int)
    requires p.Valid() && m <= n
    ensures Wait(p, m) <= Wait(p, n)
  {
    ScaledPow2Monotone(p.base as int, if m < 1 then 0 else m - 1, if n < 1 then 0 else n - 1);
  }

  /** The guarded loop computes the closed form without leaving 64 bits. */
  method Backoff(p: RetryPolicy, failedAttempts: int) returns (wait: Duration)
    requires p.Valid()
    ensures wait as int == Wait(p, failedAttempts)
  {
    wait := p.base;
    var i := 1;
    while i < failedAttempts && wait < p.max
      invariant 1 <= i && (i == 1 || i <= failedAttempts)
      invariant wait as int == p.base as int * Pow2(i - 1)
      invariant wait <= p.max
      decreases failedAttempts - i
    {
      if wait > p.max / 2 {
        ScaledPow2Monotone(p.base as int, i, failedAttempts - 1);
        return p.max;
      }
      wait := wait * 2;
      i := i + 1;
    }
    if i < failedAttempts {
      ScaledPow2Monotone(p.base as int, i - 1, failedAttempts - 1);
    }
  }

  /** Two's complement: what a 64-bit multiplication leaves. */
  function Wrap(x: int): (r: int)
    ensures -TWO_63 <= r < TWO_63
    ensures -TWO_63 <= x < TWO_63 ==> r == x
  {
    (x + TWO_63) % TWO_64 - TWO_63
  }

  /** `wait` after at most `rounds` turns of the loop without the guard. */
  function UnguardedLoop(wait: int, max: int, rounds: nat): int
    decreases rounds
  {
    if rounds == 0 || wait >= max then wait else UnguardedLoop(Wrap(wait * 2), max, rounds - 1)
  }

  function UnguardedWait(base: int, max: int, attempts: int): int {
    Min(UnguardedLoop(base, max, if attempts < 1 then 0 else attempts - 1), max)
  }

  /** The loop of the two unguarded copies, with 64-bit wrap-around. */
  method UnguardedBackoff(base: Duration, max: Duration, attempts: int) returns (wait: Duration)
    ensures wait as int == UnguardedWait(base as int, max as int, attempts)
  {
    wait := base;
    var i := 1;
    while i < attempts && wait < max
      invariant 1 <= i && (i == 1 || i <= attempts)
      invariant UnguardedLoop(wait as int, max as int, if attempts < 1 then 0 else attempts - i)
             == UnguardedLoop(base as int, max as int, if attempts < 1 then 0 else attempts - 1)
      decreases attempts - i
    {
      wait := Wrap(wait as int * 2) as Duration;
      i := i + 1;
    }
    if max < wait {
      wait := max;
    }
  }

  /** Some doubling of `base` lands in [2^62, max): the next one leaves 64 bits. */
  ghost predicate DoublingOverflows(base: int, max: int) {
    exists k: nat :: Overflows(base, max, k)
  }

  ghost predicate Overflows(base: int, max: int, k: nat) {
    TWO_62 <= base * Pow2(k) < max
  }

  /** None of the first `n` doublings of `base` overflows. */
  ghost predicate DoublesSafely(base: int, max: int, n: int) {
    forall k: nat :: k < n ==> !Overflows(base, max, k)
  }

  /** As long as nothing overflows, the unguarded loop doubles. */
  lemma {:induction false} UnguardedLoopDoubles(base: int, max: int, j: nat, rounds: nat)
    requires 0 < base <= max < TWO_63
    requires forall k: nat :: j <= k < j + rounds ==> !Overflows(base, max, k)
    requires base * Pow2(j) < TWO_63
    ensures Min(UnguardedLoop(base * Pow2(j), max, rounds), max) == Min(base * Pow2(j + rounds), max)
    decreases rounds
  {
    var wait := base * Pow2(j);
    if rounds == 0 {
    } else if wait >= max {
      ScaledPow2Monotone(base, j, j + rounds);
    } else {
      assert !Overflows(base, max, j);
      assert base * Pow2(j + 1) == 2 * wait;
      UnguardedLoopDoubles(base, max, j + 1, rounds - 1);
    }
  }

  lemma WrapPastTheTop(wait: int)
    requires TWO_62 <= wait < TWO_63
    ensures Wrap(wait * 2) < 0
  {
  }

  /** One turn too many: the wait comes out negative. */
  lemma {:induction false} UnguardedLoopWraps(base: int, max: int, j: nat, k: nat)
    requires 0 < base <= max < TWO_63 && j <= k && Overflows(base, max, k)
    ensures UnguardedLoop(base * Pow2(j), max, k + 1 - j) < 0
    decreases k - j
  {
    var wait := base * Pow2(j);
    ScaledPow2Monotone(base, j, k);
    if j == k {
      WrapPastTheTop(wait);
      assert UnguardedLoop(wait, max, 1) == UnguardedLoop(Wrap(wait * 2), max, 0);
    } else {
      assert base * Pow2(j + 1) == 2 * wait;
      ScaledPow2Monotone(base, j + 1, k);
      UnguardedLoopWraps(base, max, j + 1, k);
    }
  }

  /** The unguarded copies agree with the guarded wait on every count exactly when no doubling overflows. */
  lemma UnguardedAgreesExactlyWhen(base: int, max: int)
    requires 0 < base <= max < TWO_63
    ensures (forall n: int :: UnguardedWait(base, max, n) == CappedDoubling(base, max, n))
       <==> !DoublingOverflows(base, max)
  {
    if DoublingOverflows(base, max) {
      var k: nat :| Overflows(base, max, k);
      UnguardedLoopWraps(base, max, 0, k);
      assert UnguardedWait(base, max, k + 2) < 0;
    } else {
      forall n: int
        ensures UnguardedWait(base, max, n) == CappedDoubling(base, max, n)
      {
        var m: nat := if n < 1 then 0 else n - 1;
        UnguardedLoopDoubles(base, max, 0, m);
      }
    }
  }

  /** The bound on the maximum under which the copies are right for every base. */
  lemma UnguardedSafeMaximum(max: int)
    requires 0 < max < TWO_63
    ensures (forall base: int, n: int :: 0 < base <= max ==> UnguardedWait(base, max, n) == CappedDoubling(base, max, n))
       <==> max <= TWO_62
  {
    if max <= TWO_62 {
      forall base: int, n: int | 0 < base <= max
        ensures UnguardedWait(base, max, n) == CappedDoubling(base, max, n)
      {
        UnguardedAgreesExactlyWhen(base, max);
      }
    } else {
      assert Overflows(TWO_62, max, 0);
      UnguardedLoopWraps(TWO_62, max, 0, 0);
      assert UnguardedWait(TWO_62, max, 2) < 0;
    }
  }

  datatype NextAttempt = Exhausted | At(next: Instant)

  function WindowEnd(p: RetryPolicy, start: Instant): Option<Instant> {
    if p.window <= 0 then None else Some(start + p.window as int)
  }

  /**
   When the retry after the n-th failure, observed at `at`, is due: one base wait
   later, doubled by each failure before, cut at the maximum and at the window.
   */
  function DueDate(p: RetryPolicy, n: nat, windowEnd: Option<Instant>, at: Instant): (due: Instant)
    requires p.Valid() && 0 < n
    ensures at + p.base as int <= due || (windowEnd.Some? && due == windowEnd.value)
    ensures due <= at + p.max as int && (windowEnd.Some? ==> due <= windowEnd.value)
  {
    ScaledPow2Monotone(p.base as int, 0, n - 1);
    var due := at + Min(p.base as int * Pow2(n - 1), p.max as int);
    if windowEnd.Some? && windowEnd.value < due then windowEnd.value else due
  }

  /** When the next attempt runs after a failure observed at `now`. */
  function Next(p: RetryPolicy, failedAttempts: int, windowEnd: Option<Instant>, now: Instant): (r: NextAttempt)
    requires p.Valid()
    ensures r.Exhausted? <==> windowEnd.Some? && windowEnd.value <= now
    ensures r.At? ==> now < r.next && r.next == DueDate(p, if failedAttempts < 1 then 1 else failedAttempts, windowEnd, now)
  {
    var next := now + Wait(p, failedAttempts);
    match windowEnd
    case None => At(next)
    case Some(end) => if end <= now then Exhausted else At(Min(next, end))
  }
}
