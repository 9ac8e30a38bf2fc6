/** Retry delays of the relay: doubling with a cap, in 64-bit nanoseconds. */
module Backoff {
  const TWO_62 := 0x4000_0000_0000_0000
  const TWO_63 := 0x8000_0000_0000_0000
  const TWO_64 := 0x1_0000_0000_0000_0000

  function Pow2(n: nat): (p: int)
    ensures p >= 1
  {
    if n == 0 then 1 else 2 * Pow2(n - 1)
  }

  /** Two's-complement wrap-around of an int64 result. */
  function Wrap64(x: int): int {
    (x + TWO_63) % TWO_64 - TWO_63
  }

  /** The one value of an int64 that is congruent to x. */
  lemma WrapMeans(x: int)
    ensures -TWO_63 <= Wrap64(x) < TWO_63 && (x - Wrap64(x)) % TWO_64 == 0
  {
  }

  /** The retry loop: `rounds` capped doublings that stop at max. */
  function LoopDelay(delay: int, max: int, rounds: nat): int
    decreases rounds
  {
    if rounds == 0 || delay >= max then delay
    else
      var doubled := Wrap64(delay * 2);
      LoopDelay(if doubled > max then max else doubled, max, rounds - 1)
  }

  /** The intended delay of attempt n: min(initial * 2^(n-1), max), or the initial
      delay when that already reaches the cap; attempts below one count as one. */
  function Delay(initial: int, max: int, attempt: int): int {
    var n := if attempt < 1 then 1 else attempt;
    if initial >= max then initial
    else if initial * Pow2(n - 1) <= max then initial * Pow2(n - 1) else max
  }

  /** The first delay is the initial one, and each further one is twice the delay before it
      until the cap. */
  lemma DelayDoubles(initial: int, max: int, attempt: int)
    requires 0 < initial
    ensures attempt <= 1 ==> Delay(initial, max, attempt) == initial
    ensures attempt >= 1 && initial < max ==>
      var doubled := 2 * Delay(initial, max, attempt);
      Delay(initial, max, attempt + 1) == if doubled <= max then doubled else max
    ensures initial >= max ==> Delay(initial, max, attempt) == initial
  {
    if attempt >= 1 {
      ShiftScale(initial, attempt);
      assert initial * Pow2(attempt) == 2 * (initial * Pow2(attempt - 1));
      ScaleGrows(initial, attempt - 1);
    }
  }

  /** The first value of initial, 2*initial, 4*initial, ... that reaches max. */
  function FirstReach(delay: int, max: int): int
    requires delay > 0
    decreases max - delay
  {
    if delay >= max then delay else FirstReach(2 * delay, max)
  }

  /** What retryBackoff returns: attempts below one count as one. */
  function Looped(initial: int, max: int, attempt: int): int {
    LoopDelay(initial, max, if attempt < 1 then 0 else attempt - 1)
  }

  /** The doublings that lead to the cap fit in an int64. */
  predicate Fits(initial: int, max: int) {
    0 < initial < TWO_63 && max < TWO_63 && FirstReach(initial, max) < TWO_63
  }

  lemma {:induction false} LoopIsExact(delay: int, max: int, rounds: nat)
    requires 0 < delay < TWO_63 && max < TWO_63
    requires FirstReach(delay, max) < TWO_63
    ensures LoopDelay(delay, max, rounds) ==
      if delay >= max then delay
      else if delay * Pow2(rounds) <= max then delay * Pow2(rounds) else max
    decreases rounds
  {
    if rounds > 0 && delay < max {
      var doubled := 2 * delay;
      FirstReachAbove(doubled, max);
      WrapFits(doubled);
      ShiftScale(delay, rounds);
      ScaleGrows(doubled, rounds - 1);
      if doubled <= max {
        LoopIsExact(doubled, max, rounds - 1);
      }
    }
  }

  lemma WrapFits(x: int)
    requires 0 <= x < TWO_63
    ensures Wrap64(x) == x
  {
  }

  lemma ShiftScale(d: int, n: nat)
    requires n > 0
    ensures d * Pow2(n) == (2 * d) * Pow2(n - 1)
  {
  }

  lemma {:induction false} FirstReachAbove(delay: int, max: int)
    requires delay > 0
    ensures FirstReach(delay, max) >= delay
    decreases max - delay
  {
    if delay < max {
      FirstReachAbove(2 * delay, max);
    }
  }

  lemma ScaleGrows(d: int, n: nat)
    requires d > 0
    ensures d * Pow2(n) >= d
  {
  }

  lemma {:induction false} OverflowShows(delay: int, max: int) returns (rounds: nat)
    requires 0 < delay < TWO_63 && max < TWO_63
    requires FirstReach(delay, max) >= TWO_63
    ensures LoopDelay(delay, max, rounds) < 0
    decreases max - delay
  {
    if 2 * delay >= TWO_63 {
      rounds := 1;
      assert Wrap64(2 * delay) == 2 * delay - TWO_64;
      assert LoopDelay(delay, max, 1) == LoopDelay(2 * delay - TWO_64, max, 0);
    } else {
      if 2 * delay < max {
        var r := OverflowShows(2 * delay, max);
        rounds := r + 1;
        assert Wrap64(delay * 2) == 2 * delay;
      }
    }
  }

  lemma {:induction false} ReachWithinTwice(delay: int, max: int)
    requires 0 < delay <= max
    ensures FirstReach(delay, max) < 2 * max
    decreases max - delay
  {
    if delay < max {
      if 2 * delay <= max {
        ReachWithinTwice(2 * delay, max);
      }
    }
  }

  /** For initial <= max the loop computes the intended delay of every attempt if
      and only if the first doubling that reaches the cap still fits in an int64. */
  lemma LoopMeetsDelay(initial: int, max: int)
    requires 0 < initial <= max < TWO_63
    ensures Fits(initial, max) <==>
      forall attempt | attempt >= 1 :: Looped(initial, max, attempt) == Delay(initial, max, attempt)
  {
    if FirstReach(initial, max) < TWO_63 {
      forall attempt | attempt >= 1
        ensures Looped(initial, max, attempt) == Delay(initial, max, attempt)
      {
        FitsIsExact(initial, max, attempt);
      }
    } else {
      var rounds := OverflowShows(initial, max);
      ScaleGrows(initial, rounds);
      assert Looped(initial, max, rounds + 1) != Delay(initial, max, rounds + 1);
    }
  }

  lemma FitsIsExact(initial: int, max: int, attempt: int)
    requires Fits(initial, max)
    ensures Looped(initial, max, attempt) == Delay(initial, max, attempt)
  {
    LoopIsExact(initial, max, if attempt < 1 then 0 else attempt - 1);
  }

  /** A cap of at most 2^62 never overflows, for every initial delay and attempt. */
  lemma SafeCap(initial: int, max: int, attempt: int)
    requires 0 < initial < TWO_63 && max <= TWO_62
    ensures Fits(initial, max) && Looped(initial, max, attempt) == Delay(initial, max, attempt)
  {
    if initial <= max {
      ReachWithinTwice(initial, max);
    }
    FitsIsExact(initial, max, attempt);
  }

  /** With the largest cap a doubling overflows and the delay goes negative. */
  lemma LargeCapOverflows()
    ensures Looped(TWO_62, TWO_63 - 1, 2) < 0
  {
    assert LoopDelay(TWO_62, TWO_63 - 1, 1) == LoopDelay(-TWO_63, TWO_63 - 1, 0);
  }

  lemma {:induction false} Pow2Monotone(a: nat, b: nat)
    requires a <= b
    ensures Pow2(a) <= Pow2(b)
    decreases b
  {
    if a < b {
      Pow2Monotone(a, b - 1);
    }
  }

  lemma DelayMonotone(initial: int, max: int, a: int, b: int)
    requires 0 < initial && a <= b
    ensures Delay(initial, max, a) <= Delay(initial, max, b)
    ensures Delay(initial, max, a) >= initial
  {
    var m, n := if a < 1 then 1 else a, if b < 1 then 1 else b;
    Pow2Monotone(m - 1, n - 1);
    assert initial * Pow2(m - 1) <= initial * Pow2(n - 1);
    ScaleGrows(initial, m - 1);
  }

  /** retryBackoff. */
  method RetryBackoff(initial: int, max: int, attempt: int) returns (delay: int)
    requires 0 < initial < TWO_63 && 0 < max < TWO_63
    ensures delay == Looped(initial, max, attempt)
  {
    var attempts := if attempt < 1 then 1 else attempt;
    delay := initial;
    var i := 1;
    while i < attempts && delay < max
      invariant 1 <= i <= attempts
      invariant LoopDelay(delay, max, attempts - i) == LoopDelay(initial, max, attempts - 1)
    {
      delay := Wrap64(delay * 2);
      if delay > max {
        delay := max;
      }
      i := i + 1;
    }
  }
}
