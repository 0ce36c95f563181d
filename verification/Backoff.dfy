/** The pause between attempts: internal/core/retry.go. */
module Backoff {

  const TWO_62: int := 0x4000_0000_0000_0000
  const TWO_63: int := 0x8000_0000_0000_0000

  /** The value a signed 64-bit register holds after computing `x`. */
  function Wrap64(x: int): int {
    var m := x % (2 * TWO_63);
    if m < TWO_63 then m else m - 2 * TWO_63
  }

  function Pow2(n: nat): (p: nat)
    ensures p > 0
  {
    if n == 0 then 1 else 2 * Pow2(n - 1)
  }

  function Min(a: int, b: int): int {
    if a < b then a else b
  }

  /** The documented pause: none before the first attempt, then doubling up to `max`. */
  function Pause(initial: nat, max: nat, attempt: int): nat {
    if attempt <= 1 then 0 else Min(max, initial * Pow2(attempt - 2))
  }

  /** The loop of Backoff with `n` doublings to go, in 64-bit arithmetic. */
  function Doubled(d: int, n: nat, max: int): int
    decreases n
  {
    if n == 0 then Min(d, max)
    else
      var e := Wrap64(d * 2);
      if e >= max then max else Doubled(e, n - 1, max)
  }

  /** What Backoff returns. */
  function Computed(initial: int, max: int, attempt: int): int {
    if attempt <= 1 then 0 else Doubled(initial, attempt - 2, max)
  }

  /** A call pauses when that is positive; a value that has overflowed makes it go on at once. */
  function Waited(initial: int, max: int, attempt: int): nat {
    if Computed(initial, max, attempt) > 0 then Computed(initial, max, attempt) else 0
  }

  /** RetryConfig.Backoff, for every configuration that validation accepts. */
  method Backoff(initial: int, max: int, attempt: int) returns (d: int)
    requires 0 <= initial <= max < TWO_63
    ensures d == Computed(initial, max, attempt)
    ensures NeverOverflows(initial, max) ==> d == Pause(initial, max, attempt)
  {
    if NeverOverflows(initial, max) && attempt > 1 {
      DoublingIsExact(initial, attempt - 2, max);
    }
    if attempt <= 1 {
      return 0;
    }
    d := initial;
    for i := 2 to attempt
      invariant Doubled(d, attempt - i, max) == Doubled(initial, attempt - 2, max)
    {
      d := Wrap64(d * 2);
      if d >= max {
        return max;
      }
    }
    if d > max {
      return max;
    }
  }

  /** The first doubling that reaches the limit. */
  function FirstReach(d: nat, max: nat): nat
    requires d > 0
    decreases max - d
  {
    if 2 * d >= max then 2 * d else FirstReach(2 * d, max)
  }

  /** The doubling that reaches the limit still fits 63 bits. */
  predicate NeverOverflows(initial: nat, max: nat) {
    initial == 0 || FirstReach(initial, max) < TWO_63
  }

  lemma {:induction false} DoublingIsExact(d: nat, n: nat, max: nat)
    requires d <= max < TWO_63 && NeverOverflows(d, max)
    ensures Doubled(d, n, max) == Min(max, d * Pow2(n))
    decreases n
  {
    if n > 0 {
      DoubleFirst(d, n);
      FitsWhenDoubled(d, max);
      if 2 * d < max {
        DoublingIsExact(2 * d, n - 1, max);
      }
    }
  }

  lemma DoubleFirst(d: nat, n: nat)
    requires n > 0
    ensures d * Pow2(n) == (2 * d) * Pow2(n - 1) && d * Pow2(n) >= 2 * d
  {
    Regroup(d, Pow2(n - 1));
  }

  lemma Regroup(d: nat, p: nat)
    requires p > 0
    ensures d * (2 * p) == (2 * d) * p && (2 * d) * p >= 2 * d
  {
    AtLeastOnce(2 * d, p);
  }

  lemma {:induction false} AtLeastOnce(a: nat, p: nat)
    requires p > 0
    ensures a * p >= a
    decreases p
  {
    if p > 1 {
      AtLeastOnce(a, p - 1);
    }
  }

  lemma FitsWhenDoubled(d: nat, max: nat)
    requires d <= max < TWO_63 && NeverOverflows(d, max)
    ensures Wrap64(d * 2) == 2 * d
    ensures 2 * d < max ==> NeverOverflows(2 * d, max)
  {
  }

  lemma {:induction false} DoublingOverflows(d: nat, max: nat) returns (n: nat)
    requires 0 < d <= max < TWO_63 && FirstReach(d, max) >= TWO_63
    ensures Doubled(d, n, max) < 0
    decreases max - d
  {
    if 2 * d >= max {
      WrapsNegative(2 * d);
      n := 1;
      assert Doubled(Wrap64(d * 2), 0, max) < 0;
    } else {
      n := DoublingOverflows(2 * d, max);
      FitsRegister(2 * d);
      n := n + 1;
    }
  }

  lemma WrapsNegative(x: nat)
    requires TWO_63 <= x < 2 * TWO_63
    ensures Wrap64(x) < 0
  {
  }

  lemma FitsRegister(x: nat)
    requires x < TWO_63
    ensures Wrap64(x) == x
  {
  }

  /** The documented formula holds for every attempt exactly when the last doubling fits. */
  lemma BackoffExactIff(initial: nat, max: nat)
    requires initial <= max < TWO_63
    ensures (forall n: nat :: Doubled(initial, n, max) == Min(max, initial * Pow2(n))) <==> NeverOverflows(initial, max)
  {
    if NeverOverflows(initial, max) {
      forall n: nat ensures Doubled(initial, n, max) == Min(max, initial * Pow2(n)) {
        DoublingIsExact(initial, n, max);
      }
    } else {
      var n := DoublingOverflows(initial, max);
    }
  }

  /** Below 2^62 nanoseconds, about 146 years, no configuration overflows. */
  lemma {:induction false} SmallLimitNeverOverflows(initial: nat, max: nat)
    requires initial <= max < TWO_62
    ensures NeverOverflows(initial, max)
    decreases max - initial
  {
    if initial > 0 && 2 * initial < max {
      SmallLimitNeverOverflows(2 * initial, max);
    }
  }

  /** All the pauses of a call, as it waits them. */
  function TotalPause(initial: int, max: int, attempts: seq<nat>): nat {
    if attempts == [] then 0
    else TotalPause(initial, max, attempts[..|attempts| - 1]) + Waited(initial, max, attempts[|attempts| - 1])
  }

  /** Overflow or not, no more than the limit is returned. */
  lemma {:induction false} DoubledAtMost(d: int, n: nat, max: int)
    ensures Doubled(d, n, max) <= max
    decreases n
  {
    if n > 0 && Wrap64(d * 2) < max {
      DoubledAtMost(Wrap64(d * 2), n - 1, max);
    }
  }

  lemma {:induction false} PausesBounded(initial: nat, max: nat, attempts: seq<nat>, n: nat)
    requires |attempts| <= n
    ensures TotalPause(initial, max, attempts) <= n * max
  {
    if attempts != [] {
      var attempt := attempts[|attempts| - 1];
      PausesBounded(initial, max, attempts[..|attempts| - 1], n - 1);
      if attempt > 1 { DoubledAtMost(initial, attempt - 2, max); }
      assert n * max == (n - 1) * max + max;
    }
  }

  /** When nothing overflows the pauses are those of the documented formula. */
  lemma PauseAsDocumented(initial: nat, max: nat, attempt: nat)
    requires initial <= max < TWO_63 && NeverOverflows(initial, max)
    ensures Waited(initial, max, attempt) == Pause(initial, max, attempt)
  {
    if attempt > 1 { DoublingIsExact(initial, attempt - 2, max); }
  }
}
