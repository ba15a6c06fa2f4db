/** Retry backoff in wrapping 64-bit arithmetic. */
module Backoff {

  const MAX_SHIFTS: nat := 20
  const MAX_INT64: int := 0x7FFF_FFFF_FFFF_FFFF
  const TWO_63: int := 0x8000_0000_0000_0000
  const TWO_64: int := 0x1_0000_0000_0000_0000

  /** Durations are int64 nanoseconds. */
  newtype Duration = d: int | -TWO_63 <= d <= MAX_INT64

  function Pow2(n: nat): (p: nat)
    ensures 1 <= p
  {
    if n == 0 then 1 else 2 * Pow2(n - 1)
  }

  /** The value an int64 holds after an operation whose exact result is x. */
  function Wrap(x: int): (d: int)
    ensures -TWO_63 <= d <= MAX_INT64
  {
    (x + TWO_63) % TWO_64 - TWO_63
  }

  function Shifts(attempt: nat): nat {
    if attempt > MAX_SHIFTS then MAX_SHIFTS else attempt
  }

  function RetryBackoff(initial: Duration, cap: Duration, attempt: nat): Duration {
    if initial <= 0 then 0 else
      var shifted := Wrap(initial as int * Pow2(Shifts(attempt))) as Duration;
      var d := if shifted < initial then MAX_INT64 as Duration else shifted;
      if cap > 0 && d > cap then cap else d
  }

  // ---------------------------------------------------------------- what it should compute

  function Min(a: int, b: int): int {
    if a < b then a else b
  }

  /** Doubling without a machine word: it saturates at the largest duration and at a positive cap. */
  function IdealBackoff(initial: int, cap: int, attempt: nat): int {
    if initial <= 0 then 0 else
      var d := Min(initial * Pow2(Shifts(attempt)), MAX_INT64);
      if cap > 0 then Min(d, cap) else d
  }

  lemma {:induction false} Pow2Monotone(m: nat, n: nat)
    requires m <= n
    ensures Pow2(m) <= Pow2(n)
  {
    if m < n {
      Pow2Monotone(m, n - 1);
    }
  }

  lemma Pow2AtCap()
    ensures Pow2(20) == 0x10_0000
  {
    assert Pow2(4) == 16;
    assert Pow2(8) == 256;
    assert Pow2(12) == 4096;
    assert Pow2(16) == 65536;
  }

  lemma ShiftedBound(initial: int, attempt: nat)
    requires 0 < initial
    ensures initial <= initial * Pow2(Shifts(attempt)) <= initial * 0x10_0000
  {
    Pow2AtCap();
    Pow2Monotone(Shifts(attempt), 20);
    MulMonotone(initial, 1, Pow2(Shifts(attempt)));
    MulMonotone(initial, Pow2(Shifts(attempt)), 0x10_0000);
  }

  lemma MulMonotone(a: int, x: int, y: int)
    requires 0 < a && x <= y
    ensures a * x <= a * y
  {
    assert a * (y - x) >= 0;
  }

  /** Whatever the policy, the delay is never negative and never escapes its bounds. */
  lemma BackoffBounds(initial: Duration, cap: Duration, attempt: nat)
    ensures initial <= 0 ==> RetryBackoff(initial, cap, attempt) == 0
    ensures initial > 0 ==> RetryBackoff(initial, cap, attempt) > 0
    ensures initial > 0 && cap > 0 ==> RetryBackoff(initial, cap, attempt) <= cap
    ensures initial > 0 && (cap <= 0 || initial <= cap) ==> initial <= RetryBackoff(initial, cap, attempt)
  {
  }

  /** The exact product of the initial backoff and the doublings. */
  function Product(initial: int, attempt: nat): int {
    initial * Pow2(Shifts(attempt))
  }

  /** The product wraps to a value that does not look wrapped. */
  predicate Unseen(initial: int, attempt: nat) {
    TWO_63 <= Product(initial, attempt) && initial <= Wrap(Product(initial, attempt))
  }

  /** And no maximum hides that the value is too small. */
  predicate TooShort(initial: Duration, cap: Duration, attempt: nat) {
    Unseen(initial as int, attempt) && (cap <= 0 || Wrap(Product(initial as int, attempt)) < cap as int)
  }

  /**
   * The overflow guard sees a wrap only when the wrapped value is below the initial backoff. For
   * every policy the delay is the ideal one exactly when no wrap goes unseen, or the maximum is no
   * more than the wrapped value.
   */
  lemma BackoffExactIff(initial: Duration, cap: Duration, attempt: nat)
    requires initial > 0
    ensures RetryBackoff(initial, cap, attempt) as int == IdealBackoff(initial as int, cap as int, attempt)
      <==> !TooShort(initial, cap, attempt)
  {
    ShiftedBound(initial as int, attempt);
    var x := Product(initial as int, attempt);
    if TWO_63 <= x {
      WrapNotMax(initial as int, attempt);
    }
    GuardedIff(initial as int, cap as int, x);
  }

  lemma GuardedIff(initial: int, cap: int, x: int)
    requires 0 < initial <= x && initial < TWO_63 && cap <= MAX_INT64
    requires TWO_63 <= x ==> Wrap(x) != MAX_INT64
    ensures
      var guarded := if Wrap(x) < initial then MAX_INT64 else Wrap(x);
      var ideal := Min(x, MAX_INT64);
      (if cap > 0 && guarded > cap then cap else guarded) == (if cap > 0 then Min(ideal, cap) else ideal)
      <==> !(TWO_63 <= x && initial <= Wrap(x) && (cap <= 0 || Wrap(x) < cap))
  {
  }

  /** A product that overflows is even, so it never wraps to the largest duration. */
  lemma WrapNotMax(initial: int, attempt: nat)
    requires 0 < initial < TWO_63 <= Product(initial, attempt)
    ensures Wrap(Product(initial, attempt)) != MAX_INT64
  {
    MulTwice(initial, Pow2(Shifts(attempt) - 1));
    EvenWrap(initial * Pow2(Shifts(attempt) - 1));
  }

  lemma EvenWrap(half: int)
    ensures Wrap(2 * half) != MAX_INT64
  {
    var turns := (2 * half + TWO_63) / TWO_64;
    assert Wrap(2 * half) == 2 * (half - 0x8000_0000_0000_0000 * turns);
  }

  lemma MulTwice(a: int, b: int)
    ensures a * (2 * b) == 2 * (a * b)
  {
  }

  /** The first doubling that overflows is always seen. */
  lemma {:induction false} FirstOverflow(initial: int, attempt: nat) returns (first: nat)
    requires 0 < initial < TWO_63 <= Product(initial, attempt)
    ensures first <= attempt && first <= MAX_SHIFTS
    ensures TWO_63 <= Product(initial, first) < TWO_64
    decreases attempt
  {
    if attempt > MAX_SHIFTS {
      first := FirstOverflow(initial, attempt - 1);
    } else {
      MulTwice(initial, Pow2(attempt - 1));
      if TWO_63 <= Product(initial, attempt - 1) {
        first := FirstOverflow(initial, attempt - 1);
      } else {
        first := attempt;
      }
    }
  }

  /** For every policy, later attempts never wait less exactly when no delay is too short. */
  lemma BackoffMonotoneIff(initial: Duration, cap: Duration)
    requires initial > 0
    ensures (forall a: nat, b: nat :: a <= b ==> RetryBackoff(initial, cap, a) <= RetryBackoff(initial, cap, b))
      <==> (forall a: nat :: !TooShort(initial, cap, a))
  {
    if forall a: nat :: !TooShort(initial, cap, a) {
      forall a: nat, b: nat | a <= b ensures RetryBackoff(initial, cap, a) <= RetryBackoff(initial, cap, b) {
        BackoffExactIff(initial, cap, a);
        BackoffExactIff(initial, cap, b);
        IdealMonotone(initial as int, cap as int, a, b);
      }
    } else {
      var a: nat :| TooShort(initial, cap, a);
      var first := FirstOverflow(initial as int, a);
      WrapNotMax(initial as int, a);
      SmallWrapSeen(initial as int, Product(initial as int, first));
      assert RetryBackoff(initial, cap, a) < RetryBackoff(initial, cap, first);
    }
  }

  lemma IdealMonotone(initial: int, cap: int, a: nat, b: nat)
    requires 0 < initial && a <= b
    ensures IdealBackoff(initial, cap, a) <= IdealBackoff(initial, cap, b)
  {
    Pow2Monotone(Shifts(a), Shifts(b));
    MulMonotone(initial, Pow2(Shifts(a)), Pow2(Shifts(b)));
  }

  /** Below 2^44 nanoseconds, almost five hours, no delay is too short. */
  lemma NeverTooShort(initial: Duration, cap: Duration, attempt: nat)
    requires 0 < initial < 0x1000_0000_0000
    ensures !TooShort(initial, cap, attempt)
    ensures RetryBackoff(initial, cap, attempt) as int == IdealBackoff(initial as int, cap as int, attempt)
  {
    ShiftedBound(initial as int, attempt);
    SmallWrapSeen(initial as int, Product(initial as int, attempt));
    BackoffExactIff(initial, cap, attempt);
  }

  lemma SmallWrapSeen(initial: int, x: int)
    requires 0 < initial <= x < TWO_64
    ensures Wrap(x) == (if x < TWO_63 then x else x - TWO_64)
    ensures initial < TWO_63 ==> (Wrap(x) < initial <==> x >= TWO_63)
  {
  }

  /** Just above that bound the twentieth retry waits less than the nineteenth. */
  lemma BackoffNotMonotone()
    ensures
      var initial: Duration := 0x1000_0200_0000;
      RetryBackoff(initial, 0, 20) < RetryBackoff(initial, 0, 19)
  {
    Pow2AtCap();
    assert Pow2(20) == 2 * Pow2(19);
    assert 0x1000_0200_0000 * 0x10_0000 == TWO_64 + 0x2000_0000_0000;
  }
}
