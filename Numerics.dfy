/**
 * The comparison-only arithmetic of the forecaster: clamping a value into a
 * physical range with Python's `max`/`min`, and `round(x, 4)`. All of it is
 * stated over mathematical reals.
 */
module Numerics {

  function Min(a: real, b: real): real { if a <= b then a else b }

  function Max(a: real, b: real): real { if a >= b then a else b }

  /** `max(lo, min(hi, x))`, the clamp the demo path applies to every field. */
  function Clamp(x: real, lo: real, hi: real): (r: real)
    requires lo <= hi
    ensures lo <= r <= hi
    ensures lo <= x <= hi ==> r == x
    ensures x < lo ==> r == lo
    ensures hi < x ==> r == hi
  {
    Max(lo, Min(hi, x))
  }

  /** Clamping never reverses the order of two values. */
  lemma ClampMonotone(x: real, y: real, lo: real, hi: real)
    requires lo <= hi && x <= y
    ensures Clamp(x, lo, hi) <= Clamp(y, lo, hi)
  {
  }

  /** Clamping never moves two values further apart. */
  lemma ClampNonExpansive(x: real, y: real, lo: real, hi: real)
    requires lo <= hi
    ensures -(if x <= y then y - x else x - y) <= Clamp(x, lo, hi) - Clamp(y, lo, hi)
    ensures Clamp(x, lo, hi) - Clamp(y, lo, hi) <= (if x <= y then y - x else x - y)
  {
  }

  /**
   * The integer nearest to `x`, ties going to the even neighbour
   * (the rule of Python's `round`).
   */
  function RoundHalfEven(x: real): (n: int)
    ensures x - 0.5 <= n as real <= x + 0.5
    ensures (n as real == x - 0.5 || n as real == x + 0.5) ==> n % 2 == 0
  {
    var f := x.Floor;
    var frac := x - f as real;
    if frac < 0.5 then f
    else if frac > 0.5 then f + 1
    else if f % 2 == 0 then f
    else f + 1
  }

  /** The decimal with four places that is `n` ten-thousandths. */
  function Ticks(n: int): real {
    n as real / 10000.0
  }

  /**
   * `round(x, 4)`: a number with four decimal places nearest to `x`; when
   * `x` lies halfway between two of them, the one with an even last digit.
   */
  function Round4(x: real): (r: real)
    ensures x - 0.00005 <= r <= x + 0.00005
    ensures exists n: int :: r == Ticks(n) && ((r == x - 0.00005 || r == x + 0.00005) ==> n % 2 == 0)
    ensures 0.0 <= x <= 1.0 ==> 0.0 <= r <= 1.0
  {
    var n := RoundHalfEven(x * 10000.0);
    assert 0.0 <= x <= 1.0 ==> 0 <= n <= 10000 by {
      if 0.0 <= x <= 1.0 {
        RoundedStaysInRange(x * 10000.0, 10000);
      }
    }
    assert Ticks(n) == n as real / 10000.0;
    Ticks(n)
  }

  /** A whole number of ten-thousandths is its own rounding. */
  lemma Round4OfTicks(n: int)
    ensures Round4(Ticks(n)) == Ticks(n)
  {
    var x := Ticks(n);
    assert x * 10000.0 == n as real;
    assert (x * 10000.0).Floor == n;
  }

  /** Rounding to four places twice gives the same as rounding once. */
  lemma Round4Idempotent(x: real)
    ensures Round4(Round4(x)) == Round4(x)
  {
    var n: int :| Round4(x) == Ticks(n);
    Round4OfTicks(n);
  }

  /** Rounding a value between 0 and a whole number `m` stays between them. */
  lemma RoundedStaysInRange(y: real, m: nat)
    requires 0.0 <= y <= m as real
    ensures 0 <= RoundHalfEven(y) <= m
  {
    var f := y.Floor;
    assert 0 <= f <= m;
    if f == m {
      assert y == m as real;
    }
  }
}
