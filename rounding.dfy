/**
 * The numeric helpers of .NET that the timeline relies on, on exact reals:
 * Math.Round with the default midpoint rule (half to even), Math.Round with a
 * number of decimal digits, Math.Clamp, and the special values IEEE division
 * produces when the divisor is zero.
 */
module Rounding {

  /** Math.Round(x): the nearest integer, ties going to the even neighbour. */
  function RoundHalfEven(x: real): (r: int)
    ensures x - 0.5 <= r as real <= x + 0.5
  {
    var f := x.Floor;
    var frac := x - f as real;
    if frac < 0.5 then f
    else if frac > 0.5 then f + 1
    else if f % 2 == 0 then f
    else f + 1
  }

  lemma RoundHalfEvenOfInteger(n: int)
    ensures RoundHalfEven(n as real) == n
  {
    assert (n as real).Floor == n;
  }

  lemma {:induction false} RoundHalfEvenMonotone(x: real, y: real)
    requires x <= y
    ensures RoundHalfEven(x) <= RoundHalfEven(y)
  {
    var fx, fy := x.Floor, y.Floor;
    if fx < fy {
      assert RoundHalfEven(x) <= fx + 1 <= fy <= RoundHalfEven(y);
    } else {
      assert fx == fy;
    }
  }

  /** An integer never rounds past another integer on the same side. */
  lemma RoundHalfEvenBoundedBy(x: real, n: int)
    ensures x <= n as real ==> RoundHalfEven(x) <= n
    ensures n as real <= x ==> n <= RoundHalfEven(x)
  {
    if x <= n as real {
      RoundHalfEvenMonotone(x, n as real);
      RoundHalfEvenOfInteger(n);
    }
    if n as real <= x {
      RoundHalfEvenMonotone(n as real, x);
      RoundHalfEvenOfInteger(n);
    }
  }

  /** Values at or beyond this magnitude are returned unrounded by Math.Round(x, digits). */
  const RoundLimit: real := 10000000000000000.0

  /**
   * Math.Round(x, 2), the only precision the timeline uses: scale by 100, round
   * half to even, scale back; a value whose magnitude reaches RoundLimit is
   * returned as it is.
   */
  function RoundTwoDigits(x: real): (r: real)
  {
    if -RoundLimit < x < RoundLimit then RoundHalfEven(x * 100.0) as real / 100.0
    else x
  }

  /** v is a whole number of hundredths. */
  predicate IsHundredths(v: real)
  {
    (v * 100.0).Floor as real == v * 100.0
  }

  /** A rounding in range lands on a whole number of hundredths, within half a hundredth of x. */
  lemma RoundTwoDigitsPrecision(x: real)
    requires -RoundLimit < x < RoundLimit
    ensures IsHundredths(RoundTwoDigits(x))
    ensures x - 0.005 <= RoundTwoDigits(x) <= x + 0.005
  {
    var k := RoundHalfEven(x * 100.0);
    assert RoundTwoDigits(x) * 100.0 == k as real;
  }

  lemma {:induction false} RoundTwoDigitsMonotone(x: real, y: real)
    requires x <= y
    ensures RoundTwoDigits(x) <= RoundTwoDigits(y)
  {
    var inX, inY := -RoundLimit < x < RoundLimit, -RoundLimit < y < RoundLimit;
    if inX && inY {
      RoundHalfEvenMonotone(x * 100.0, y * 100.0);
    } else if inX {
      // y is at least RoundLimit, and x * 100 rounds to at most the integer RoundLimit * 100
      RoundHalfEvenBoundedBy(x * 100.0, 1000000000000000000);
    } else if inY {
      // x is at most -RoundLimit, and y * 100 rounds to at least the integer -RoundLimit * 100
      RoundHalfEvenBoundedBy(y * 100.0, -1000000000000000000);
    }
  }

  /** Whole numbers of hundredths are left unchanged by rounding. */
  lemma RoundTwoDigitsOfHundredths(v: real)
    requires -RoundLimit < v < RoundLimit && IsHundredths(v)
    ensures RoundTwoDigits(v) == v
  {
    RoundHalfEvenOfInteger((v * 100.0).Floor);
  }

  /** Rounding to hundredths and clamping to [0, 1] can be applied in either order. */
  lemma RoundClampCommute(q: real)
    ensures Clamp(RoundTwoDigits(q), 0.0, 1.0) == RoundTwoDigits(Clamp(q, 0.0, 1.0))
  {
    RoundTwoDigitsOfHundredths(0.0);
    RoundTwoDigitsOfHundredths(1.0);
    if q < 0.0 {
      RoundTwoDigitsMonotone(q, 0.0);
    } else if q > 1.0 {
      RoundTwoDigitsMonotone(1.0, q);
    } else {
      RoundTwoDigitsMonotone(0.0, q);
      RoundTwoDigitsMonotone(q, 1.0);
    }
  }

  /** Math.Clamp(x, lo, hi). */
  function Clamp(x: real, lo: real, hi: real): (r: real)
    requires lo <= hi
    ensures lo <= r <= hi
    ensures lo <= x <= hi ==> r == x
    ensures x < lo ==> r == lo
    ensures hi < x ==> r == hi
  {
    if x < lo then lo else if x > hi then hi else x
  }

  /** A double as far as the timeline can produce one: finite, an infinity, or NaN. */
  datatype Double = Finite(value: real) | PositiveInfinity | NegativeInfinity | NaN

  /** IEEE division of two finite values; the divisor 0 is the positive zero a subtraction yields. */
  function Divide(n: real, d: real): (r: Double)
    ensures r.NaN? <==> n == 0.0 && d == 0.0
    ensures d != 0.0 ==> r == Finite(n / d)
  {
    if d != 0.0 then Finite(n / d)
    else if n > 0.0 then PositiveInfinity
    else if n < 0.0 then NegativeInfinity
    else NaN
  }

  /** Math.Round(x, 2) on a double: infinities and NaN come back unchanged. */
  function RoundDouble(x: Double): (r: Double)
    ensures r.Finite? <==> x.Finite?
    ensures !x.Finite? ==> r == x
  {
    match x
    case Finite(v) => Finite(RoundTwoDigits(v))
    case _ => x
  }

  /** Math.Clamp on a double: every comparison with NaN is false, so NaN comes back unchanged. */
  function ClampDouble(x: Double, lo: real, hi: real): (r: Double)
    requires lo <= hi
    ensures r.NaN? <==> x.NaN?
    ensures r.Finite? ==> lo <= r.value <= hi
  {
    match x
    case Finite(v) => Finite(Clamp(v, lo, hi))
    case PositiveInfinity => Finite(hi)
    case NegativeInfinity => Finite(lo)
    case NaN => NaN
  }
}
