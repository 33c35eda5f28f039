/** Rounding amounts to the cent. */
module Rounding {
  import opened Base

  /** ROUND_HALF_UP: to the nearest cent, ties away from zero. */
  function HalfUp(x: real): Cents {
    if x >= 0.0 then (x + 0.5).Floor else -((-x + 0.5).Floor)
  }

  function Abs(x: real): real {
    if x >= 0.0 then x else -x
  }

  /** The rounded value is within half a cent. */
  lemma HalfUpIsNear(x: real)
    ensures Abs(HalfUp(x) as real - x) <= 0.5
  {
  }

  /** Any whole number of cents less than half a cent away is the rounded value. */
  lemma HalfUpIsNearest(x: real, n: Cents)
    requires Abs(n as real - x) < 0.5
    ensures HalfUp(x) == n
  {
  }

  /** Rounding a whole number of cents changes nothing. */
  lemma HalfUpOfCents(n: Cents)
    ensures HalfUp(n as real) == n
  {
    HalfUpIsNearest(n as real, n);
  }

  /** Exactly half way between two amounts. */
  predicate Tie(x: real) {
    x - 0.5 == x.Floor as real
  }

  /** A non-negative amount and what it leaves of a whole: both are rounded up on a tie, otherwise they add up. */
  lemma HalfUpOfComplement(x: real, whole: Cents)
    requires 0.0 <= x <= whole as real
    ensures HalfUp(x) + HalfUp(whole as real - x) == whole + if Tie(x) then 1 else 0
  {
    var f := x.Floor;
    var y := whole as real - x;
    if x < f as real + 0.5 {
      HalfUpIsNearest(x, f);
      HalfUpIsNearest(y, whole - f);
    } else if x > f as real + 0.5 {
      HalfUpIsNearest(x, f + 1);
      HalfUpIsNearest(y, whole - f - 1);
    } else {
      assert (x + 0.5).Floor == f + 1;
      assert y + 0.5 == (whole - f) as real;
    }
  }
}
