/** Dividing an OTA total over the nights of a stay. */
module NightlySplit {
  import opened Base

  /** Division rounded towards zero (ROUND_DOWN). */
  function TowardsZero(total: Cents, n: nat): Cents
    requires n >= 1
  {
    if total >= 0 then total / n else -((-total) / n)
  }

  /** Every night but the last takes the rounded share; the last takes what is left. */
  function Split(total: Cents, n: nat): (prices: seq<Cents>)
    requires n >= 1
    ensures |prices| == n
  {
    var unit := TowardsZero(total, n);
    seq(n - 1, i => unit) + [total - unit * (n - 1)]
  }

  method NightlyPricesFromTotal(total: Cents, n: nat) returns (prices: seq<Cents>)
    requires n >= 1
    ensures prices == Split(total, n)
  {
    var unit := TowardsZero(total, n);
    prices := [];
    for i := 0 to n - 1
      invariant prices == seq(i, j => unit)
    {
      prices := prices + [unit];
    }
    prices := prices + [total - unit * (n - 1)];
  }

  lemma {:induction false} SumOfEqual(unit: Cents, n: nat)
    ensures Sum(seq(n, i => unit)) == unit * n
  {
    if n > 0 {
      SumOfEqual(unit, n - 1);
      assert seq(n, i => unit)[..n - 1] == seq(n - 1, i => unit);
    }
  }

  /** Nothing is lost: the nights add up to the total, whatever its sign. */
  lemma SplitSumsToTotal(total: Cents, n: nat)
    requires n >= 1
    ensures Sum(Split(total, n)) == total
  {
    var unit := TowardsZero(total, n);
    SumOfEqual(unit, n - 1);
    SumAppend(seq(n - 1, i => unit), total - unit * (n - 1));
  }

  /**
   The nights before the last are equal, and the last is further from zero by less than n cents,
   on the same side as the total.
   */
  lemma SplitIsEven(total: Cents, n: nat, i: nat)
    requires i < n
    ensures i < n - 1 ==> Split(total, n)[i] == Split(total, n)[0]
    ensures total >= 0 ==> 0 <= Split(total, n)[n - 1] - Split(total, n)[i] < n
    ensures total <= 0 ==> 0 <= Split(total, n)[i] - Split(total, n)[n - 1] < n
  {
    var unit := TowardsZero(total, n);
    assert total - unit * (n - 1) - unit == total - unit * n;
    if total >= 0 {
      assert total == unit * n + total % n;
    } else {
      assert -total == (-total) / n * n + (-total) % n;
      assert -(unit * n) == (-total) / n * n;
    }
  }
}
