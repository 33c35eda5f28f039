/** What the rule engine's totals are worth: how far rounding and order can move them, and where every cent goes. */
module TaxTotals {
  import opened Base
  import opened CompoundOrder
  import opened PropertyTax
  import opened Rounding
  import opened TaxRules

  // ----- Rounding along a chain -----

  /** A total taxed without rounding: multiplied by 1 + rate unless the rule is inclusive. */
  function Grown(exact: real, r: Tax): real {
    if r.inclusive then exact else exact + ExactTax(exact, r.rate)
  }

  /** The exact product: a starting total compounded without rounding. */
  function Growth(start: real, taxes: seq<Tax>): real {
    if taxes == [] then start else Grown(Growth(start, taxes[..|taxes| - 1]), taxes[|taxes| - 1])
  }

  /** How many of the rules add to the running total. */
  function Exclusives(taxes: seq<Tax>): nat {
    if taxes == [] then 0 else Exclusives(taxes[..|taxes| - 1]) + if taxes[|taxes| - 1].inclusive then 0 else 1
  }

  function Pow2(k: nat): real {
    if k == 0 then 1.0 else 2.0 * Pow2(k - 1)
  }

  lemma ErrorsAdd(running: real, exact: real, amount: real, tax: real, exactTax: real, slack: real)
    requires Abs(running - exact) <= slack && Abs(amount - tax) <= 0.5 && Abs(tax - exactTax) <= slack
    ensures Abs(running + amount - (exact + exactTax)) <= 2.0 * slack + 0.5
  {
  }

  lemma TaxesAreNear(running: real, exact: real, rate: real, slack: real)
    requires 0.0 <= rate <= 1.0 && Abs(running - exact) <= slack
    ensures Abs(ExactTax(running, rate) - ExactTax(exact, rate)) <= slack
  {
    ErrorTimesRate(running - exact, rate, slack);
    assert (running - exact) * rate == running * rate - exact * rate;
  }

  /** The running total after one more rule. */
  function Next(running: real, r: Tax): real {
    if r.inclusive then running else running + Amount(running, r) as real
  }

  /** At most (2^k - 1) / 2 cents apart. */
  ghost predicate Within(x: real, y: real, k: nat) {
    2.0 * Abs(x - y) <= Pow2(k) - 1.0
  }

  /** One exclusive rule at most doubles the error so far and adds half a cent. */
  lemma NextIsNear(running: real, exact: real, r: Tax, slack: real)
    requires Abs(running - exact) <= slack
    ensures Abs(Next(running, r) - Grown(exact, r)) <= if r.inclusive then slack else 2.0 * slack + 0.5
  {
    if !r.inclusive {
      var tax := ExactTax(running, r.rate);
      TaxesAreNear(running, exact, r.rate, slack);
      HalfUpIsNear(tax);
      ErrorsAdd(running, exact, HalfUp(tax) as real, tax, ExactTax(exact, r.rate), slack);
    }
  }

  lemma NextOfCompounded(start: Bill, taxes: seq<Tax>)
    requires taxes != []
    ensures Compounded(start, taxes).running == Next(Compounded(start, taxes[..|taxes| - 1]).running, taxes[|taxes| - 1])
  {
  }

  /** After k exclusive rules the running total is within (2^k - 1) / 2 cents of the exact product. */
  lemma {:induction false} RoundingBound(start: Bill, taxes: seq<Tax>)
    ensures Within(Compounded(start, taxes).running, Growth(start.running, taxes), Exclusives(taxes))
  {
    if taxes != [] {
      var rest, r := taxes[..|taxes| - 1], taxes[|taxes| - 1];
      RoundingBound(start, rest);
      NextOfCompounded(start, taxes);
      NextIsNear(Compounded(start, rest).running, Growth(start.running, rest), r, (Pow2(Exclusives(rest)) - 1.0) / 2.0);
    }
  }

  // ----- Any order -----

  /** The rules but one. */
  function Without(taxes: seq<Tax>, j: nat): (rest: seq<Tax>)
    requires j < |taxes|
    ensures |rest| == |taxes| - 1
  {
    taxes[..j] + taxes[j + 1..]
  }

  lemma WithoutEnds(taxes: seq<Tax>, j: nat)
    requires j < |taxes| - 1
    ensures Without(taxes, j)[..|taxes| - 2] == Without(taxes[..|taxes| - 1], j)
    ensures Without(taxes, j)[|taxes| - 2] == taxes[|taxes| - 1]
  {
  }

  lemma Swapped(exact: real, a: Tax, b: Tax)
    ensures Grown(Grown(exact, a), b) == Grown(Grown(exact, b), a)
  {
  }

  lemma {:induction false} TakeOut(start: real, taxes: seq<Tax>, j: nat)
    requires j < |taxes|
    ensures Growth(start, taxes) == Grown(Growth(start, Without(taxes, j)), taxes[j])
  {
    var n := |taxes| - 1;
    if j < n {
      TakeOut(start, taxes[..n], j);
      WithoutEnds(taxes, j);
      Swapped(Growth(start, Without(taxes[..n], j)), taxes[j], taxes[n]);
    } else {
      assert Without(taxes, j) == taxes[..n];
    }
  }

  lemma {:induction false} OneExclusiveLess(taxes: seq<Tax>, j: nat)
    requires j < |taxes|
    ensures Exclusives(taxes) == Exclusives(Without(taxes, j)) + if taxes[j].inclusive then 0 else 1
  {
    var n := |taxes| - 1;
    if j < n {
      OneExclusiveLess(taxes[..n], j);
      WithoutEnds(taxes, j);
    } else {
      assert Without(taxes, j) == taxes[..n];
    }
  }

  lemma BagWithout(taxes: seq<Tax>, j: nat)
    requires j < |taxes|
    ensures multiset(Without(taxes, j)) == multiset(taxes) - multiset{taxes[j]}
  {
    assert taxes == taxes[..j] + [taxes[j]] + taxes[j + 1..];
  }

  lemma LastElsewhere(a: seq<Tax>, b: seq<Tax>) returns (j: nat)
    requires multiset(a) == multiset(b) && a != []
    ensures j < |b| && b[j] == a[|a| - 1] && multiset(a[..|a| - 1]) == multiset(Without(b, j))
  {
    var n := |a| - 1;
    assert a[n] in multiset(b);
    j :| 0 <= j < |b| && b[j] == a[n];
    BagWithout(a, n);
    BagWithout(b, j);
    assert Without(a, n) == a[..n];
  }

  /** The exact product does not depend on the order. */
  lemma {:induction false} SameBagSameGrowth(start: real, a: seq<Tax>, b: seq<Tax>)
    requires multiset(a) == multiset(b)
    ensures Growth(start, a) == Growth(start, b) && Exclusives(a) == Exclusives(b)
    decreases |a|
  {
    if a == [] {
      assert |multiset(b)| == 0;
    } else {
      var j := LastElsewhere(a, b);
      SameBagSameGrowth(start, a[..|a| - 1], Without(b, j));
      TakeOut(start, b, j);
      OneExclusiveLess(b, j);
    }
  }

  lemma NearTheSame(x: real, y: real, exact: real, k: nat)
    requires Within(x, exact, k) && Within(y, exact, k)
    ensures Abs(x - y) <= Pow2(k) - 1.0
  {
  }

  /** A bill near what these rules, charged on `start` exactly or in this order, come to. */
  ghost predicate Near(bill: Bill, start: Bill, order: seq<Tax>) {
    && Within(bill.running, Growth(start.running, order), Exclusives(order))
    && Abs(bill.running - Compounded(start, order).running) <= Pow2(Exclusives(order)) - 1.0
  }

  /**
   Two orders of the same k exclusive compound rules: each ends within (2^k - 1) / 2 cents of the
   same exact product, so they end at most 2^k - 1 cents apart.
   */
  lemma OrderBound(start: Bill, a: seq<Tax>, b: seq<Tax>)
    requires multiset(a) == multiset(b)
    ensures Near(Compounded(start, a), start, b)
  {
    RoundingBound(start, a);
    RoundingBound(start, b);
    SameBagSameGrowth(start.running, a, b);
    NearTheSame(Compounded(start, a).running, Compounded(start, b).running, Growth(start.running, b), Exclusives(b));
  }

  /** Orders do differ: one cent, taxed at 100% and then 50%, or at 50% and then 100%. */
  lemma OrderMatters()
    ensures
      var whole, half := Tax(0, 1.0, false, After(None)), Tax(1, 0.5, false, After(None));
      var start := Bill([], 1.0);
      Compounded(start, [whole, half]).running == 3.0 && Compounded(start, [half, whole]).running == 4.0
  {
    var whole, half := Tax(0, 1.0, false, After(None)), Tax(1, 0.5, false, After(None));
    var start := Bill([], 1.0);
    assert Amount(1.0, whole) == 1 && Amount(2.0, half) == 1;
    assert Amount(1.0, half) == 1 && Amount(2.0, whole) == 2;
    TwoCharges(start, whole, half);
    TwoCharges(start, half, whole);
  }

  lemma TwoCharges(start: Bill, a: Tax, b: Tax)
    ensures
      var first := Charged(start, start.running, a);
      Compounded(start, [a, b]) == Charged(first, first.running, b)
  {
    assert [a, b][..1] == [a] && [a][..0] == [];
    assert Compounded(start, []) == start;
  }

  /**
   The engine's running total, whatever the order it chose: within (2^k - 1) / 2 cents of the base
   taxes times the growth of the compound rules in any order.
   */
  lemma TaxedIsNearExact(base: real, taxes: seq<Tax>, other: seq<Tax>)
    requires Separate(taxes) && multiset(other) == multiset(Timed(taxes, true))
    ensures Near(Taxed(base, taxes), ChargedOnBase(base, Timed(taxes, false)), other)
  {
    OrderIsPermutation(taxes);
    OrderBound(ChargedOnBase(base, Timed(taxes, false)), InOrderOf(taxes), other);
  }

  // ----- Where every cent goes -----

  function Total(lines: seq<Line>): Cents {
    if lines == [] then 0 else Total(lines[..|lines| - 1]) + lines[|lines| - 1].amount
  }

  /** The part of the lines whose code is one of these. */
  function TotalOf(lines: seq<Line>, codes: set<Code>): Cents {
    if lines == [] then 0 else
    var last := lines[|lines| - 1];
    TotalOf(lines[..|lines| - 1], codes) + if last.code in codes then last.amount else 0
  }

  function InclusiveCodes(taxes: seq<Tax>): set<Code> {
    set r | r in taxes && r.inclusive :: r.code
  }

  /** The running total is the base price and the lines that are not inclusive. */
  ghost predicate Balanced(bill: Bill, base: real, inclusive: set<Code>) {
    bill.running == base + (Total(bill.lines) - TotalOf(bill.lines, inclusive)) as real
  }

  /** Each rule has been billed on one line, in order. */
  ghost predicate BilledTo(lines: seq<Line>, taxes: seq<Tax>) {
    |lines| == |taxes| && forall i :: 0 <= i < |lines| ==> lines[i].code == taxes[i].code
  }

  lemma ChargeBalances(bill: Bill, price: real, r: Tax, base: real, inclusive: set<Code>)
    requires Balanced(bill, base, inclusive) && (r.code in inclusive <==> r.inclusive)
    ensures Balanced(Charged(bill, price, r), base, inclusive)
  {
    var next := Charged(bill, price, r).lines;
    assert next[..|bill.lines|] == bill.lines;
  }

  lemma {:induction false} OnBaseBalances(base: real, taxes: seq<Tax>, inclusive: set<Code>)
    requires forall r :: r in taxes ==> (r.code in inclusive <==> r.inclusive)
    ensures Balanced(ChargedOnBase(base, taxes), base, inclusive)
    ensures BilledTo(ChargedOnBase(base, taxes).lines, taxes)
  {
    if taxes != [] {
      var n := |taxes| - 1;
      assert taxes == taxes[..n] + [taxes[n]];
      OnBaseBalances(base, taxes[..n], inclusive);
      ChargeBalances(ChargedOnBase(base, taxes[..n]), base, taxes[n], base, inclusive);
    }
  }

  lemma {:induction false} CompoundBalances(start: Bill, before: seq<Tax>, taxes: seq<Tax>, base: real, inclusive: set<Code>)
    requires Balanced(start, base, inclusive) && BilledTo(start.lines, before)
    requires forall r :: r in taxes ==> (r.code in inclusive <==> r.inclusive)
    ensures Balanced(Compounded(start, taxes), base, inclusive)
    ensures BilledTo(Compounded(start, taxes).lines, before + taxes)
  {
    if taxes != [] {
      var n := |taxes| - 1;
      assert taxes == taxes[..n] + [taxes[n]];
      CompoundBalances(start, before, taxes[..n], base, inclusive);
      var bill := Compounded(start, taxes[..n]);
      ChargeBalances(bill, bill.running, taxes[n], base, inclusive);
    }
  }

  lemma InclusiveExactly(taxes: seq<Tax>)
    requires Separate(taxes)
    ensures forall r :: r in taxes ==> (r.code in InclusiveCodes(taxes) <==> r.inclusive)
  {
    forall r | r in taxes && r.code in InclusiveCodes(taxes) ensures r.inclusive {
      var other :| other in taxes && other.inclusive && other.code == r.code;
      SameCodeSameTax(taxes, other, r);
    }
  }

  lemma OrderedMembers(taxes: seq<Tax>)
    requires Separate(taxes)
    ensures forall r :: r in InOrderOf(taxes) <==> r in taxes && r.timing.After?
  {
    OrderIsPermutation(taxes);
    TimedShape(taxes, true);
    forall r ensures r in InOrderOf(taxes) <==> r in Timed(taxes, true) {
      assert r in InOrderOf(taxes) <==> r in multiset(InOrderOf(taxes));
      assert r in Timed(taxes, true) <==> r in multiset(Timed(taxes, true));
    }
  }

  /** Every rule is billed once, and the running total is the base price plus exactly the lines of the exclusive rules. */
  lemma TaxedBalances(base: real, taxes: seq<Tax>)
    requires Separate(taxes)
    ensures Balanced(Taxed(base, taxes), base, InclusiveCodes(taxes))
    ensures BilledTo(Taxed(base, taxes).lines, Timed(taxes, false) + InOrderOf(taxes))
  {
    var inclusive := InclusiveCodes(taxes);
    InclusiveExactly(taxes);
    TimedShape(taxes, false);
    OrderedMembers(taxes);
    OnBaseBalances(base, Timed(taxes, false), inclusive);
    CompoundBalances(ChargedOnBase(base, Timed(taxes, false)), Timed(taxes, false), InOrderOf(taxes), base, inclusive);
  }

  // ----- All inclusive -----

  ghost predicate ExtractedFrom(lines: seq<Line>, taxes: seq<Tax>, gross: real) {
    |lines| == |taxes| && forall i :: 0 <= i < |lines| ==> lines[i].amount == Amount(gross, taxes[i])
  }

  lemma {:induction false} OnBaseExtracts(base: real, taxes: seq<Tax>)
    requires forall r :: r in taxes ==> r.inclusive
    ensures ChargedOnBase(base, taxes).running == base && ExtractedFrom(ChargedOnBase(base, taxes).lines, taxes, base)
  {
    if taxes != [] {
      var n := |taxes| - 1;
      assert taxes == taxes[..n] + [taxes[n]];
      OnBaseExtracts(base, taxes[..n]);
    }
  }

  lemma {:induction false} CompoundExtracts(start: Bill, before: seq<Tax>, taxes: seq<Tax>)
    requires forall r :: r in taxes ==> r.inclusive
    requires ExtractedFrom(start.lines, before, start.running)
    ensures Compounded(start, taxes).running == start.running
    ensures ExtractedFrom(Compounded(start, taxes).lines, before + taxes, start.running)
  {
    if taxes != [] {
      var n := |taxes| - 1;
      assert taxes == taxes[..n] + [taxes[n]];
      CompoundExtracts(start, before, taxes[..n]);
    }
  }

  /** When every rule is inclusive none compounds: each is extracted from the base price alone, which is also the total. */
  lemma InclusiveIgnoresOrder(base: real, taxes: seq<Tax>)
    requires Separate(taxes) && forall r :: r in taxes ==> r.inclusive
    ensures Taxed(base, taxes).running == base
    ensures ExtractedFrom(Taxed(base, taxes).lines, Timed(taxes, false) + InOrderOf(taxes), base)
  {
    TimedShape(taxes, false);
    OrderedMembers(taxes);
    OnBaseExtracts(base, Timed(taxes, false));
    CompoundExtracts(ChargedOnBase(base, Timed(taxes, false)), Timed(taxes, false), InOrderOf(taxes));
  }
}
