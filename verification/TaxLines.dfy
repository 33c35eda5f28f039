/** Each line of a bill, told from the rules: which rules apply, what each is charged on, and in which order. */
module TaxLines {
  import opened Base
  import opened CompoundOrder
  import opened PropertyTax
  import opened Rounding
  import opened TaxPosting
  import opened TaxRules
  import opened TaxTotals

  // ----- Which rules apply -----

  /** Active, with a code, and meant for the category or for all. */
  predicate Applicable(r: Rule, category: Category) {
    r.active && r.code.Some? && exists i :: 0 <= i < |r.appliesTo| && (r.appliesTo[i] == All || r.appliesTo[i] == category)
  }

  predicate Gives(r: Rule, category: Category, t: Tax) {
    Applicable(r, category) && t == Tax(r.code.value, r.rate, r.inclusive, r.timing)
  }

  /** The rules that apply are exactly those, with the code, rate, kind and timing of each. */
  lemma {:induction false} SelectedExactly(rules: seq<Rule>, category: Category, t: Tax)
    ensures t in ActiveRules(rules, category) <==> exists i :: 0 <= i < |rules| && Gives(rules[i], category, t)
  {
    if rules != [] {
      var n := |rules| - 1;
      SelectedExactly(rules[..n], category, t);
      AppliesExactly(rules[n], category);
      GivenBefore(rules, category, t);
    }
  }

  lemma GivenBefore(rules: seq<Rule>, category: Category, t: Tax)
    requires rules != []
    ensures
      var n := |rules| - 1;
      (exists i :: 0 <= i < |rules| && Gives(rules[i], category, t))
      <==> Gives(rules[n], category, t) || exists i :: 0 <= i < n && Gives(rules[..n][i], category, t)
  {
    var n := |rules| - 1;
    if i :| 0 <= i < n && Gives(rules[..n][i], category, t) {
      assert Gives(rules[i], category, t);
    }
    if i :| 0 <= i < |rules| && Gives(rules[i], category, t) {
      assert i < n ==> Gives(rules[..n][i], category, t);
    }
  }

  lemma AppliesExactly(r: Rule, category: Category)
    ensures Applies(r, category) <==> Applicable(r, category)
  {
    if Applies(r, category) {
      if All in r.appliesTo {
        var i :| 0 <= i < |r.appliesTo| && r.appliesTo[i] == All;
      } else {
        var i :| 0 <= i < |r.appliesTo| && r.appliesTo[i] == category;
      }
    }
  }

  /** They apply in the order of the pack. */
  lemma {:induction false} SelectionKeepsOrder(rules: seq<Rule>, category: Category, i: nat, j: nat) returns (a: nat, b: nat)
    requires i < j < |rules| && Applicable(rules[i], category) && Applicable(rules[j], category)
    ensures a < b < |ActiveRules(rules, category)|
    ensures ActiveRules(rules, category)[a] == TaxOf(rules[i]) && ActiveRules(rules, category)[b] == TaxOf(rules[j])
  {
    var n := |rules| - 1;
    if j < n {
      a, b := SelectionKeepsOrder(rules[..n], category, i, j);
    } else {
      AppliesExactly(rules[j], category);
      a := SelectedAt(rules[..n], category, i);
      b := |ActiveRules(rules[..n], category)|;
    }
  }

  lemma {:induction false} SelectedAt(rules: seq<Rule>, category: Category, i: nat) returns (a: nat)
    requires i < |rules| && Applicable(rules[i], category)
    ensures a < |ActiveRules(rules, category)| && ActiveRules(rules, category)[a] == TaxOf(rules[i])
  {
    var n := |rules| - 1;
    if i < n {
      a := SelectedAt(rules[..n], category, i);
    } else {
      AppliesExactly(rules[i], category);
      a := |ActiveRules(rules[..n], category)|;
    }
  }

  // ----- What each is charged on -----

  /** The base price and the exclusive lines among the first n. */
  function PriceAfter(base: real, lines: seq<Line>, taxes: seq<Tax>, n: nat): real
    requires n <= |lines| && n <= |taxes|
  {
    if n == 0 then base
    else PriceAfter(base, lines, taxes, n - 1) + if taxes[n - 1].inclusive then 0.0 else lines[n - 1].amount as real
  }

  /** What each rule is charged on: the base price for the first `onBase`, then the base and the exclusive lines so far. */
  function Prices(base: real, lines: seq<Line>, taxes: seq<Tax>, onBase: nat): seq<real>
    requires |lines| == |taxes|
  {
    seq(|taxes|, i requires 0 <= i < |taxes| => if i < onBase then base else PriceAfter(base, lines, taxes, i))
  }

  /** A line per rule: its code, and its amount on its price. */
  function LinesOf(prices: seq<real>, taxes: seq<Tax>): (lines: seq<Line>)
    requires |prices| == |taxes|
    ensures |lines| == |taxes|
  {
    if taxes == [] then [] else
    var n := |taxes| - 1;
    LinesOf(prices[..n], taxes[..n]) + [Line(taxes[n].code, Amount(prices[n], taxes[n]))]
  }

  /** Every rule is charged on its price, and the running total is the base price and all exclusive lines. */
  predicate ChargedInTurn(base: real, bill: Bill, taxes: seq<Tax>, onBase: nat) {
    && |bill.lines| == |taxes| && onBase <= |taxes|
    && bill.lines == LinesOf(Prices(base, bill.lines, taxes, onBase), taxes)
    && bill.running == PriceAfter(base, bill.lines, taxes, |taxes|)
  }

  lemma {:induction false} PriceAfterPrefix(base: real, lines: seq<Line>, more: seq<Line>, taxes: seq<Tax>, others: seq<Tax>, n: nat)
    requires n <= |lines| && n <= |taxes|
    ensures PriceAfter(base, lines + more, taxes + others, n) == PriceAfter(base, lines, taxes, n)
  {
    if n > 0 {
      PriceAfterPrefix(base, lines, more, taxes, others, n - 1);
    }
  }

  lemma OneMoreAdded(base: real, lines: seq<Line>, line: Line, taxes: seq<Tax>, r: Tax)
    requires |lines| == |taxes|
    ensures forall i :: 0 <= i <= |taxes| ==> PriceAfter(base, lines + [line], taxes + [r], i) == PriceAfter(base, lines, taxes, i)
    ensures PriceAfter(base, lines + [line], taxes + [r], |taxes| + 1) == PriceAfter(base, lines, taxes, |taxes|) + if r.inclusive then 0.0 else line.amount as real
  {
    forall i | 0 <= i <= |taxes| ensures PriceAfter(base, lines + [line], taxes + [r], i) == PriceAfter(base, lines, taxes, i) {
      PriceAfterPrefix(base, lines, [line], taxes, [r], i);
    }
  }

  lemma OneMoreBasePrice(base: real, lines: seq<Line>, line: Line, taxes: seq<Tax>, r: Tax)
    requires |lines| == |taxes|
    ensures Prices(base, lines + [line], taxes + [r], |taxes| + 1) == Prices(base, lines, taxes, |taxes|) + [base]
  {
  }

  lemma OneMorePrice(base: real, lines: seq<Line>, line: Line, taxes: seq<Tax>, r: Tax, onBase: nat)
    requires |lines| == |taxes| && onBase <= |taxes|
    ensures
      Prices(base, lines + [line], taxes + [r], onBase) == Prices(base, lines, taxes, onBase) + [PriceAfter(base, lines, taxes, |taxes|)]
  {
    var prices := Prices(base, lines, taxes, onBase) + [PriceAfter(base, lines, taxes, |taxes|)];
    forall i | 0 <= i < |prices| ensures Prices(base, lines + [line], taxes + [r], onBase)[i] == prices[i] {
      PriceAfterPrefix(base, lines, [line], taxes, [r], i);
    }
  }

  lemma {:induction false} LineAt(prices: seq<real>, taxes: seq<Tax>, i: nat)
    requires i < |taxes| == |prices|
    ensures LinesOf(prices, taxes)[i] == Line(taxes[i].code, Amount(prices[i], taxes[i]))
  {
    var n := |taxes| - 1;
    if i < n {
      LineAt(prices[..n], taxes[..n], i);
    }
  }

  lemma OneMoreLine(prices: seq<real>, taxes: seq<Tax>, price: real, r: Tax)
    requires |prices| == |taxes|
    ensures LinesOf(prices + [price], taxes + [r]) == LinesOf(prices, taxes) + [Line(r.code, Amount(price, r))]
  {
    assert (prices + [price])[..|taxes|] == prices && (taxes + [r])[..|taxes|] == taxes;
  }

  /** One more rule on the base price, while there is no compound rule yet. */
  lemma OneMoreOnBase(base: real, bill: Bill, taxes: seq<Tax>, r: Tax)
    requires ChargedInTurn(base, bill, taxes, |taxes|)
    ensures ChargedInTurn(base, Charged(bill, base, r), taxes + [r], |taxes| + 1)
  {
    var line := Line(r.code, Amount(base, r));
    OneMoreAdded(base, bill.lines, line, taxes, r);
    OneMoreLine(Prices(base, bill.lines, taxes, |taxes|), taxes, base, r);
    OneMoreBasePrice(base, bill.lines, line, taxes, r);
  }

  /** One more rule on the running total. */
  lemma OneMoreCompound(base: real, bill: Bill, taxes: seq<Tax>, onBase: nat, r: Tax)
    requires ChargedInTurn(base, bill, taxes, onBase)
    ensures ChargedInTurn(base, Charged(bill, bill.running, r), taxes + [r], onBase)
  {
    var line := Line(r.code, Amount(bill.running, r));
    OneMoreAdded(base, bill.lines, line, taxes, r);
    OneMoreLine(Prices(base, bill.lines, taxes, onBase), taxes, bill.running, r);
    OneMorePrice(base, bill.lines, line, taxes, r, onBase);
  }

  lemma {:induction false} OnBaseInTurn(base: real, taxes: seq<Tax>)
    ensures ChargedInTurn(base, ChargedOnBase(base, taxes), taxes, |taxes|)
  {
    if taxes != [] {
      var n := |taxes| - 1;
      OnBaseInTurn(base, taxes[..n]);
      OneMoreOnBase(base, ChargedOnBase(base, taxes[..n]), taxes[..n], taxes[n]);
      assert taxes[..n] + [taxes[n]] == taxes;
    }
  }

  lemma {:induction false} CompoundedInTurn(base: real, start: Bill, before: seq<Tax>, taxes: seq<Tax>)
    requires ChargedInTurn(base, start, before, |before|)
    ensures ChargedInTurn(base, Compounded(start, taxes), before + taxes, |before|)
  {
    if taxes == [] {
      assert before + taxes == before;
    } else {
      var n := |taxes| - 1;
      CompoundedInTurn(base, start, before, taxes[..n]);
      OneMoreCompound(base, Compounded(start, taxes[..n]), before + taxes[..n], |before|, taxes[n]);
      assert before + taxes[..n] + [taxes[n]] == before + taxes;
    }
  }

  /**
   Every rule that is not compound is charged on the base price, whatever the other rules are; then every compound rule
   on the base price and the exclusive lines before its own.
   */
  lemma EachChargedInTurn(base: real, taxes: seq<Tax>)
    requires Separate(taxes)
    ensures ChargedInTurn(base, Taxed(base, taxes), BilledRules(taxes), |Timed(taxes, false)|)
  {
    OnBaseInTurn(base, Timed(taxes, false));
    CompoundedInTurn(base, ChargedOnBase(base, Timed(taxes, false)), Timed(taxes, false), InOrderOf(taxes));
  }

  /** Each line of the bill, with what was added before it. */
  lemma EachLine(base: real, taxes: seq<Tax>, i: nat)
    requires Separate(taxes) && i < |BilledRules(taxes)|
    ensures
      var lines, rules, onBase := Taxed(base, taxes).lines, BilledRules(taxes), |Timed(taxes, false)|;
      && |lines| == |rules|
      && lines[i] == Line(rules[i].code, Amount(Prices(base, lines, rules, onBase)[i], rules[i]))
  {
    EachChargedInTurn(base, taxes);
    LineInTurn(base, Taxed(base, taxes), BilledRules(taxes), |Timed(taxes, false)|, i);
  }

  lemma LineInTurn(base: real, bill: Bill, taxes: seq<Tax>, onBase: nat, i: nat)
    requires ChargedInTurn(base, bill, taxes, onBase) && i < |taxes|
    ensures bill.lines[i] == Line(taxes[i].code, Amount(Prices(base, bill.lines, taxes, onBase)[i], taxes[i]))
  {
    LineAt(Prices(base, bill.lines, taxes, onBase), taxes, i);
  }

  /** What the exclusive rules add when each is charged on one price. */
  function AddedOnBase(base: real, taxes: seq<Tax>): Cents {
    if taxes == [] then 0 else
    var last := taxes[|taxes| - 1];
    AddedOnBase(base, taxes[..|taxes| - 1]) + if last.inclusive then 0 else Amount(base, last)
  }

  lemma {:induction false} AddedWithout(base: real, taxes: seq<Tax>, j: nat)
    requires j < |taxes|
    ensures AddedOnBase(base, taxes) == AddedOnBase(base, Without(taxes, j)) + if taxes[j].inclusive then 0 else Amount(base, taxes[j])
  {
    var n := |taxes| - 1;
    if j < n {
      AddedWithout(base, taxes[..n], j);
      WithoutEnds(taxes, j);
    } else {
      assert Without(taxes, j) == taxes[..n];
    }
  }

  /** The order of the rules that are not compound makes no difference. */
  lemma {:induction false} BaseOrderDoesNotMatter(base: real, a: seq<Tax>, b: seq<Tax>)
    requires multiset(a) == multiset(b)
    ensures AddedOnBase(base, a) == AddedOnBase(base, b)
    decreases |a|
  {
    if a == [] {
      assert |multiset(b)| == 0;
    } else {
      var j := LastElsewhere(a, b);
      BaseOrderDoesNotMatter(base, a[..|a| - 1], Without(b, j));
      AddedWithout(base, b, j);
    }
  }

  lemma {:induction false} OnBaseAdds(base: real, taxes: seq<Tax>)
    ensures ChargedOnBase(base, taxes).running == base + AddedOnBase(base, taxes) as real
  {
    if taxes != [] {
      OnBaseAdds(base, taxes[..|taxes| - 1]);
    }
  }

  /** Before compounding starts the running total is the base price and what each exclusive rule takes of it, in any order of the rules. */
  lemma BasePermutation(base: real, taxes: seq<Tax>, other: seq<Tax>)
    requires Separate(taxes) && multiset(other) == multiset(Timed(taxes, false))
    ensures
      var bill := Taxed(base, taxes);
      |bill.lines| == |BilledRules(taxes)| && PriceAfter(base, bill.lines, BilledRules(taxes), |Timed(taxes, false)|) == base + AddedOnBase(base, other) as real
  {
    var n, lines := |Timed(taxes, false)|, Taxed(base, taxes).lines;
    EachChargedInTurn(base, taxes);
    AddedEach(base, lines, Prices(base, lines, BilledRules(taxes), n), BilledRules(taxes), n);
    assert BilledRules(taxes)[..n] == Timed(taxes, false);
    BaseOrderDoesNotMatter(base, other, Timed(taxes, false));
  }

  lemma {:induction false} AddedEach(base: real, lines: seq<Line>, prices: seq<real>, taxes: seq<Tax>, n: nat)
    requires n <= |taxes| == |prices| && lines == LinesOf(prices, taxes) && forall i :: 0 <= i < n ==> prices[i] == base
    ensures PriceAfter(base, lines, taxes, n) == base + AddedOnBase(base, taxes[..n]) as real
  {
    if n > 0 {
      AddedEach(base, lines, prices, taxes, n - 1);
      LineAt(prices, taxes, n - 1);
      assert taxes[..n][..n - 1] == taxes[..n - 1];
    }
  }

  /** Rules that are all on the base price come to the base and what each exclusive one takes of it, in any order of theirs. */
  lemma WithoutCompoundRules(base: real, taxes: seq<Tax>, other: seq<Tax>)
    requires Separate(taxes) && (forall t :: t in taxes ==> t.timing.OnBase?) && multiset(other) == multiset(Timed(taxes, false))
    ensures Taxed(base, taxes).running == base + AddedOnBase(base, other) as real
  {
    TimedShape(taxes, true);
    OrderIsPermutation(taxes);
    assert Timed(taxes, true) == [];
    assert |multiset(InOrderOf(taxes))| == 0;
    assert InOrderOf(taxes) == [];
    OnBaseAdds(base, Timed(taxes, false));
    BaseOrderDoesNotMatter(base, other, Timed(taxes, false));
  }

  /** The tax of an exclusive rule is its rate of the price to the nearest cent, half a cent away from zero. */
  lemma ExclusiveAmount(price: real, r: Tax, tax: real)
    requires !r.inclusive && tax == price * r.rate
    ensures Abs(Amount(price, r) as real - tax) <= 0.5
    ensures price >= 0.0 && Tie(tax) ==> Amount(price, r) as real == tax + 0.5
  {
    assert ExactTax(price, r.rate) == tax;
    HalfUpIsNear(tax);
    if price >= 0.0 && Tie(tax) {
      ProductIsNotNegative(price, r.rate);
      TieGoesUp(tax);
    }
  }

  lemma ProductIsNotNegative(price: real, rate: Rate)
    requires price >= 0.0
    ensures price * rate >= 0.0
  {
  }

  lemma TieGoesUp(x: real)
    requires x >= 0.0 && Tie(x)
    ensures HalfUp(x) as real == x + 0.5
  {
    assert (x + 0.5).Floor == x.Floor + 1;
  }

  /** Without inclusive mode the room charge is the price itself. */
  lemma ExclusiveRoomCharge(base: real, rules: seq<Rule>, category: Category, mode: Option<Mode>)
    requires Separate(ActiveRules(rules, category)) && mode != Some(Inclusive)
    ensures Post(base, rules, category, mode).roomCharge == HalfUp(base)
    ensures mode == Some(Off) ==> Post(base, rules, category, mode).lines == []
  {
  }

  // ----- In which order -----

  /** The chain of rules a compound rule comes after ends, n rules on, at one that waits for nothing the pack has. */
  ghost predicate ChainEnds(taxes: seq<Tax>, c: Tax, n: nat)
    decreases n
  {
    && c in taxes && c.timing.After?
    && if n == 0 then c.timing.dep.None? || forall t :: t in taxes ==> t.code != c.timing.dep.value
       else exists d :: d in taxes && c.timing.dep == Some(d.code) && ChainEnds(taxes, d, n - 1)
  }

  /** The rule is listed before the other. */
  predicate Earlier(taxes: seq<Tax>, d: Tax, c: Tax) {
    exists i, j :: 0 <= i < j < |taxes| && taxes[i] == d && taxes[j] == c
  }

  lemma {:induction false} DependenciesOf(compound: seq<Tax>, c: Tax)
    requires Separate(compound) && c in compound
    ensures c.code in Dependencies(compound) && Dependencies(compound)[c.code] == if c.timing.After? then c.timing.dep else None
  {
    var n := |compound| - 1;
    if compound[n] == c {
    } else {
      var i :| 0 <= i < |compound| && compound[i] == c;
      assert compound[..n][i] == c;
      DependenciesOf(compound[..n], c);
    }
  }

  /** The ordering problem posed is that of the rules. */
  lemma Posed(taxes: seq<Tax>, c: Tax)
    requires Separate(taxes) && c in taxes && c.timing.After?
    ensures
      var r := OrderingOf(taxes);
      && c.code in r.nodes && c.code in r.deps && r.deps[c.code] == c.timing.dep
      && forall x :: x in r.known <==> exists t :: t in taxes && t.code == x
  {
    var compound := Timed(taxes, true);
    TimedShape(taxes, true);
    DependenciesOf(compound, c);
    var i :| 0 <= i < |compound| && compound[i] == c;
    assert Codes(compound)[i] == c.code;
  }

  lemma NodeIsCompound(taxes: seq<Tax>, code: Code) returns (c: Tax)
    requires Separate(taxes) && code in OrderingOf(taxes).nodes
    ensures c in taxes && c.timing.After? && c.code == code
  {
    var compound := Timed(taxes, true);
    TimedShape(taxes, true);
    var i :| 0 <= i < |compound| && Codes(compound)[i] == code;
    c := compound[i];
  }

  lemma {:induction false} ChainIsGrounded(taxes: seq<Tax>, c: Tax, n: nat)
    requires Separate(taxes) && c in taxes && c.timing.After?
    ensures ChainEnds(taxes, c, n) <==> OrderingOf(taxes).GroundedIn(c.code, n)
    decreases n
  {
    var r := OrderingOf(taxes);
    Posed(taxes, c);
    if n == 0 {
    } else {
      if ChainEnds(taxes, c, n) {
        var d :| d in taxes && c.timing.dep == Some(d.code) && ChainEnds(taxes, d, n - 1);
        ChainIsGrounded(taxes, d, n - 1);
      }
      if r.GroundedIn(c.code, n) {
        var code := c.timing.dep.value;
        assert r.GroundedIn(code, n - 1);
        var d := NodeIsCompound(taxes, code);
        ChainIsGrounded(taxes, d, n - 1);
      }
    }
  }

  lemma {:induction false} PickedCodes(taxes: seq<Tax>, codes: seq<Code>)
    requires forall c :: c in codes ==> exists t :: t in taxes && t.code == c
    ensures Codes(Picked(taxes, codes)) == codes
  {
    if codes != [] {
      var n := |codes| - 1;
      FindShape(taxes, codes[n]);
      assert codes[n] in codes;
      forall c | c in codes[..n] ensures exists t :: t in taxes && t.code == c {
        assert c in codes;
      }
      PickedCodes(taxes, codes[..n]);
      var rest, last := Picked(taxes, codes[..n]), Find(taxes, codes[n]).value;
      assert Codes(rest + [last]) == Codes(rest) + [last.code];
    }
  }

  lemma EarlierByCode(taxes: seq<Tax>, d: Tax, c: Tax)
    requires Separate(taxes) && c in taxes && d in taxes
    ensures Earlier(taxes, d, c) <==> Before(Codes(taxes), d.code, c.code)
  {
    if Earlier(taxes, d, c) {
      var i, j :| 0 <= i < j < |taxes| && taxes[i] == d && taxes[j] == c;
      assert Codes(taxes)[i] == d.code && Codes(taxes)[j] == c.code;
    }
    if Before(Codes(taxes), d.code, c.code) {
      var i, j :| 0 <= i < j < |taxes| && Codes(taxes)[i] == d.code && Codes(taxes)[j] == c.code;
      SameCodeSameTax(taxes, taxes[i], d);
      SameCodeSameTax(taxes, taxes[j], c);
    }
  }

  lemma OrderHasCodes(taxes: seq<Tax>)
    requires Separate(taxes)
    ensures OrderingOf(taxes).Valid() && Codes(InOrderOf(taxes)) == Order(OrderingOf(taxes)) && Separate(InOrderOf(taxes))
  {
    var compound, r := Timed(taxes, true), OrderingOf(taxes);
    OrderingIsValid(taxes);
    OrderMeaning(r);
    TimedShape(taxes, true);
    PickedShape(compound, Order(r));
    forall code | code in Order(r) ensures exists t :: t in compound && t.code == code {
      assert code in multiset(Order(r));
      assert code in r.nodes;
      var i :| 0 <= i < |compound| && Codes(compound)[i] == code;
      assert compound[i] in compound;
    }
    PickedCodes(compound, Order(r));
  }

  lemma {:induction false} TimedKeepsPlaces(taxes: seq<Tax>, compound: bool, d: Tax, c: Tax)
    requires c.timing.After? == compound && d.timing.After? == compound
    ensures Earlier(Timed(taxes, compound), d, c) <==> Earlier(taxes, d, c)
  {
    if taxes != [] {
      var n := |taxes| - 1;
      TimedKeepsPlaces(taxes[..n], compound, d, c);
      TimedHas(taxes[..n], compound, d);
      EarlierBeforeLast(taxes[..n], taxes[n], d, c);
      EarlierBeforeLast(Timed(taxes[..n], compound), taxes[n], d, c);
      assert taxes[..n] + [taxes[n]] == taxes;
      assert Timed(taxes, compound) == if taxes[n].timing.After? == compound then Timed(taxes[..n], compound) + [taxes[n]] else Timed(taxes[..n], compound);
    }
  }

  lemma {:induction false} TimedHas(taxes: seq<Tax>, compound: bool, t: Tax)
    requires t.timing.After? == compound
    ensures t in Timed(taxes, compound) <==> t in taxes
  {
    if taxes != [] {
      var n := |taxes| - 1;
      TimedHas(taxes[..n], compound, t);
      assert taxes[..n] + [taxes[n]] == taxes;
    }
  }

  lemma EarlierBeforeLast(taxes: seq<Tax>, last: Tax, d: Tax, c: Tax)
    ensures Earlier(taxes + [last], d, c) <==> Earlier(taxes, d, c) || (d in taxes && c == last)
  {
    var all := taxes + [last];
    if Earlier(taxes, d, c) {
      var i, j :| 0 <= i < j < |taxes| && taxes[i] == d && taxes[j] == c;
      assert all[i] == d && all[j] == c;
    }
    if d in taxes && c == last {
      var i :| 0 <= i < |taxes| && taxes[i] == d;
      assert all[i] == d && all[|taxes|] == c;
    }
    if Earlier(all, d, c) {
      var i, j :| 0 <= i < j < |all| && all[i] == d && all[j] == c;
      assert taxes[i] == d;
      if j < |taxes| {
        assert taxes[j] == c;
      }
    }
  }

  lemma PlacesByCode(taxes: seq<Tax>, c: Tax, d: Tax)
    requires Separate(taxes) && c in taxes && d in taxes && c.timing.After? && d.timing.After?
    ensures OrderingOf(taxes).Valid()
    ensures Earlier(InOrderOf(taxes), d, c) <==> Before(Order(OrderingOf(taxes)), d.code, c.code)
    ensures Earlier(Timed(taxes, true), d, c) <==> Before(OrderingOf(taxes).nodes, d.code, c.code)
  {
    OrderHasCodes(taxes);
    OrderedMembers(taxes);
    TimedShape(taxes, true);
    EarlierByCode(InOrderOf(taxes), d, c);
    EarlierByCode(Timed(taxes, true), d, c);
  }

  lemma GroundedByCode(taxes: seq<Tax>, c: Tax, d: Tax)
    requires Separate(taxes) && c in taxes && d in taxes && c.timing == After(Some(d.code)) && d.timing.After?
    ensures c.code in OrderingOf(taxes).nodes && d.code in OrderingOf(taxes).nodes && OrderingOf(taxes).Follows(c.code, d.code)
    ensures OrderingOf(taxes).Grounded(c.code) <==> exists n: nat :: ChainEnds(taxes, c, n)
  {
    Posed(taxes, c);
    Posed(taxes, d);
    if OrderingOf(taxes).Grounded(c.code) {
      var n :| OrderingOf(taxes).GroundedIn(c.code, n);
      ChainIsGrounded(taxes, c, n);
    }
    if n: nat :| ChainEnds(taxes, c, n) {
      ChainIsGrounded(taxes, c, n);
      assert OrderingOf(taxes).GroundedIn(c.code, n);
    }
  }

  /**
   A compound rule is charged after the compound rule it names if and only if the chain of rules from it ends at one that
   waits for nothing the pack has, or the pack already lists them in that order.
   */
  lemma ChargedAfterExactlyWhen(taxes: seq<Tax>, c: Tax, d: Tax)
    requires Separate(taxes) && c in taxes && d in taxes && c.timing == After(Some(d.code)) && d.timing.After?
    ensures Earlier(InOrderOf(taxes), d, c) <==> (exists n: nat :: ChainEnds(taxes, c, n)) || Earlier(taxes, d, c)
  {
    TimedKeepsPlaces(taxes, true, d, c);
    PlacesByCode(taxes, c, d);
    GroundedByCode(taxes, c, d);
    ChainIsFollowedExactlyWhen(OrderingOf(taxes), c.code, d.code);
  }
}
