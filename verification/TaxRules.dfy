/** The rule engine of a country pack: taxes on the base price, then compound taxes on the running total. */
module TaxRules {
  import opened Base
  import opened CompoundOrder
  import opened PropertyTax
  import opened Rounding

  /** Rates are fractions; the schema keeps them within 0 and 100%. */
  type Rate = r: real | 0.0 <= r <= 1.0

  /** What a rule applies to, compared after trimming and lower-casing. */
  datatype Category = All | Named(rank: nat)

  /** On the base price, or compound: after another rule, or after something that names no rule. */
  datatype Timing = OnBase | After(dep: Option<Code>)

  datatype Rule = Rule(active: bool, appliesTo: seq<Category>, code: Option<Code>, rate: Rate, inclusive: bool, timing: Timing)

  /** What the engine uses of a rule that applies. */
  datatype Tax = Tax(code: Code, rate: Rate, inclusive: bool, timing: Timing)

  datatype Line = Line(code: Code, amount: Cents)

  /** The tax lines so far and the running total, which starts at the base price. */
  datatype Bill = Bill(lines: seq<Line>, running: real)

  // ----- Which rules apply, and when -----

  predicate Applies(r: Rule, category: Category) {
    r.active && (All in r.appliesTo || category in r.appliesTo) && r.code.Some?
  }

  function TaxOf(r: Rule): Tax
    requires r.code.Some?
  {
    Tax(r.code.value, r.rate, r.inclusive, r.timing)
  }

  function ActiveRules(rules: seq<Rule>, category: Category): seq<Tax> {
    if rules == [] then [] else
    var last := rules[|rules| - 1];
    ActiveRules(rules[..|rules| - 1], category) + if Applies(last, category) then [TaxOf(last)] else []
  }

  /** The rules on the base price, or the compound ones, in input order. */
  function Timed(taxes: seq<Tax>, compound: bool): seq<Tax> {
    if taxes == [] then [] else
    var last := taxes[|taxes| - 1];
    Timed(taxes[..|taxes| - 1], compound) + if last.timing.After? == compound then [last] else []
  }

  /** No two rules share a code. */
  predicate Separate(taxes: seq<Tax>) {
    forall i, j :: 0 <= i < j < |taxes| ==> taxes[i].code != taxes[j].code
  }

  function Codes(taxes: seq<Tax>): seq<Code> {
    seq(|taxes|, i requires 0 <= i < |taxes| => taxes[i].code)
  }

  function KnownCodes(taxes: seq<Tax>): set<Code> {
    set r | r in taxes :: r.code
  }

  function Dependencies(compound: seq<Tax>): map<Code, Option<Code>> {
    if compound == [] then map[] else
    var last := compound[|compound| - 1];
    Dependencies(compound[..|compound| - 1])[last.code := if last.timing.After? then last.timing.dep else None]
  }

  /** The ordering problem the compound rules pose. */
  function OrderingOf(taxes: seq<Tax>): Rules {
    Rules(Codes(Timed(taxes, true)), Dependencies(Timed(taxes, true)), KnownCodes(taxes))
  }

  /** The last rule with a code, as a dictionary built from the rules holds it. */
  function Find(taxes: seq<Tax>, code: Code): Option<Tax> {
    if taxes == [] then None
    else if taxes[|taxes| - 1].code == code then Some(taxes[|taxes| - 1])
    else Find(taxes[..|taxes| - 1], code)
  }

  function Picked(taxes: seq<Tax>, codes: seq<Code>): seq<Tax> {
    if codes == [] then [] else
    var found := Find(taxes, codes[|codes| - 1]);
    Picked(taxes, codes[..|codes| - 1]) + if found.Some? then [found.value] else []
  }

  // ----- Charging -----

  /** The exact tax on a price. */
  function ExactTax(price: real, rate: real): real {
    price * rate
  }

  function Amount(price: real, r: Tax): Cents {
    if r.inclusive then PackInclusive(price, r.rate) else HalfUp(ExactTax(price, r.rate))
  }

  function Charged(bill: Bill, price: real, r: Tax): Bill {
    var amount := Amount(price, r);
    Bill(bill.lines + [Line(r.code, amount)], if r.inclusive then bill.running else bill.running + amount as real)
  }

  /** Every rule charged on the base price. */
  function ChargedOnBase(base: real, taxes: seq<Tax>): Bill {
    if taxes == [] then Bill([], base) else
    Charged(ChargedOnBase(base, taxes[..|taxes| - 1]), base, taxes[|taxes| - 1])
  }

  /** Every rule charged on what the running total has become. */
  function Compounded(start: Bill, taxes: seq<Tax>): Bill {
    if taxes == [] then start else
    var bill := Compounded(start, taxes[..|taxes| - 1]);
    Charged(bill, bill.running, taxes[|taxes| - 1])
  }

  /** The compound rules in the order they apply. */
  ghost function InOrderOf(taxes: seq<Tax>): seq<Tax>
    requires Separate(taxes)
  {
    OrderingIsValid(taxes);
    Picked(Timed(taxes, true), Order(OrderingOf(taxes)))
  }

  ghost function Taxed(base: real, taxes: seq<Tax>): Bill
    requires Separate(taxes)
  {
    Compounded(ChargedOnBase(base, Timed(taxes, false)), InOrderOf(taxes))
  }

  lemma {:induction false} TimedShape(taxes: seq<Tax>, compound: bool)
    requires Separate(taxes)
    ensures Separate(Timed(taxes, compound))
    ensures forall r :: r in Timed(taxes, compound) <==> r in taxes && r.timing.After? == compound
  {
    if taxes != [] {
      var n := |taxes| - 1;
      TimedShape(taxes[..n], compound);
      assert taxes == taxes[..n] + [taxes[n]];
      var rest := Timed(taxes[..n], compound);
      forall i | 0 <= i < |rest| ensures rest[i].code != taxes[n].code {
        assert rest[i] in taxes[..n];
      }
    }
  }

  lemma {:induction false} DependenciesShape(compound: seq<Tax>)
    ensures forall r :: r in compound ==> r.code in Dependencies(compound)
  {
    if compound != [] {
      DependenciesShape(compound[..|compound| - 1]);
      assert compound == compound[..|compound| - 1] + [compound[|compound| - 1]];
    }
  }

  lemma OrderingIsValid(taxes: seq<Tax>)
    requires Separate(taxes)
    ensures OrderingOf(taxes).Valid()
  {
    var compound := Timed(taxes, true);
    TimedShape(taxes, true);
    DependenciesShape(compound);
    forall c | c in Codes(compound) ensures c in Dependencies(compound) && c in KnownCodes(taxes) {
      var i :| 0 <= i < |compound| && Codes(compound)[i] == c;
      assert compound[i] in compound;
    }
  }

  // ----- The order is a permutation of the rules -----

  lemma {:induction false} FindShape(taxes: seq<Tax>, code: Code)
    ensures Find(taxes, code).Some? <==> exists r :: r in taxes && r.code == code
    ensures Find(taxes, code).Some? ==> Find(taxes, code).value in taxes && Find(taxes, code).value.code == code
  {
    if taxes != [] {
      FindShape(taxes[..|taxes| - 1], code);
      assert taxes == taxes[..|taxes| - 1] + [taxes[|taxes| - 1]];
    }
  }

  lemma SameCodeSameTax(taxes: seq<Tax>, a: Tax, b: Tax)
    requires Separate(taxes) && a in taxes && b in taxes && a.code == b.code
    ensures a == b
  {
    var i :| 0 <= i < |taxes| && taxes[i] == a;
    var j :| 0 <= j < |taxes| && taxes[j] == b;
    assert i < j || j < i || i == j;
  }

  lemma {:induction false} PickedShape(taxes: seq<Tax>, codes: seq<Code>)
    requires Separate(taxes) && Distinct(codes)
    ensures Separate(Picked(taxes, codes))
    ensures forall r: Tax :: r in Picked(taxes, codes) <==> r in taxes && r.code in codes
  {
    if codes != [] {
      var n := |codes| - 1;
      var c := codes[n];
      PickedShape(taxes, codes[..n]);
      FindShape(taxes, c);
      assert codes == codes[..n] + [c];
      forall r: Tax | r in taxes && r.code == c ensures Find(taxes, c) == Some(r) {
        SameCodeSameTax(taxes, r, Find(taxes, c).value);
      }
      var rest := Picked(taxes, codes[..n]);
      forall i | 0 <= i < |rest| ensures rest[i].code != c {
        assert rest[i] in rest;
      }
    }
  }

  lemma {:induction false} EachOnce(taxes: seq<Tax>, r: Tax)
    requires Separate(taxes)
    ensures multiset(taxes)[r] == if r in taxes then 1 else 0
  {
    if taxes != [] {
      var n := |taxes| - 1;
      EachOnce(taxes[..n], r);
      assert taxes == taxes[..n] + [taxes[n]];
      forall x | x in taxes[..n] ensures x != taxes[n] {
        var i :| 0 <= i < n && taxes[i] == x;
      }
    }
  }

  lemma SameMembersSameBag(a: seq<Tax>, b: seq<Tax>)
    requires Separate(a) && Separate(b) && forall r: Tax :: r in a <==> r in b
    ensures multiset(a) == multiset(b)
  {
    forall r: Tax ensures multiset(a)[r] == multiset(b)[r] {
      EachOnce(a, r);
      EachOnce(b, r);
    }
  }

  /** The compound rules are charged once each. */
  lemma OrderIsPermutation(taxes: seq<Tax>)
    requires Separate(taxes)
    ensures multiset(InOrderOf(taxes)) == multiset(Timed(taxes, true))
  {
    var compound, ordered := Timed(taxes, true), InOrderOf(taxes);
    OrderingIsValid(taxes);
    OrderMeaning(OrderingOf(taxes));
    TimedShape(taxes, true);
    PickedShape(compound, Order(OrderingOf(taxes)));
    forall r: Tax ensures r in ordered <==> r in compound {
      if r in compound {
        var i :| 0 <= i < |compound| && compound[i] == r;
        assert Codes(compound)[i] == r.code;
      }
    }
    SameMembersSameBag(ordered, compound);
  }

  // ----- The computation -----

  method Select(rules: seq<Rule>, category: Category) returns (taxes: seq<Tax>)
    ensures taxes == ActiveRules(rules, category)
  {
    taxes := [];
    for i := 0 to |rules|
      invariant taxes == ActiveRules(rules[..i], category)
    {
      assert rules[..i + 1][..i] == rules[..i];
      if Applies(rules[i], category) {
        taxes := taxes + [TaxOf(rules[i])];
      }
    }
    assert rules[..|rules|] == rules;
  }

  method Partition(taxes: seq<Tax>) returns (onBase: seq<Tax>, compound: seq<Tax>)
    ensures onBase == Timed(taxes, false) && compound == Timed(taxes, true)
  {
    onBase, compound := [], [];
    for i := 0 to |taxes|
      invariant onBase == Timed(taxes[..i], false) && compound == Timed(taxes[..i], true)
    {
      assert taxes[..i + 1][..i] == taxes[..i];
      if taxes[i].timing.OnBase? {
        onBase := onBase + [taxes[i]];
      } else {
        compound := compound + [taxes[i]];
      }
    }
    assert taxes[..|taxes|] == taxes;
  }

  method CollectDependencies(compound: seq<Tax>) returns (deps: map<Code, Option<Code>>)
    requires forall r :: r in compound ==> r.timing.After?
    ensures deps == Dependencies(compound)
  {
    deps := map[];
    for i := 0 to |compound|
      invariant deps == Dependencies(compound[..i])
    {
      assert compound[..i + 1][..i] == compound[..i];
      assert compound[i] in compound;
      deps := deps[compound[i].code := compound[i].timing.dep];
    }
    assert compound[..|compound|] == compound;
  }

  method AmountOnBase(base: real, r: Tax) returns (amount: Cents)
    ensures amount == Amount(base, r)
  {
    if r.inclusive {
      amount := 0;
      if r.rate != 0.0 {
        var net := HalfUp(base / (1.0 + r.rate));
        amount := HalfUp(base - net as real);
      }
    } else {
      amount := HalfUp(ExactTax(base, r.rate));
    }
  }

  /** At rate zero the net is the running total itself, unrounded, so nothing is extracted either. */
  method AmountOnRunning(running: real, r: Tax) returns (amount: Cents)
    ensures amount == Amount(running, r)
  {
    if r.inclusive {
      var net := if r.rate != 0.0 then HalfUp(running / (1.0 + r.rate)) as real else running;
      amount := HalfUp(running - net);
    } else {
      amount := HalfUp(ExactTax(running, r.rate));
    }
  }

  method ChargeOnBase(base: real, taxes: seq<Tax>) returns (bill: Bill)
    ensures bill == ChargedOnBase(base, taxes)
  {
    var lines: seq<Line>, running := [], base;
    for i := 0 to |taxes|
      invariant Bill(lines, running) == ChargedOnBase(base, taxes[..i])
    {
      assert taxes[..i + 1][..i] == taxes[..i];
      var amount := AmountOnBase(base, taxes[i]);
      lines := lines + [Line(taxes[i].code, amount)];
      if !taxes[i].inclusive {
        running := running + amount as real;
      }
    }
    assert taxes[..|taxes|] == taxes;
    bill := Bill(lines, running);
  }

  lemma OneMorePicked(compound: seq<Tax>, ordered: seq<Code>, i: nat, r: Tax, start: Bill)
    requires i < |ordered| && Find(compound, ordered[i]) == Some(r)
    ensures
      var bill := Compounded(start, Picked(compound, ordered[..i]));
      Compounded(start, Picked(compound, ordered[..i + 1])) == Charged(bill, bill.running, r)
  {
    var before := Picked(compound, ordered[..i]);
    assert ordered[..i + 1][..i] == ordered[..i];
    assert (before + [r])[..|before|] == before;
  }

  method ChargeCompound(start: Bill, compound: seq<Tax>, ordered: seq<Code>) returns (bill: Bill)
    ensures bill == Compounded(start, Picked(compound, ordered))
  {
    var lines, running := start.lines, start.running;
    for i := 0 to |ordered|
      invariant Bill(lines, running) == Compounded(start, Picked(compound, ordered[..i]))
    {
      var found := Find(compound, ordered[i]);
      FindShape(compound, ordered[i]);
      if found.Some? {
        OneMorePicked(compound, ordered, i, found.value, start);
        var amount := AmountOnRunning(running, found.value);
        lines := lines + [Line(ordered[i], amount)];
        if !found.value.inclusive {
          running := running + amount as real;
        }
      } else {
        assert ordered[..i + 1][..i] == ordered[..i];
        assert Picked(compound, ordered[..i + 1]) == Picked(compound, ordered[..i]);
      }
    }
    assert ordered[..|ordered|] == ordered;
    bill := Bill(lines, running);
  }

  method CalculateTaxes(base: real, rules: seq<Rule>, category: Category) returns (bill: Bill, total: Cents)
    requires Separate(ActiveRules(rules, category))
    ensures bill == Taxed(base, ActiveRules(rules, category)) && total == HalfUp(bill.running)
  {
    var taxes := Select(rules, category);
    var onBase, compound := Partition(taxes);
    TimedShape(taxes, true);
    OrderingIsValid(taxes);
    bill := ChargeOnBase(base, onBase);
    if compound != [] {
      var deps := CollectDependencies(compound);
      var ordered := OrderCompound(Rules(Codes(compound), deps, KnownCodes(taxes)));
      bill := ChargeCompound(bill, compound, ordered);
    } else {
      OrderIsPermutation(taxes);
      assert |multiset(InOrderOf(taxes))| == 0;
    }
    total := HalfUp(bill.running);
  }
}
