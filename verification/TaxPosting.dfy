/** How a country pack's taxes are posted to a folio under a property's tax mode. */
module TaxPosting {
  import opened Base
  import opened CompoundOrder
  import opened PropertyTax
  import opened Rounding
  import opened TaxRules
  import opened TaxTotals

  datatype Posting = Posting(lines: seq<Line>, roomCharge: Cents, total: Cents)

  function ForcedInclusive(rules: seq<Rule>): seq<Rule> {
    seq(|rules|, i requires 0 <= i < |rules| => rules[i].(inclusive := true))
  }

  function AllInclusive(taxes: seq<Tax>): (all: seq<Tax>)
    ensures Separate(taxes) ==> Separate(all)
  {
    seq(|taxes|, i requires 0 <= i < |taxes| => taxes[i].(inclusive := true))
  }

  /** Making every rule inclusive does not change which rules apply. */
  lemma {:induction false} ActiveOfForced(rules: seq<Rule>, category: Category)
    ensures ActiveRules(ForcedInclusive(rules), category) == AllInclusive(ActiveRules(rules, category))
  {
    if rules != [] {
      var n := |rules| - 1;
      ActiveOfForced(rules[..n], category);
      assert ForcedInclusive(rules)[..n] == ForcedInclusive(rules[..n]);
    }
  }

  /** The rules that will be charged. */
  function Chargeable(rules: seq<Rule>, category: Category, mode: Option<Mode>): seq<Tax> {
    if mode == Some(Inclusive) then AllInclusive(ActiveRules(rules, category)) else ActiveRules(rules, category)
  }

  /** A missing mode is exclusive. */
  ghost function Post(base: real, rules: seq<Rule>, category: Category, mode: Option<Mode>): Posting
    requires Separate(ActiveRules(rules, category))
  {
    var gross := HalfUp(base);
    if mode == Some(Off) then Posting([], gross, gross) else
    var bill := Taxed(gross as real, Chargeable(rules, category, mode));
    if mode == Some(Inclusive) then Posting(bill.lines, gross - Total(bill.lines), gross)
    else Posting(bill.lines, gross, HalfUp(bill.running))
  }

  method TotalLines(lines: seq<Line>) returns (total: Cents)
    ensures total == Total(lines)
  {
    total := 0;
    for i := 0 to |lines|
      invariant total == Total(lines[..i])
    {
      assert lines[..i + 1][..i] == lines[..i];
      total := total + lines[i].amount;
    }
    assert lines[..|lines|] == lines;
  }

  method CalculatePosting(base: real, rules: seq<Rule>, category: Category, mode: Option<Mode>) returns (posting: Posting)
    requires Separate(ActiveRules(rules, category))
    ensures posting == Post(base, rules, category, mode)
  {
    var gross := HalfUp(base);
    if mode == Some(Off) {
      return Posting([], gross, gross);
    }
    ActiveOfForced(rules, category);
    var adjusted := if mode == Some(Inclusive) then ForcedInclusive(rules) else rules;
    var bill, total := CalculateTaxes(gross as real, adjusted, category);
    if mode == Some(Inclusive) {
      var extracted := TotalLines(bill.lines);
      return Posting(bill.lines, gross - extracted, gross);
    }
    return Posting(bill.lines, gross, total);
  }

  // ----- Conservation -----

  /** The inclusive part of a posting's lines. */
  ghost function InclusiveTotal(posting: Posting, taxes: seq<Tax>): Cents {
    TotalOf(posting.lines, InclusiveCodes(taxes))
  }

  /**
   Room charge and tax lines make up the posting's total when the mode is off or inclusive;
   otherwise they exceed it by exactly the lines of the inclusive rules, which the total leaves out.
   */
  lemma PostingConserves(base: real, rules: seq<Rule>, category: Category, mode: Option<Mode>)
    requires Separate(ActiveRules(rules, category))
    ensures
      var p := Post(base, rules, category, mode);
      p.roomCharge + Total(p.lines) == p.total
        + if mode == Some(Off) || mode == Some(Inclusive) then 0 else InclusiveTotal(p, ActiveRules(rules, category))
  {
    if mode != Some(Off) && mode != Some(Inclusive) {
      var gross := HalfUp(base);
      var taxes := ActiveRules(rules, category);
      var bill := Taxed(gross as real, taxes);
      TaxedBalances(gross as real, taxes);
      WholeTotal(bill, gross, InclusiveCodes(taxes));
    }
  }

  lemma WholeTotal(bill: Bill, gross: Cents, inclusive: set<Code>)
    requires Balanced(bill, gross as real, inclusive)
    ensures HalfUp(bill.running) == gross + Total(bill.lines) - TotalOf(bill.lines, inclusive)
    ensures HalfUp(bill.running) as real == bill.running
  {
    var n := gross + Total(bill.lines) - TotalOf(bill.lines, inclusive);
    assert bill.running == n as real;
    HalfUpOfCents(n);
  }

  /**
   The total posted in exclusive mode, whatever order the engine chose for its k exclusive compound rules: within
   (2^k - 1) / 2 cents of the exact product, and at most 2^k - 1 cents from what any other order would post.
   */
  lemma PostedTotalIsNearExact(base: real, rules: seq<Rule>, category: Category, mode: Option<Mode>, other: seq<Tax>)
    requires Separate(ActiveRules(rules, category)) && mode != Some(Off) && mode != Some(Inclusive)
    requires multiset(other) == multiset(Timed(ActiveRules(rules, category), true))
    ensures
      var first := ChargedOnBase(HalfUp(base) as real, Timed(ActiveRules(rules, category), false));
      Near(Bill([], Post(base, rules, category, mode).total as real), first, other)
  {
    var gross, taxes := HalfUp(base), ActiveRules(rules, category);
    TaxedBalances(gross as real, taxes);
    WholeTotal(Taxed(gross as real, taxes), gross, InclusiveCodes(taxes));
    TaxedIsNearExact(gross as real, taxes, other);
  }

  /** The order of the lines: the rules on the base price, then the compound ones. */
  ghost function BilledRules(taxes: seq<Tax>): seq<Tax>
    requires Separate(taxes)
  {
    Timed(taxes, false) + InOrderOf(taxes)
  }

  /** In inclusive mode every line is the tax extracted from the gross price, for compound rules too. */
  lemma InclusivePostingExtracts(base: real, rules: seq<Rule>, category: Category)
    requires Separate(ActiveRules(rules, category))
    ensures
      var taxes := AllInclusive(ActiveRules(rules, category));
      ExtractedFrom(Post(base, rules, category, Some(Inclusive)).lines, BilledRules(taxes), HalfUp(base) as real)
  {
    InclusiveIgnoresOrder(HalfUp(base) as real, AllInclusive(ActiveRules(rules, category)));
  }

  // ----- One rule -----

  lemma OneTimed(r: Tax, compound: bool)
    ensures Timed([r], compound) == if r.timing.After? == compound then [r] else []
  {
    assert [r][..0] == [];
  }

  lemma BagOfOne(a: seq<Tax>, b: seq<Tax>)
    requires multiset(a) == multiset(b) && |b| <= 1
    ensures a == b
  {
    assert |multiset(a)| == |a| && |multiset(b)| == |b|;
    if |b| == 1 {
      assert a[0] in multiset(b);
    }
  }

  lemma OneOrdered(r: Tax)
    ensures InOrderOf([r]) == if r.timing.After? then [r] else []
  {
    OneTimed(r, true);
    OrderIsPermutation([r]);
    BagOfOne(InOrderOf([r]), Timed([r], true));
  }

  lemma ChargedAlone(start: Bill, r: Tax)
    ensures Compounded(start, []) == start && Compounded(start, [r]) == Charged(start, start.running, r)
  {
    assert [r][..0] == [];
  }

  lemma OnBaseAlone(base: real, r: Tax)
    ensures ChargedOnBase(base, []) == Bill([], base) && ChargedOnBase(base, [r]) == Charged(Bill([], base), base, r)
  {
    assert [r][..0] == [];
  }

  lemma TaxedSingle(base: real, r: Tax)
    ensures Taxed(base, [r]) == Charged(Bill([], base), base, r)
  {
    OneTimed(r, false);
    OneOrdered(r);
    OnBaseAlone(base, r);
    ChargedAlone(ChargedOnBase(base, Timed([r], false)), r);
  }

  lemma ExclusiveSingle(amount: Cents, r: Tax)
    requires !r.inclusive
    ensures HalfUp(Taxed(amount as real, [r]).running) == amount + Added(amount, r.rate)
  {
    TaxedSingle(amount as real, r);
    HalfUpOfCents(amount + Added(amount, r.rate));
  }

  lemma InclusiveSingle(amount: Cents, r: Tax)
    requires r.inclusive
    ensures Total(Taxed(amount as real, [r]).lines) == PackInclusive(amount as real, r.rate)
  {
    TaxedSingle(amount as real, r);
    TotalOfOne(r.code, PackInclusive(amount as real, r.rate));
  }

  lemma TotalOfOne(code: Code, amount: Cents)
    ensures Total([] + [Line(code, amount)]) == amount
  {
    assert ([] + [Line(code, amount)])[..0] == [];
  }

  lemma ExclusiveGross(amount: Cents, rate: Rate)
    ensures Calculate(amount, Exclusive, rate).gross == amount + Added(amount, rate)
  {
    if rate == 0.0 {
      HalfUpOfCents(0);
    }
  }

  lemma ExclusivePostSingle(amount: Cents, rules: seq<Rule>, category: Category, r: Tax)
    requires !r.inclusive && ActiveRules(rules, category) == [r]
    ensures Post(amount as real, rules, category, Some(Exclusive)).total == amount + Added(amount, r.rate)
  {
    HalfUpOfCents(amount);
    ExclusiveSingle(amount, r);
  }

  /** A pack with one exclusive rule totals what the property tax computes. */
  lemma OneRuleExclusive(amount: Cents, rules: seq<Rule>, category: Category, r: Tax)
    requires !r.inclusive && ActiveRules(rules, category) == [r]
    ensures Post(amount as real, rules, category, Some(Exclusive)).total == Calculate(amount, Exclusive, r.rate).gross
  {
    ExclusivePostSingle(amount, rules, category, r);
    ExclusiveGross(amount, r.rate);
  }

  lemma InclusivePostSingle(amount: Cents, rules: seq<Rule>, category: Category, r: Tax)
    requires ActiveRules(rules, category) == [r]
    ensures Post(amount as real, rules, category, Some(Inclusive)).roomCharge == amount - PackInclusive(amount as real, r.rate)
  {
    HalfUpOfCents(amount);
    assert AllInclusive([r]) == [r.(inclusive := true)];
    InclusiveSingle(amount, r.(inclusive := true));
  }

  /** In inclusive mode it leaves the same net, except on an exact half-cent tie, where it leaves one cent more. */
  lemma OneRuleInclusive(amount: Cents, rules: seq<Rule>, category: Category, r: Tax)
    requires amount >= 0 && r.rate > 0.0 && ActiveRules(rules, category) == [r]
    ensures
      Post(amount as real, rules, category, Some(Inclusive)).roomCharge
        == Calculate(amount, Inclusive, r.rate).net + if Tie(Share(amount as real, r.rate)) then 1 else 0
  {
    InclusivePostSingle(amount, rules, category, r);
    PackMatchesProperty(amount, r.rate);
  }
}
