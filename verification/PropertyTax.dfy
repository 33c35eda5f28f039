/** The single-rate property tax, and the inclusive extraction of the country-pack engine. */
module PropertyTax {
  import opened Base
  import opened Rounding

  datatype Mode = Off | Inclusive | Exclusive

  datatype Breakdown = Breakdown(tax: Cents, gross: Cents, net: Cents)

  function Calculate(amount: Cents, mode: Mode, rate: real): Breakdown
    requires rate >= 0.0
  {
    if mode == Off || rate == 0.0 then Breakdown(0, amount, amount)
    else if mode == Inclusive then
      var tax := HalfUp(Share(amount as real, rate));
      Breakdown(tax, amount, amount - tax)
    else
      Breakdown(Added(amount, rate), amount + Added(amount, rate), amount)
  }

  /** The tax on a net amount. */
  function Added(net: Cents, rate: real): Cents {
    HalfUp(net as real * rate)
  }

  /** The inclusive tax of the rule engine: what is left of the gross after its rounded net. */
  function PackInclusive(gross: real, rate: real): Cents
    requires rate >= 0.0
  {
    if rate == 0.0 then 0 else HalfUp(gross - HalfUp(gross / (1.0 + rate)) as real)
  }

  /** The exact tax share of a gross amount: the x with x * (1 + rate) == gross * rate. */
  function Share(gross: real, rate: real): (x: real)
    requires rate >= 0.0
    ensures x * (1.0 + rate) == gross * rate
  {
    gross * rate / (1.0 + rate)
  }

  /** Share and net make up the gross. */
  lemma NetIsRest(gross: real, rate: real)
    requires rate >= 0.0
    ensures gross / (1.0 + rate) == gross - Share(gross, rate)
  {
    var d := 1.0 + rate;
    var y := gross - Share(gross, rate);
    assert y * d == gross * d - Share(gross, rate) * d == gross;
  }

  /** What the mode does: nothing when off; the price is what the guest pays when inclusive, and what the hotel gets when exclusive. */
  lemma ModeDecides(amount: Cents, mode: Mode, rate: real)
    requires rate >= 0.0
    ensures
      var b := Calculate(amount, mode, rate);
      && b.gross == b.net + b.tax
      && (mode == Off ==> b.tax == 0 && b.gross == amount)
      && (mode == Inclusive ==> b.gross == amount)
      && (mode == Exclusive ==> b.net == amount && Abs(b.tax as real - amount as real * rate) <= 0.5)
  {
    HalfUpIsNear(amount as real * rate);
  }

  lemma ScaledDown(m: real, d: real)
    requires Abs(m * d) <= 0.5 && d > 1.0
    ensures Abs(m) < 0.5
  {
    assert m > 0.0 ==> m * d > m;
    assert m < 0.0 ==> m * d < m;
  }

  /** The share of a rounded gross misses the rounded tax by the rounding error scaled down by 1 + rate. */
  lemma ExtractionError(net: real, rate: real, tax: real)
    requires rate > 0.0 && Abs(tax - net * rate) <= 0.5
    ensures Abs(tax - Share(net + tax, rate)) < 0.5
  {
    var x, d := Share(net + tax, rate), 1.0 + rate;
    assert (tax - x) * d == tax * d - x * d;
    assert tax * d == tax + tax * rate;
    assert (net + tax) * rate == net * rate + tax * rate;
    ScaledDown(tax - x, d);
  }

  /** Adding the tax and extracting it again from the gross gives back net, tax and gross, for every amount and rate. */
  lemma ExclusiveThenInclusive(net: Cents, rate: real)
    requires rate >= 0.0
    ensures var b := Calculate(net, Exclusive, rate); Calculate(b.gross, Inclusive, rate) == b
  {
    if rate > 0.0 {
      var tax := HalfUp(net as real * rate);
      HalfUpIsNear(net as real * rate);
      ExtractionError(net as real, rate, tax as real);
      assert (net + tax) as real == net as real + tax as real;
      HalfUpIsNearest(Share(net as real + tax as real, rate), tax);
    }
  }

  /** The tax of a net that is off by e is the exact share x, off by e times the rate. */
  lemma TaxOfRoundedNet(gross: real, rate: real, x: real, net: real)
    requires 0.0 <= rate <= 1.0 && x * (1.0 + rate) == gross * rate && Abs(gross - x - net) <= 0.5
    ensures Abs(net * rate - x) <= 0.5
  {
    var e := gross - x - net;
    ErrorTimesRate(e, rate, 0.5);
    assert e * rate == gross * rate - x * rate - net * rate;
    assert x * (1.0 + rate) == x + x * rate;
  }

  lemma PartOfBounded(e: real, rate: real, slack: real)
    requires 0.0 <= rate <= 1.0 && -slack <= e <= slack
    ensures -slack <= e * rate <= slack
  {
    assert e >= 0.0 ==> e * (1.0 - rate) >= 0.0;
    assert e <= 0.0 ==> e * (1.0 - rate) <= 0.0;
  }

  lemma ErrorTimesRate(e: real, rate: real, slack: real)
    requires 0.0 <= rate <= 1.0 && Abs(e) <= slack
    ensures Abs(e * rate) <= slack
  {
    PartOfBounded(e, rate, slack);
  }

  /** Two amounts within half a cent round to values one cent apart at most. */
  lemma OffByOne(x: real, y: real)
    requires Abs(y - x) <= 0.5
    ensures -1 <= HalfUp(y) - HalfUp(x) <= 1
  {
    HalfUpIsNear(x);
    HalfUpIsNear(y);
    assert (HalfUp(y) - HalfUp(x)) as real == HalfUp(y) as real - HalfUp(x) as real;
  }

  lemma TaxOfExtractedNet(gross: Cents, rate: real, x: real)
    requires 0.0 <= rate <= 1.0 && x * (1.0 + rate) == gross as real * rate
    ensures Abs((gross - HalfUp(x)) as real * rate - x) <= 0.5
  {
    HalfUpIsNear(x);
    TaxOfRoundedNet(gross as real, rate, x, (gross - HalfUp(x)) as real);
  }

  lemma ExtractedThenAdded(gross: Cents, rate: real, x: real)
    requires 0.0 <= rate <= 1.0 && x * (1.0 + rate) == gross as real * rate
    ensures -1 <= Added(gross - HalfUp(x), rate) - HalfUp(x) <= 1
  {
    TaxOfExtractedNet(gross, rate, x);
    OffByOne(x, (gross - HalfUp(x)) as real * rate);
  }

  lemma ShareThenAdded(gross: Cents, rate: real)
    requires 0.0 <= rate <= 1.0
    ensures
      var tax := HalfUp(Share(gross as real, rate));
      -1 <= Added(gross - tax, rate) - tax <= 1
  {
    ExtractedThenAdded(gross, rate, Share(gross as real, rate));
  }

  lemma BackAndForth(gross: Cents, rate: real)
    requires rate >= 0.0
    ensures
      var tax := HalfUp(Share(gross as real, rate));
      Calculate(Calculate(gross, Inclusive, rate).net, Exclusive, rate).gross
        == if rate == 0.0 then gross else gross - tax + Added(gross - tax, rate)
  {
  }

  /** The other way round is off by at most one cent for rates up to 100%. */
  lemma InclusiveThenExclusive(gross: Cents, rate: real)
    requires 0.0 <= rate <= 1.0
    ensures
      var b := Calculate(gross, Inclusive, rate);
      -1 <= Calculate(b.net, Exclusive, rate).gross - gross <= 1
  {
    BackAndForth(gross, rate);
    ShareThenAdded(gross, rate);
  }

  /**
   For non-negative amounts the rule engine extracts the same tax as the property tax, except on an
   exact half-cent tie, where it extracts one cent less.
   */
  lemma PackMatchesProperty(gross: Cents, rate: real)
    requires gross >= 0 && rate > 0.0
    ensures PackInclusive(gross as real, rate) == Calculate(gross, Inclusive, rate).tax - if Tie(Share(gross as real, rate)) then 1 else 0
  {
    var x := Share(gross as real, rate);
    NetIsRest(gross as real, rate);
    assert 0.0 <= x <= gross as real by {
      assert gross as real * rate >= 0.0;
    }
    HalfUpOfComplement(x, gross);
    HalfUpOfCents(gross - HalfUp(gross as real / (1.0 + rate)));
  }

  /** The tie happens: one cent at 100%. */
  lemma PackDiffersOnATie()
    ensures PackInclusive(1.0, 1.0) == 0 && Calculate(1, Inclusive, 1.0).tax == 1
  {
    assert Share(1.0, 1.0) == 0.5;
    PackMatchesProperty(1, 1.0);
  }
}
