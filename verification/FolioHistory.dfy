/** What a folio holds after any history of repricings, postings and reversals. */
module FolioHistory {
  import opened Base
  import opened Folio
  import opened PropertyTax
  import Rounding
  import opened TaxPosting
  import opened TaxRules
  import opened TaxTotals

  /** A posting the category check let through, an attempted reversal, or a date change. */
  datatype Event = Add(kind: Kind, category: Folio.Category, amount: Cents) | Undo(id: Id) | Price(total: Cents, config: Config)

  predicate ValidEvents(events: seq<Event>) {
    forall i :: 0 <= i < |events| && events[i].Price? ==> events[i].config.Valid()
  }

  ghost function Step(s: State, e: Event): State
    requires e.Price? ==> e.config.Valid()
  {
    match e
    case Add(kind, category, amount) => Posted(s, kind, category, amount)
    case Undo(id) => if CanReverse(s, id) then Reversed(s, id) else s
    case Price(total, config) => Repriced(s, total, config)
  }

  /** The history of a folio opened at a price. */
  ghost function Run(total: Cents, config: Config, events: seq<Event>): State
    requires config.Valid() && ValidEvents(events)
  {
    if events == [] then Repriced(Opened(total), total, config) else
    Step(Run(total, config, events[..|events| - 1]), events[|events| - 1])
  }

  /** The posting of the last price in the history. */
  ghost function LastPriced(total: Cents, config: Config, events: seq<Event>): Posting
    requires config.Valid() && ValidEvents(events)
  {
    if events == [] then Priced(total, config) else
    var last := events[|events| - 1];
    if last.Price? then Priced(last.total, last.config) else LastPriced(total, config, events[..|events| - 1])
  }

  /** The rows that are neither the stay's room charge nor posted by a pack. */
  function StaffRows(rows: seq<Entry>): seq<Entry> {
    if rows == [] then [] else Kept(rows[1..])
  }

  /** The engine's rows are exactly those of a posting. */
  ghost predicate Shows(rows: seq<Entry>, p: Posting) {
    Opens(rows) && rows[0].amount == p.roomCharge && PackLines(rows) == p.lines
  }

  // ----- Reading a concatenation -----

  lemma {:induction false} PackLinesConcat(a: seq<Entry>, b: seq<Entry>)
    ensures PackLines(a + b) == PackLines(a) + PackLines(b)
  {
    if b == [] {
      assert a + b == a;
    } else {
      PackLinesConcat(a, b[..|b| - 1]);
      assert (a + b)[..|a + b| - 1] == a + b[..|b| - 1];
    }
  }

  lemma One(e: Entry)
    ensures PackLines([e]) == if IsPackTax(e) then [Line(e.description.code, e.amount)] else []
    ensures Kept([e]) == if IsPackTax(e) then [] else [e]
    ensures Balance([e]) == Effect(e)
  {
    assert [e][..0] == [];
  }

  lemma {:induction false} KeptHasNoLines(rows: seq<Entry>)
    ensures PackLines(Kept(rows)) == [] && Kept(Kept(rows)) == Kept(rows)
  {
    if rows != [] {
      var n := |rows| - 1;
      KeptHasNoLines(rows[..n]);
      One(rows[n]);
      PackLinesConcat(Kept(rows[..n]), Kept([rows[n]]));
      KeptConcat(Kept(rows[..n]), Kept([rows[n]]));
    }
  }

  lemma {:induction false} LinesOfTaxRows(lines: seq<Line>, nextId: Id)
    ensures PackLines(TaxRows(lines, nextId)) == lines && Kept(TaxRows(lines, nextId)) == []
  {
    if lines != [] {
      var n := |lines| - 1;
      LinesOfTaxRows(lines[..n], nextId);
      assert TaxRows(lines, nextId)[..|TaxRows(lines, nextId)| - 1] == TaxRows(lines[..n], nextId);
    }
  }

  // ----- Each step -----

  /** A repricing shows the new posting and leaves what the staff added exactly as it was. */
  lemma RepricingShows(s: State, total: Cents, config: Config)
    requires Opens(s.rows) && config.Valid()
    ensures
      var rows := Repriced(s, total, config).rows;
      Shows(rows, Priced(total, config)) && StaffRows(rows) == StaffRows(s.rows)
  {
    var p := Priced(total, config);
    RepricedOpens(s, total, config);
    KeptHasNoLines(s.rows[1..]);
    LayoutShows(s.rows[0], Kept(s.rows[1..]), p, s.nextId);
  }

  lemma LinesBehind(charge: Entry, rest: seq<Entry>)
    requires Opens([charge])
    ensures PackLines([charge] + rest) == PackLines(rest) && StaffRows([charge] + rest) == Kept(rest)
  {
    One(charge);
    PackLinesConcat([charge], rest);
    assert ([charge] + rest)[1..] == rest;
  }

  lemma RestAndTaxes(rest: seq<Entry>, lines: seq<Line>, nextId: Id)
    requires PackLines(rest) == [] && Kept(rest) == rest
    ensures PackLines(rest + TaxRows(lines, nextId)) == lines && Kept(rest + TaxRows(lines, nextId)) == rest
  {
    LinesOfTaxRows(lines, nextId);
    PackLinesConcat(rest, TaxRows(lines, nextId));
    KeptConcat(rest, TaxRows(lines, nextId));
  }

  lemma LayoutSplit(charge: Entry, rest: seq<Entry>, p: Posting, nextId: Id)
    ensures Layout(charge, rest, p, nextId) == [charge.(amount := p.roomCharge)] + (rest + TaxRows(p.lines, nextId))
  {
  }

  lemma LayoutShows(charge: Entry, rest: seq<Entry>, p: Posting, nextId: Id)
    requires Opens([charge]) && PackLines(rest) == [] && Kept(rest) == rest
    ensures Shows(Layout(charge, rest, p, nextId), p) && StaffRows(Layout(charge, rest, p, nextId)) == rest
  {
    LayoutSplit(charge, rest, p, nextId);
    RestAndTaxes(rest, p.lines, nextId);
    LinesBehind(charge.(amount := p.roomCharge), rest + TaxRows(p.lines, nextId));
  }

  /** A row that no pack posted changes nothing the engine posted, and comes after what the staff added before. */
  lemma StaffRowAdds(rows: seq<Entry>, e: Entry)
    requires Opens(rows) && e.description == Text
    ensures PackLines(rows + [e]) == PackLines(rows) && Opens(rows + [e]) && (rows + [e])[0] == rows[0]
    ensures StaffRows(rows + [e]) == StaffRows(rows) + [e]
  {
    One(e);
    PackLinesConcat(rows, [e]);
    assert (rows + [e])[1..] == rows[1..] + [e];
    KeptConcat(rows[1..], [e]);
  }

  lemma StaffStep(s: State, e: Event)
    requires Opens(s.rows) && !e.Price?
    ensures
      var rows := Step(s, e).rows;
      && Opens(rows) && rows[0] == s.rows[0] && PackLines(rows) == PackLines(s.rows)
      && StaffRows(s.rows) <= StaffRows(rows)
  {
    if Step(s, e) != s {
      var rows := Step(s, e).rows;
      StaffRowAdds(s.rows, rows[|rows| - 1]);
      assert rows == s.rows + [rows[|rows| - 1]];
    }
  }

  // ----- Whole histories -----

  /**
   After any history the engine's rows are those of the last price, mode and rules alone, whatever came before,
   and nothing the staff added has been changed or removed.
   */
  lemma {:induction false} OnlyTheLastPriceShows(total: Cents, config: Config, events: seq<Event>)
    requires config.Valid() && ValidEvents(events)
    ensures Shows(Run(total, config, events).rows, LastPriced(total, config, events))
    ensures
      events != [] ==> StaffRows(Run(total, config, events[..|events| - 1]).rows) <= StaffRows(Run(total, config, events).rows)
  {
    if events == [] {
      RepricingShows(Opened(total), total, config);
    } else {
      var before := events[..|events| - 1];
      OnlyTheLastPriceShows(total, config, before);
      StepShows(Run(total, config, before), LastPriced(total, config, before), events[|events| - 1]);
    }
  }

  lemma StepShows(s: State, p: Posting, e: Event)
    requires Shows(s.rows, p) && (e.Price? ==> e.config.Valid())
    ensures Shows(Step(s, e).rows, if e.Price? then Priced(e.total, e.config) else p)
    ensures StaffRows(s.rows) <= StaffRows(Step(s, e).rows)
  {
    if e.Price? {
      RepricingShows(s, e.total, e.config);
    } else {
      StaffStep(s, e);
    }
  }

  // ----- The balance -----

  lemma {:induction false} BalanceConcat(a: seq<Entry>, b: seq<Entry>)
    ensures Balance(a + b) == Balance(a) + Balance(b)
  {
    if b == [] {
      assert a + b == a;
    } else {
      BalanceConcat(a, b[..|b| - 1]);
      assert (a + b)[..|a + b| - 1] == a + b[..|b| - 1];
    }
  }

  lemma TotalAppend(lines: seq<Line>, more: Line)
    ensures Total(lines + [more]) == Total(lines) + more.amount
  {
    assert (lines + [more])[..|lines|] == lines;
  }

  lemma {:induction false} BalanceSplits(rows: seq<Entry>)
    ensures Balance(rows) == Total(PackLines(rows)) + Balance(Kept(rows))
  {
    if rows != [] {
      var before, last := rows[..|rows| - 1], rows[|rows| - 1];
      BalanceSplits(before);
      if IsPackTax(last) {
        TotalAppend(PackLines(before), Line(last.description.code, last.amount));
        assert Kept(rows) == Kept(before);
      } else {
        One(last);
        BalanceConcat(Kept(before), [last]);
        assert PackLines(rows) == PackLines(before);
      }
    }
  }

  /** What the guest owes: the room charge and tax lines of the last price, and the balance of what the staff added. */
  lemma BalanceOfShown(rows: seq<Entry>, p: Posting)
    requires Shows(rows, p)
    ensures Balance(rows) == p.roomCharge + Total(p.lines) + Balance(StaffRows(rows))
  {
    assert rows == [rows[0]] + rows[1..];
    BalanceConcat([rows[0]], rows[1..]);
    LinesBehind(rows[0], rows[1..]);
    One(rows[0]);
    BalanceSplits(rows[1..]);
  }

  /** With taxes off or inclusive, or no pack, the guest owes the last total and what the staff added. */
  lemma BalanceIsLastTotal(total: Cents, config: Config, events: seq<Event>, lastTotal: Cents, lastConfig: Config)
    requires config.Valid() && lastConfig.Valid() && ValidEvents(events)
    requires LastPriced(total, config, events) == Priced(lastTotal, lastConfig)
    requires lastConfig.NoPack? || lastConfig.mode != Exclusive
    ensures var rows := Run(total, config, events).rows; Opens(rows) && Balance(rows) == lastTotal + Balance(StaffRows(rows))
  {
    OnlyTheLastPriceShows(total, config, events);
    BalanceOfShown(Run(total, config, events).rows, Priced(lastTotal, lastConfig));
    PricedConserves(lastTotal, lastConfig);
  }

  lemma PricedConserves(total: Cents, config: Config)
    requires config.Valid() && (config.NoPack? || config.mode != Exclusive)
    ensures Priced(total, config).roomCharge + Total(Priced(total, config).lines) == total
  {
    if config.Pack? {
      PostingConserves(total as real, config.rules, ROOM_CHARGE, Some(config.mode));
      Rounding.HalfUpOfCents(total);
    }
  }

  /** Payments and discounts lower what the guest owes, every other charge raises it, by the amount given. */
  lemma PostingMovesBalance(s: State, kind: Kind, category: Folio.Category, amount: Cents)
    requires amount > 0
    ensures
      Balance(Posted(s, kind, category, amount).rows)
        == Balance(s.rows) + if kind == Payment || category == Discount then -amount else amount
  {
    var rows := Posted(s, kind, category, amount).rows;
    assert rows[..|rows| - 1] == s.rows;
  }

  /** A reversal takes back exactly the effect of the row it names. */
  lemma ReversalCancels(s: State, id: Id)
    requires CanReverse(s, id)
    ensures Balance(Reversed(s, id).rows) == Balance(s.rows) - Effect(s.rows[IdAt(s.rows, id)])
  {
    var rows := Reversed(s, id).rows;
    assert rows[..|rows| - 1] == s.rows;
  }

  /**
   A reversal survives the next repricing even when the row it reversed was a tax line that the repricing replaces:
   the guest then owes less than without the reversal, by the reversed effect.
   */
  lemma ReversalOutlivesRepricing(s: State, id: Id, total: Cents, config: Config)
    requires Opens(s.rows) && CanReverse(s, id) && config.Valid()
    ensures
      Balance(Repriced(Reversed(s, id), total, config).rows)
        == Balance(Repriced(s, total, config).rows) - Effect(s.rows[IdAt(s.rows, id)])
  {
    var after := Reversed(s, id);
    ReversalIsKept(s, id);
    BalanceAfterRepricing(s, total, config);
    BalanceAfterRepricing(after, total, config);
  }

  lemma ReversalIsKept(s: State, id: Id)
    requires Opens(s.rows) && CanReverse(s, id)
    ensures
      Opens(Reversed(s, id).rows)
      && Balance(StaffRows(Reversed(s, id).rows)) == Balance(StaffRows(s.rows)) - Effect(s.rows[IdAt(s.rows, id)])
  {
    var reversal := Reversed(s, id).rows[|s.rows|];
    StaffRowAdds(s.rows, reversal);
    BalanceConcat(StaffRows(s.rows), [reversal]);
    One(reversal);
  }

  lemma BalanceAfterRepricing(s: State, total: Cents, config: Config)
    requires Opens(s.rows) && config.Valid()
    ensures
      var p := Priced(total, config);
      Balance(Repriced(s, total, config).rows) == p.roomCharge + Total(p.lines) + Balance(StaffRows(s.rows))
  {
    RepricingShows(s, total, config);
    BalanceOfShown(Repriced(s, total, config).rows, Priced(total, config));
  }

  // ----- A reversed tax line -----

  /** One exclusive tax of 10% on room charges. */
  const TEN_PERCENT: Rule := Rule(true, [ROOM_CHARGE], Some(5), 0.1, false, OnBase)
  const ONE_TAX: Config := Pack([TEN_PERCENT], Exclusive)

  lemma TenPercentActive()
    ensures ActiveRules([TEN_PERCENT], ROOM_CHARGE) == [Tax(5, 0.1, false, OnBase)] && ONE_TAX.Valid()
  {
    assert [TEN_PERCENT][..0] == [];
    assert ActiveRules([], ROOM_CHARGE) == [];
  }

  lemma TenPercentPosting()
    ensures ONE_TAX.Valid() && Priced(1000, ONE_TAX) == Posting([Line(5, 100)], 1000, 1100)
  {
    TenPercentActive();
    var tax := Tax(5, 0.1, false, OnBase);
    Rounding.HalfUpOfCents(1000);
    Rounding.HalfUpOfCents(1100);
    TaxedSingle(1000.0, tax);
    assert Amount(1000.0, tax) == 100;
  }

  /** The folio of a room charge of 10.00 and its tax of 1.00. */
  function TaxedFolio(): State {
    State([Entry(0, Charge, RoomCharge, 1000, Text), Entry(1, Charge, TaxCharge, 100, PackTax(5))], 2)
  }

  lemma TaxedFolioOpens()
    ensures ONE_TAX.Valid() && Repriced(Opened(1000), 1000, ONE_TAX) == TaxedFolio()
  {
    TenPercentPosting();
    var s := Opened(1000);
    RepricedOpens(s, 1000, ONE_TAX);
    assert s.rows[1..] == [];
    assert [Line(5, 100)][..0] == [];
    assert TaxRows([Line(5, 100)], 1) == [Entry(1, Charge, TaxCharge, 100, PackTax(5))];
  }

  /** Reversing the tax line takes 1.00 off for good: priced again as before, the guest owes 10.00 and not 11.00. */
  lemma ReversedTaxStaysOff()
    ensures ONE_TAX.Valid() && Repriced(Opened(1000), 1000, ONE_TAX) == TaxedFolio()
    ensures CanReverse(TaxedFolio(), 1) && IsPackTax(TaxedFolio().rows[IdAt(TaxedFolio().rows, 1)])
    ensures Balance(Repriced(TaxedFolio(), 1000, ONE_TAX).rows) == 1100
    ensures Balance(Repriced(Reversed(TaxedFolio(), 1), 1000, ONE_TAX).rows) == 1000
  {
    var s := TaxedFolio();
    TaxedFolioOpens();
    TenPercentPosting();
    assert IdAt(s.rows, 1) == 1;
    BalanceAfterRepricing(s, 1000, ONE_TAX);
    assert s.rows[1..] == [s.rows[1]];
    One(s.rows[1]);
    assert Total([Line(5, 100)]) == 100 by {
      TotalAppend([], Line(5, 100));
      assert [] + [Line(5, 100)] == [Line(5, 100)];
    }
    ReversalOutlivesRepricing(s, 1, 1000, ONE_TAX);
  }
}
