/** What a folio shows after each operation, told entry by entry. */
module FolioOutcomes {
  import opened Base
  import opened Folio
  import opened PropertyTax
  import opened TaxRules
  import opened TaxTotals

  /** A row the engine posted as a tax of the country pack. */
  predicate OfEngine(e: Entry) {
    e.kind == Charge && e.category == TaxCharge && e.description != Text
  }

  /** A repricing deletes just the engine's tax rows. */
  lemma {:induction false} KeptExactly(rows: seq<Entry>, e: Entry)
    ensures multiset(Kept(rows))[e] == if OfEngine(e) then 0 else multiset(rows)[e]
  {
    if rows != [] {
      var n := |rows| - 1;
      var last := rows[n];
      KeptExactly(rows[..n], e);
      assert rows == rows[..n] + [last];
      assert multiset([last])[e] == if last == e then 1 else 0;
      assert Kept(rows) == Kept(rows[..n]) + if OfEngine(last) then [] else [last];
    }
  }

  /**
   After a repricing the room charge comes first, with its new amount; then what the staff added, in its order; then the
   new tax lines. Without a pack, or with taxes off, the charge is the total of the stay; with exclusive taxes too; with
   inclusive ones it is the total less its taxes.
   */
  lemma RepricingOutcome(s: State, total: Cents, config: Config)
    requires Opens(s.rows) && config.Valid()
    ensures
      var rows, lines, kept := Repriced(s, total, config).rows, Priced(total, config).lines, Kept(s.rows[1..]);
      && |rows| == 1 + |kept| + |lines|
      && rows[0] == s.rows[0].(amount :=
           if config.NoPack? || config.mode != Inclusive then total else total - Total(lines))
      && rows[1..1 + |kept|] == kept
      && (forall i :: 0 <= i < |lines| ==>
            rows[1 + |kept|..][i] == Entry(s.nextId + i, Charge, TaxCharge, lines[i].amount, PackTax(lines[i].code)))
      && (config.NoPack? || config.mode == Off ==> lines == [])
  {
    RepricedOpens(s, total, config);
    ChargeByMode(total, config);
    TaxRowsInOrder(Priced(total, config).lines, s.nextId);
  }

  lemma TaxRowsInOrder(lines: seq<TaxRules.Line>, nextId: Id)
    ensures |TaxRows(lines, nextId)| == |lines|
    ensures forall i :: 0 <= i < |lines| ==>
              TaxRows(lines, nextId)[i] == Entry(nextId + i, Charge, TaxCharge, lines[i].amount, PackTax(lines[i].code))
  {
    forall i | 0 <= i < |lines|
      ensures |TaxRows(lines, nextId)| == |lines|
      ensures TaxRows(lines, nextId)[i] == Entry(nextId + i, Charge, TaxCharge, lines[i].amount, PackTax(lines[i].code))
    {
      TaxRowAt(lines, nextId, i);
    }
    if lines != [] {
      TaxRowAt(lines, nextId, 0);
    }
  }

  lemma {:induction false} TaxRowAt(lines: seq<TaxRules.Line>, nextId: Id, i: nat)
    requires i < |lines|
    ensures |TaxRows(lines, nextId)| == |lines|
    ensures TaxRows(lines, nextId)[i] == Entry(nextId + i, Charge, TaxCharge, lines[i].amount, PackTax(lines[i].code))
  {
    var n := |lines| - 1;
    if n > 0 {
      TaxRowAt(lines[..n], nextId, if i < n then i else 0);
    }
  }

  lemma ChargeByMode(total: Cents, config: Config)
    requires config.Valid()
    ensures
      var p := Priced(total, config);
      && p.roomCharge == (if config.NoPack? || config.mode != Inclusive then total else total - Total(p.lines))
      && (config.NoPack? || config.mode == Off ==> p.lines == [])
  {
    Rounding.HalfUpOfCents(total);
  }

  /** A reversal is refused for an entry that does not exist or is worth nothing, and otherwise posts its opposite. */
  lemma ReversalOutcome(s: State, i: nat)
    requires i < |s.rows| && forall j :: 0 <= j < |s.rows| && j != i ==> s.rows[j].id != s.rows[i].id
    ensures CanReverse(s, s.rows[i].id) <==> s.rows[i].amount != 0
    ensures CanReverse(s, s.rows[i].id) ==>
              Reversed(s, s.rows[i].id) == State(s.rows + [Entry(s.nextId, s.rows[i].kind, s.rows[i].category, -s.rows[i].amount, Text)], s.nextId + 1)
  {
  }

  lemma UnknownIsRefused(s: State, id: Id)
    requires forall j :: 0 <= j < |s.rows| ==> s.rows[j].id != id
    ensures !CanReverse(s, id)
  {
  }
}
