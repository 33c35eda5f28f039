/**
 The folio of one booking: its room charge, the tax lines a country pack posts beside it, and the
 charges, payments and reversals the staff add.
 */
module Folio {
  import opened Base
  import opened CompoundOrder
  import opened PropertyTax
  import opened Rounding
  import opened TaxPosting
  import opened TaxRules

  datatype Kind = Charge | Payment

  datatype Category = RoomCharge | TaxCharge | Discount | Other(rank: nat)

  /** Text that starts with the country-pack prefix is only ever written by the engine. */
  datatype Description = PackTax(code: Code) | Text

  datatype Entry = Entry(id: Id, kind: Kind, category: Category, amount: Cents, description: Description)

  /** The country pack of a property, if it names one that exists, and its tax mode: exclusive when not configured. */
  datatype Config = NoPack | Pack(rules: seq<Rule>, mode: Mode) {
    predicate Valid() {
      Pack? ==> Separate(ActiveRules(rules, ROOM_CHARGE))
    }
  }

  const ROOM_CHARGE: TaxRules.Category := Named(0)

  // ----- Reading the rows -----

  predicate IsPackTax(e: Entry) {
    e.kind == Charge && e.category == TaxCharge && e.description.PackTax?
  }

  /** The rows no repricing deletes. */
  function Kept(rows: seq<Entry>): seq<Entry> {
    if rows == [] then [] else
    var last := rows[|rows| - 1];
    Kept(rows[..|rows| - 1]) + if IsPackTax(last) then [] else [last]
  }

  /** The tax lines the engine has posted. */
  function PackLines(rows: seq<Entry>): seq<Line> {
    if rows == [] then [] else
    var last := rows[|rows| - 1];
    PackLines(rows[..|rows| - 1]) + if IsPackTax(last) then [Line(last.description.code, last.amount)] else []
  }

  function Effect(e: Entry): Cents {
    if e.kind == Charge then e.amount else -e.amount
  }

  /** Charges less payments: what the guest owes. */
  function Balance(rows: seq<Entry>): Cents {
    if rows == [] then 0 else Balance(rows[..|rows| - 1]) + Effect(rows[|rows| - 1])
  }

  /** The charges alone, and the payments alone. */
  function SumOfKind(rows: seq<Entry>, kind: Kind): Cents {
    if rows == [] then 0 else
    SumOfKind(rows[..|rows| - 1], kind) + if rows[|rows| - 1].kind == kind then rows[|rows| - 1].amount else 0
  }

  lemma {:induction false} BalanceIsChargesLessPayments(rows: seq<Entry>)
    ensures Balance(rows) == SumOfKind(rows, Charge) - SumOfKind(rows, Payment)
  {
    if rows != [] {
      BalanceIsChargesLessPayments(rows[..|rows| - 1]);
    }
  }

  /** The oldest room charge. */
  function RoomChargeAt(rows: seq<Entry>): (i: nat)
    ensures i <= |rows|
    ensures i < |rows| ==> rows[i].kind == Charge && rows[i].category == RoomCharge
    ensures forall j :: 0 <= j < i ==> !(rows[j].kind == Charge && rows[j].category == RoomCharge)
  {
    if rows == [] then 0
    else
      var i := RoomChargeAt(rows[..|rows| - 1]);
      if i < |rows| - 1 then i
      else if rows[|rows| - 1].kind == Charge && rows[|rows| - 1].category == RoomCharge then |rows| - 1
      else |rows|
  }

  function IdAt(rows: seq<Entry>, id: Id): (i: nat)
    ensures i <= |rows|
    ensures i < |rows| ==> rows[i].id == id
    ensures i == |rows| ==> forall j :: 0 <= j < |rows| ==> rows[j].id != id
  {
    if rows == [] then 0
    else
      var i := IdAt(rows[..|rows| - 1], id);
      if i < |rows| - 1 then i else if rows[|rows| - 1].id == id then |rows| - 1 else |rows|
  }

  // ----- The steps, on rows in the order they were posted -----

  datatype State = State(rows: seq<Entry>, nextId: Id)

  function WithRoomCharge(rows: seq<Entry>, amount: Cents): seq<Entry> {
    var i := RoomChargeAt(rows);
    if i < |rows| then rows[i := rows[i].(amount := amount)] else rows
  }

  /** Tax lines as rows, with fresh ids. */
  function TaxRows(lines: seq<Line>, nextId: Id): seq<Entry> {
    if lines == [] then [] else
    var n := |lines| - 1;
    TaxRows(lines[..n], nextId) + [Entry(nextId + n, Charge, TaxCharge, lines[n].amount, PackTax(lines[n].code))]
  }

  /** What a total is posted as: without a pack, or with taxes off, the room charge alone. */
  ghost function Priced(total: Cents, config: Config): Posting
    requires config.Valid()
  {
    if config.NoPack? then Posting([], total, total)
    else Post(total as real, config.rules, ROOM_CHARGE, Some(config.mode))
  }

  ghost function Repriced(s: State, total: Cents, config: Config): State
    requires config.Valid()
  {
    var p := Priced(total, config);
    State(WithRoomCharge(Kept(s.rows) + TaxRows(p.lines, s.nextId), p.roomCharge), s.nextId + |p.lines|)
  }

  function Posted(s: State, kind: Kind, category: Category, amount: Cents): State {
    State(s.rows + [Entry(s.nextId, kind, category, if kind == Charge && category == Discount && amount > 0 then -amount else amount, Text)], s.nextId + 1)
  }

  predicate CanReverse(s: State, id: Id) {
    var i := IdAt(s.rows, id);
    i < |s.rows| && s.rows[i].amount != 0
  }

  function Reversed(s: State, id: Id): State
    requires CanReverse(s, id)
  {
    var e := s.rows[IdAt(s.rows, id)];
    State(s.rows + [Entry(s.nextId, e.kind, e.category, -e.amount, Text)], s.nextId + 1)
  }

  /** A folio starts with the room charge of the stay. */
  function Opened(total: Cents): State {
    State([Entry(0, Charge, RoomCharge, total, Text)], 1)
  }

  /** The folio begins with the room charge the engine posted. */
  predicate Opens(rows: seq<Entry>) {
    rows != [] && rows[0].kind == Charge && rows[0].category == RoomCharge && rows[0].description == Text
  }

  lemma HalfUpOfBase(base: Cents, config: Config)
    requires config.Valid() && config.Pack? && config.mode == Off
    ensures Priced(base, config) == Posting([], base, base)
  {
    HalfUpOfCents(base);
  }

  lemma {:induction false} OldestCharge(rows: seq<Entry>)
    requires Opens(rows)
    ensures RoomChargeAt(rows) == 0
  {
  }

  lemma SetCharge(rows: seq<Entry>, amount: Cents)
    requires Opens(rows)
    ensures WithRoomCharge(rows, amount) == [rows[0].(amount := amount)] + rows[1..] && Opens(WithRoomCharge(rows, amount))
  {
    OldestCharge(rows);
  }

  lemma {:induction false} KeptConcat(a: seq<Entry>, b: seq<Entry>)
    ensures Kept(a + b) == Kept(a) + Kept(b)
  {
    if b == [] {
      assert a + b == a;
    } else {
      KeptConcat(a, b[..|b| - 1]);
      assert (a + b)[..|a + b| - 1] == a + b[..|b| - 1];
    }
  }

  lemma KeptHead(rows: seq<Entry>)
    requires Opens(rows)
    ensures Kept(rows) == [rows[0]] + Kept(rows[1..]) && Opens(Kept(rows))
  {
    assert rows == [rows[0]] + rows[1..];
    KeptConcat([rows[0]], rows[1..]);
    assert [rows[0]][..0] == [];
    assert Kept([rows[0]]) == [rows[0]];
  }

  lemma SetChargeAndMore(charge: Entry, rest: seq<Entry>, taxes: seq<Entry>, amount: Cents)
    requires Opens([charge])
    ensures WithRoomCharge([charge] + rest + taxes, amount) == [charge.(amount := amount)] + rest + taxes
  {
    var rows := [charge] + rest + taxes;
    SetCharge(rows, amount);
    assert rows[1..] == rest + taxes;
  }

  /** Setting the charge before the taxes are replaced as well as after makes no difference. */
  lemma ChargeSetTwice(rows: seq<Entry>, first: Cents, taxes: seq<Entry>, second: Cents)
    requires Opens(rows)
    ensures WithRoomCharge(Kept(WithRoomCharge(rows, first)) + taxes, second) == WithRoomCharge(Kept(rows) + taxes, second)
  {
    var charge, rest := rows[0], Kept(rows[1..]);
    SetCharge(rows, first);
    KeptHead(rows);
    KeptHead(WithRoomCharge(rows, first));
    SetChargeAndMore(charge, rest, taxes, second);
    SetChargeAndMore(charge.(amount := first), rest, taxes, second);
  }

  /** After a repricing: the charge, what the staff added, and the new tax lines. */
  ghost function Layout(charge: Entry, rest: seq<Entry>, p: Posting, nextId: Id): seq<Entry> {
    [charge.(amount := p.roomCharge)] + rest + TaxRows(p.lines, nextId)
  }

  lemma RepricedOpens(s: State, total: Cents, config: Config)
    requires Opens(s.rows) && config.Valid()
    ensures Repriced(s, total, config).rows == Layout(s.rows[0], Kept(s.rows[1..]), Priced(total, config), s.nextId)
    ensures Opens(Repriced(s, total, config).rows)
  {
    var p := Priced(total, config);
    KeptHead(s.rows);
    SetChargeAndMore(s.rows[0], Kept(s.rows[1..]), TaxRows(p.lines, s.nextId), p.roomCharge);
  }

  // ----- The service -----

  class Ledger {
    var rows: seq<Entry>
    var nextId: Id

    ghost function Contents(): State
      reads this
    {
      State(rows, nextId)
    }

    predicate Valid()
      reads this
    {
      Opens(rows)
    }

    constructor (total: Cents, config: Config)
      requires config.Valid()
      ensures Valid() && Contents() == Repriced(Opened(total), total, config)
    {
      rows, nextId := [Entry(0, Charge, RoomCharge, total, Text)], 1;
      new;
      RepricedOpens(Contents(), total, config);
      var charge := ReplacePackTaxes(total, config);
      UpdateRoomCharge(charge);
    }

    method UpdateRoomCharge(amount: Cents)
      modifies this
      ensures rows == WithRoomCharge(old(rows), amount) && nextId == old(nextId)
    {
      var i := RoomChargeAt(rows);
      if i < |rows| {
        rows := rows[i := rows[i].(amount := amount)];
      }
    }

    method DeletePackTaxes()
      modifies this
      ensures rows == Kept(old(rows)) && nextId == old(nextId)
    {
      var kept := [];
      for i := 0 to |rows|
        invariant unchanged(this)
        invariant kept == Kept(rows[..i])
      {
        assert rows[..i + 1][..i] == rows[..i];
        if !IsPackTax(rows[i]) {
          kept := kept + [rows[i]];
        }
      }
      assert rows[..|rows|] == rows;
      rows := kept;
    }

    method ReplacePackTaxes(base: Cents, config: Config) returns (charge: Cents)
      requires config.Valid()
      modifies this
      ensures
        var p := Priced(base, config);
        rows == Kept(old(rows)) + TaxRows(p.lines, old(nextId)) && nextId == old(nextId) + |p.lines| && charge == p.roomCharge
    {
      DeletePackTaxes();
      if config.NoPack? {
        return base;
      }
      if config.mode == Off {
        HalfUpOfBase(base, config);
        return base;
      }
      var posting := CalculatePosting(base as real, config.rules, ROOM_CHARGE, Some(config.mode));
      PostTaxes(posting.lines);
      charge := posting.roomCharge;
    }

    method PostTaxes(lines: seq<Line>)
      modifies this
      ensures rows == old(rows) + TaxRows(lines, old(nextId)) && nextId == old(nextId) + |lines|
    {
      for i := 0 to |lines|
        invariant rows == old(rows) + TaxRows(lines[..i], old(nextId)) && nextId == old(nextId) + i
      {
        assert lines[..i + 1][..i] == lines[..i];
        rows := rows + [Entry(nextId, Charge, TaxCharge, lines[i].amount, PackTax(lines[i].code))];
        nextId := nextId + 1;
      }
      assert lines[..|lines|] == lines;
    }

    /** What a date change does to the folio. */
    method Reprice(total: Cents, config: Config)
      requires Valid() && config.Valid()
      modifies this
      ensures Valid() && Contents() == Repriced(old(Contents()), total, config)
    {
      RepricedOpens(Contents(), total, config);
      UpdateRoomCharge(total);
      var charge := ReplacePackTaxes(total, config);
      UpdateRoomCharge(charge);
      ChargeSetTwice(old(rows), total, TaxRows(Priced(total, config).lines, old(nextId)), charge);
    }

    method AddEntry(kind: Kind, category: Category, amount: Cents, allowed: set<Category>) returns (ok: bool)
      requires Valid() && amount > 0
      modifies this
      ensures Valid() && ok == (kind == Charge ==> category in allowed)
      ensures Contents() == if ok then Posted(old(Contents()), kind, category, amount) else old(Contents())
    {
      if kind == Charge && category !in allowed {
        return false;
      }
      var stored := if kind == Charge && category == Discount then -amount else amount;
      rows := rows + [Entry(nextId, kind, category, stored, Text)];
      nextId := nextId + 1;
      ok := true;
    }

    method Reverse(id: Id) returns (ok: bool)
      requires Valid()
      modifies this
      ensures Valid() && ok == CanReverse(old(Contents()), id)
      ensures Contents() == if ok then Reversed(old(Contents()), id) else old(Contents())
    {
      var i := IdAt(rows, id);
      if i == |rows| || rows[i].amount == 0 {
        return false;
      }
      rows := rows + [Entry(nextId, rows[i].kind, rows[i].category, -rows[i].amount, Text)];
      nextId := nextId + 1;
      ok := true;
    }

    method ComputeBalance() returns (balance: Cents)
      ensures balance == Balance(rows)
    {
      var charges, payments := 0, 0;
      for i := 0 to |rows|
        invariant charges == SumOfKind(rows[..i], Charge) && payments == SumOfKind(rows[..i], Payment)
      {
        assert rows[..i + 1][..i] == rows[..i];
        if rows[i].kind == Charge {
          charges := charges + rows[i].amount;
        } else {
          payments := payments + rows[i].amount;
        }
      }
      assert rows[..|rows|] == rows;
      BalanceIsChargesLessPayments(rows);
      balance := charges - payments;
    }
  }
}
