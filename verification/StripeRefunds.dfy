/** Card charges, refunds through the API, and refunds the payment provider reports by webhook. */
module StripeRefunds {
  import opened Base

  datatype Status = Succeeded | Failed | Refunded | PartialRefund

  datatype Charge = Charge(booking: Id, amount: Cents, status: Status)

  /** A payment row on a booking's folio. `charge` names the charge it was posted for. */
  datatype Payment = Payment(booking: Id, amount: Cents, charge: Id)

  datatype State = State(charges: map<Id, Charge>, payments: seq<Payment>, nextId: Id)

  /** The provider's answer to a charge: accepted, accepted without an identifier, or refused. */
  datatype Answer = Accepted | Nameless | Declined

  /** Rounding to the cent with ties to the even neighbour, as storing an amount does. */
  function HalfEven(x: real): Cents {
    var f := x.Floor;
    if x - f as real < 0.5 || (x - f as real == 0.5 && f % 2 == 0) then f else f + 1
  }

  // ----- The steps -----

  /** `eligible`: booking, payment method, property and account were all found and belong together. */
  function Charged(s: State, booking: Id, eligible: bool, amount: real, answer: Answer): State {
    if amount <= 0.0 || !eligible || answer == Nameless then s
    else if answer == Declined then s.(charges := s.charges[s.nextId := Charge(booking, HalfEven(amount), Failed)], nextId := s.nextId + 1)
    else State(
      s.charges[s.nextId := Charge(booking, HalfEven(amount), Succeeded)],
      s.payments + [Payment(booking, HalfEven(amount), s.nextId)],
      s.nextId + 1)
  }

  function RefundAmount(ch: Charge, amount: Option<real>): Cents {
    if amount.None? then ch.amount else HalfEven(amount.value)
  }

  predicate CanRefund(s: State, booking: Id, id: Id, amount: Option<real>) {
    && id in s.charges && s.charges[id].booking == booking && s.charges[id].status == Succeeded
    && (amount.Some? ==> RefundAmount(s.charges[id], amount) > 0)
    && RefundAmount(s.charges[id], amount) <= s.charges[id].amount
  }

  /** A refund on the books: the new status and one negative payment. */
  function Booked(s: State, id: Id, refund: Cents): State
    requires id in s.charges
  {
    var ch := s.charges[id];
    s.(charges := s.charges[id := ch.(status := if refund >= ch.amount then Refunded else PartialRefund)],
       payments := s.payments + [Payment(ch.booking, -refund, id)])
  }

  function ReportedAmount(ch: Charge, reported: Option<real>): Cents {
    var refund := if reported.Some? && reported.value > 0.0 then HalfEven(reported.value) else ch.amount;
    if refund > ch.amount then ch.amount else refund
  }

  /** A webhook counts only while the charge is still `succeeded`. */
  function Reconciled(s: State, id: Id, reported: Option<real>): State {
    if id in s.charges && s.charges[id].status == Succeeded then Booked(s, id, ReportedAmount(s.charges[id], reported)) else s
  }

  class Payments {
    var charges: map<Id, Charge>
    var payments: seq<Payment>
    var nextId: Id

    ghost function Tables(): State
      reads this
    {
      State(charges, payments, nextId)
    }

    constructor ()
      ensures Tables() == State(map[], [], 0)
    {
      charges, payments, nextId := map[], [], 0;
    }

    /** A refused charge is committed before the error is raised; every other error leaves nothing behind. */
    method ChargeBooking(booking: Id, eligible: bool, amount: real, answer: Answer) returns (ok: bool)
      modifies this
      ensures ok == (amount > 0.0 && eligible && answer == Accepted)
      ensures Tables() == Charged(old(Tables()), booking, eligible, amount, answer)
    {
      if amount <= 0.0 || !eligible {
        return false;
      }
      if answer == Declined {
        charges := charges[nextId := Charge(booking, HalfEven(amount), Failed)];
        nextId := nextId + 1;
        return false;
      }
      if answer == Nameless {
        return false;
      }
      payments := payments + [Payment(booking, HalfEven(amount), nextId)];
      charges := charges[nextId := Charge(booking, HalfEven(amount), Succeeded)];
      nextId := nextId + 1;
      ok := true;
    }

    method RefundCharge(booking: Id, id: Id, amount: Option<real>, connected: bool, accepted: bool) returns (ok: bool)
      modifies this
      ensures ok == (CanRefund(old(Tables()), booking, id, amount) && connected && accepted)
      ensures Tables() == if ok then Booked(old(Tables()), id, RefundAmount(old(charges)[id], amount)) else old(Tables())
    {
      if id !in charges || charges[id].booking != booking {
        return false;
      }
      var ch := charges[id];
      if ch.status == Failed || ch.status == Refunded || ch.status == PartialRefund {
        return false;
      }
      var refund := if amount.None? then ch.amount else HalfEven(amount.value);
      if amount.Some? && refund <= 0 {
        return false;
      }
      if refund > ch.amount {
        return false;
      }
      if !connected || !accepted {
        return false;
      }
      charges := charges[id := ch.(status := if refund >= ch.amount then Refunded else PartialRefund)];
      payments := payments + [Payment(ch.booking, -refund, id)];
      ok := true;
    }

    method ReconcileRefund(id: Id, reported: Option<real>) returns (changed: bool)
      modifies this
      ensures changed == (id in old(charges) && old(charges)[id].status == Succeeded)
      ensures Tables() == Reconciled(old(Tables()), id, reported)
    {
      if id !in charges || charges[id].status != Succeeded {
        return false;
      }
      var ch := charges[id];
      var refund := ch.amount;
      if reported.Some? && reported.value > 0.0 {
        refund := HalfEven(reported.value);
      }
      if refund > ch.amount {
        refund := ch.amount;
      }
      charges := charges[id := ch.(status := if refund >= ch.amount then Refunded else PartialRefund)];
      payments := payments + [Payment(ch.booking, -refund, id)];
      changed := true;
    }
  }

  // ----- Runs -----

  datatype Event =
    | Pay(booking: Id, eligible: bool, amount: real, answer: Answer)
    | Refund(booking: Id, charge: Id, requested: Option<real>, accepted: bool)
    | Webhook(charge: Id, reported: Option<real>)

  function Step(s: State, e: Event): State {
    match e
    case Pay(booking, eligible, amount, answer) => Charged(s, booking, eligible, amount, answer)
    case Refund(booking, id, amount, accepted) =>
      if CanRefund(s, booking, id, amount) && accepted then Booked(s, id, RefundAmount(s.charges[id], amount)) else s
    case Webhook(id, reported) => Reconciled(s, id, reported)
  }

  function Run(s: State, events: seq<Event>): State {
    if events == [] then s else Step(Run(s, events[..|events| - 1]), events[|events| - 1])
  }

  /** The amounts posted to the folio for one charge, oldest first. */
  function PostedFor(payments: seq<Payment>, id: Id): seq<Cents> {
    if payments == [] then [] else
    var last := payments[|payments| - 1];
    PostedFor(payments[..|payments| - 1], id) + if last.charge == id then [last.amount] else []
  }

  function Net(s: State, id: Id): Cents {
    Sum(PostedFor(s.payments, id))
  }

  /** What the folio holds for a charge, by its status. */
  predicate Told(posted: seq<Cents>, ch: Charge) {
    && ch.amount >= 0
    && match ch.status
       case Failed => posted == []
       case Succeeded => posted == [ch.amount]
       case Refunded => posted == [ch.amount, -ch.amount]
       case PartialRefund => |posted| == 2 && posted[0] == ch.amount && -ch.amount < posted[1] <= 0
  }

  predicate GoodAt(s: State, id: Id) {
    var posted := PostedFor(s.payments, id);
    if id in s.charges then id < s.nextId && Told(posted, s.charges[id]) else posted == []
  }

  ghost predicate Good(s: State) {
    forall id: Id :: GoodAt(s, id)
  }

  lemma PostedAppend(payments: seq<Payment>, p: Payment, id: Id)
    ensures PostedFor(payments + [p], id) == PostedFor(payments, id) + if p.charge == id then [p.amount] else []
  {
    assert (payments + [p])[..|payments|] == payments;
  }

  lemma HalfEvenKeepsSign(x: real)
    ensures x >= 0.0 ==> HalfEven(x) >= 0
    ensures HalfEven(x) == 0 <==> -0.5 <= x <= 0.5
  {
  }

  lemma ChargedIsGoodAt(s: State, booking: Id, amount: real, answer: Answer, id: Id)
    requires GoodAt(s, id) && GoodAt(s, s.nextId) && amount > 0.0
    ensures GoodAt(Charged(s, booking, true, amount, answer), id)
  {
    HalfEvenKeepsSign(amount);
    PostedAppend(s.payments, Payment(booking, HalfEven(amount), s.nextId), id);
  }

  lemma BookedIsGoodAt(s: State, id: Id, refund: Cents, other: Id)
    requires GoodAt(s, id) && id in s.charges && s.charges[id].status == Succeeded && 0 <= refund <= s.charges[id].amount
    requires GoodAt(s, other)
    ensures GoodAt(Booked(s, id, refund), other)
  {
    PostedAppend(s.payments, Payment(s.charges[id].booking, -refund, id), other);
  }

  lemma ReportedIsBounded(ch: Charge, reported: Option<real>)
    requires ch.amount >= 0
    ensures 0 <= ReportedAmount(ch, reported) <= ch.amount
  {
    if reported.Some? && reported.value > 0.0 {
      HalfEvenKeepsSign(reported.value);
    }
  }

  lemma StepIsGoodAt(s: State, e: Event, id: Id)
    requires Good(s)
    ensures GoodAt(Step(s, e), id)
  {
    assert GoodAt(s, id);
    match e
    case Pay(booking, eligible, amount, answer) =>
      assert GoodAt(s, s.nextId);
      if amount > 0.0 && eligible {
        ChargedIsGoodAt(s, booking, amount, answer, id);
      }
    case Refund(booking, charge, amount, accepted) =>
      assert GoodAt(s, charge);
      if CanRefund(s, booking, charge, amount) && accepted {
        BookedIsGoodAt(s, charge, RefundAmount(s.charges[charge], amount), id);
      }
    case Webhook(charge, reported) =>
      assert GoodAt(s, charge);
      if charge in s.charges && s.charges[charge].status == Succeeded {
        ReportedIsBounded(s.charges[charge], reported);
        BookedIsGoodAt(s, charge, ReportedAmount(s.charges[charge], reported), id);
      }
  }

  lemma StepIsGood(s: State, e: Event)
    requires Good(s)
    ensures Good(Step(s, e))
  {
    forall id: Id ensures GoodAt(Step(s, e), id) {
      StepIsGoodAt(s, e, id);
    }
  }

  lemma {:induction false} RunIsGood(s: State, events: seq<Event>)
    requires Good(s)
    ensures Good(Run(s, events))
  {
    if events != [] {
      RunIsGood(s, events[..|events| - 1]);
      StepIsGood(Run(s, events[..|events| - 1]), events[|events| - 1]);
    }
  }

  // ----- What it means -----

  lemma SumOfTwo(xs: seq<Cents>)
    ensures |xs| == 1 ==> Sum(xs) == xs[0]
    ensures |xs| == 2 ==> Sum(xs) == xs[0] + xs[1]
  {
    if |xs| == 1 {
      assert xs[..0] == [];
    } else if |xs| == 2 {
      assert xs[..1][..0] == [];
    }
  }

  /**
   In every run from an empty store: at most one refund row for a charge, none unless it succeeded;
   its net payment stays between nothing and its amount.
   */
  lemma RefundsAreBounded(events: seq<Event>, id: Id)
    ensures BoundedAt(Run(State(map[], [], 0), events), id)
  {
    var s := Run(State(map[], [], 0), events);
    RunIsGood(State(map[], [], 0), events);
    assert GoodAt(s, id);
    SumOfTwo(PostedFor(s.payments, id));
  }

  predicate BoundedAt(s: State, id: Id) {
    var posted := PostedFor(s.payments, id);
    if id !in s.charges || s.charges[id].status == Failed then posted == []
    else
      && 0 <= Sum(posted) <= s.charges[id].amount && 1 <= |posted| <= 2
      && (|posted| == 2 <==> s.charges[id].status == Refunded || s.charges[id].status == PartialRefund)
  }

  /**
   A charge that went through nets to zero exactly when it is `refunded`, if and only if its stored amount is
   positive or it is `refunded`: an amount that rounds to no cents at all nets to zero from the start.
   */
  lemma NetZeroMeansRefunded(s: State, id: Id)
    requires GoodAt(s, id) && id in s.charges && s.charges[id].status != Failed
    ensures
      (Net(s, id) == 0 <==> s.charges[id].status == Refunded) <==> s.charges[id].amount > 0 || s.charges[id].status == Refunded
  {
    SumOfTwo(PostedFor(s.payments, id));
  }

  /** Half a cent or less is accepted by the check on the amount but stored as nothing. */
  lemma TinyChargeNetsToZero(booking: Id, amount: real)
    requires 0.0 < amount <= 0.5
    ensures
      var s := Charged(State(map[], [], 0), booking, true, amount, Accepted);
      0 in s.charges && s.charges[0].status == Succeeded && Net(s, 0) == 0
  {
    HalfEvenKeepsSign(amount);
    PostedAppend([], Payment(booking, 0, 0), 0);
    assert [] + [Payment(booking, 0, 0)] == [Payment(booking, 0, 0)];
    SumOfTwo([0]);
  }

  predicate SameAt(r: State, s: State, id: Id) {
    id in r.charges && id in s.charges && r.charges[id] == s.charges[id] && PostedFor(r.payments, id) == PostedFor(s.payments, id)
  }

  lemma ChargeLeavesOthers(s: State, booking: Id, eligible: bool, amount: real, answer: Answer, id: Id)
    requires GoodAt(s, id) && id in s.charges
    ensures SameAt(Charged(s, booking, eligible, amount, answer), s, id)
  {
    PostedAppend(s.payments, Payment(booking, HalfEven(amount), s.nextId), id);
  }

  lemma BookedLeavesOthers(s: State, id: Id, refund: Cents, other: Id)
    requires id in s.charges && other in s.charges && other != id
    ensures SameAt(Booked(s, id, refund), s, other)
  {
    PostedAppend(s.payments, Payment(s.charges[id].booking, -refund, id), other);
  }

  lemma StepLeavesSettled(s: State, e: Event, id: Id)
    requires GoodAt(s, id) && id in s.charges && s.charges[id].status != Succeeded
    ensures SameAt(Step(s, e), s, id)
  {
    match e
    case Pay(booking, eligible, amount, answer) => ChargeLeavesOthers(s, booking, eligible, amount, answer, id);
    case Refund(booking, charge, amount, accepted) =>
      if CanRefund(s, booking, charge, amount) && accepted {
        BookedLeavesOthers(s, charge, RefundAmount(s.charges[charge], amount), id);
      }
    case Webhook(charge, reported) =>
      if charge in s.charges && s.charges[charge].status == Succeeded {
        BookedLeavesOthers(s, charge, ReportedAmount(s.charges[charge], reported), id);
      }
  }

  /** The first refund on the books is the last: nothing that follows changes the charge or its postings. */
  lemma {:induction false} FirstRefundWins(s: State, events: seq<Event>, id: Id)
    requires Good(s) && id in s.charges && s.charges[id].status != Succeeded
    ensures SameAt(Run(s, events), s, id)
  {
    if events != [] {
      var before := Run(s, events[..|events| - 1]);
      RunIsGood(s, events[..|events| - 1]);
      FirstRefundWins(s, events[..|events| - 1], id);
      assert GoodAt(before, id);
      StepLeavesSettled(before, events[|events| - 1], id);
    }
  }
}
