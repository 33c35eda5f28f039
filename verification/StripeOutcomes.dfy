/** What one payment event leaves on the books, to the cent: which are accepted, and what the folio gains or loses. */
module StripeOutcomes {
  import opened Base
  import opened Rounding
  import opened StripeRefunds

  /** Stored to the nearest cent, half a cent to the even one. */
  predicate StoredAs(x: real, n: Cents) {
    Abs(n as real - x) <= 0.5 && (Abs(n as real - x) == 0.5 ==> n % 2 == 0)
  }

  lemma StoredExactly(x: real, n: Cents)
    ensures HalfEven(x) == n <==> StoredAs(x, n)
  {
    var f := x.Floor;
    if StoredAs(x, n) {
      assert n == f || n == f + 1;
    }
  }

  lemma WholeCentsAreStored(n: Cents)
    ensures StoredAs(n as real, n)
  {
  }

  /** One row more on the folio, for the charge. */
  predicate Posts(s: State, after: State, booking: Id, amount: Cents, id: Id) {
    after.payments == s.payments + [Payment(booking, amount, id)]
  }

  /** A charge is stored with its payment when the provider accepts it, stored as failed when it declines, and not at all otherwise. */
  lemma PayOutcome(s: State, booking: Id, eligible: bool, amount: real, answer: Answer, n: Cents)
    requires StoredAs(amount, n)
    ensures
      var after := Step(s, Pay(booking, eligible, amount, answer));
      if amount <= 0.0 || !eligible || answer == Nameless then after == s
      else
        && after.nextId == s.nextId + 1
        && after.charges == s.charges[s.nextId := Charge(booking, n, if answer == Declined then Failed else Succeeded)]
        && if answer == Declined then after.payments == s.payments else Posts(s, after, booking, n, s.nextId)
  {
    StoredExactly(amount, n);
  }

  /** The charge has gone back by n cents, in whole or in part, and nothing else has changed. */
  predicate GoesBack(s: State, after: State, id: Id, n: Cents)
    requires id in s.charges
  {
    var ch := s.charges[id];
    && after.nextId == s.nextId && Posts(s, after, ch.booking, -n, id)
    && after.charges == s.charges[id := Charge(ch.booking, ch.amount, if n == ch.amount then Refunded else PartialRefund)]
  }

  /** What a request for a refund asks for: the whole charge, or an amount to the cent. */
  predicate AsksBack(ch: Charge, amount: Option<real>, n: Cents) {
    if amount.None? then n == ch.amount else StoredAs(amount.value, n)
  }

  /**
   A refund goes through exactly when it names a charge of the booking that succeeded, for a positive amount no larger
   than the charge if it names one, and the provider accepts it; it then takes that amount off the folio.
   */
  lemma RefundOutcome(s: State, booking: Id, id: Id, amount: Option<real>, accepted: bool, n: Cents)
    requires id in s.charges ==> AsksBack(s.charges[id], amount, n)
    ensures
      var after := Step(s, Refund(booking, id, amount, accepted));
      if id in s.charges && s.charges[id].booking == booking && s.charges[id].status == Succeeded
        && (amount.Some? ==> 0 < n <= s.charges[id].amount) && accepted
      then GoesBack(s, after, id, n) else after == s
  {
    if amount.Some? {
      StoredExactly(amount.value, n);
    }
  }

  /** What a webhook reports: a positive amount to the cent and at most the charge, or the whole charge. */
  ghost predicate Reports(ch: Charge, reported: Option<real>, n: Cents) {
    if reported.None? || reported.value <= 0.0 then n == ch.amount
    else exists m: Cents :: StoredAs(reported.value, m) && n == if m < ch.amount then m else ch.amount
  }

  /** A webhook takes what it reports off the folio while the charge has succeeded, and does nothing otherwise. */
  lemma WebhookOutcome(s: State, id: Id, reported: Option<real>, n: Cents)
    requires id in s.charges ==> Reports(s.charges[id], reported, n)
    ensures
      var after := Step(s, Webhook(id, reported));
      if id in s.charges && s.charges[id].status == Succeeded then GoesBack(s, after, id, n) else after == s
  {
    if id in s.charges && reported.Some? && reported.value > 0.0 {
      var m: Cents :| StoredAs(reported.value, m) && n == if m < s.charges[id].amount then m else s.charges[id].amount;
      StoredExactly(reported.value, m);
    }
  }

  /** A reported amount in cents, up to the charge, is what the folio loses. */
  lemma ReportedIsTakenOff(s: State, id: Id, n: Cents)
    requires id in s.charges && s.charges[id].status == Succeeded && 0 < n <= s.charges[id].amount
    ensures Net(Step(s, Webhook(id, Some(n as real))), id) == Net(s, id) - n
  {
    WholeCentsAreStored(n);
    assert Reports(s.charges[id], Some(n as real), n);
    WebhookOutcome(s, id, Some(n as real), n);
    PostedAppend(s.payments, Payment(s.charges[id].booking, -n, id), id);
    var before := PostedFor(s.payments, id);
    assert (before + [-n])[..|before|] == before;
  }
}
