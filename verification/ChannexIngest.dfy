/** The ingest and its two tasks, step by step. */
module ChannexIngest {
  import opened Base
  import opened BookingStatus
  import opened Inventory
  import opened Stays
  import opened AvailabilityLock
  import opened BookingRules
  import opened ChannexRules
  import opened ChannexInbox
  import BookingService
  import BookingSafety
  import NightlySplit

  class Inbox {
    const session: Session
    var revisions: map<Id, Revision>
    var acknowledged: set<Id>
    ghost var effects: seq<Id>

    constructor (session: Session)
      ensures this.session == session && Committed() == State(session.Tables(), map[], {}, [])
    {
      this.session := session;
      revisions, acknowledged, effects := map[], {}, [];
    }

    ghost function Committed(): State
      reads this, session
    {
      State(session.Tables(), revisions, acknowledged, effects)
    }

    method FindByExternal(external: Id) returns (found: Option<Id>)
      ensures FoundBy(session.Tables(), external, found)
    {
      var left := session.bookings.Keys;
      while left != {}
        invariant left <= session.bookings.Keys
        invariant forall x :: x in session.bookings.Keys - left ==> session.bookings[x].external != Some(external)
      {
        var x :| x in left;
        if session.bookings[x].external == Some(external) {
          return Some(x);
        }
        left := left - {x};
      }
      return None;
    }

    method Cancel(id: Id) returns (ghost a: Applied, outcome: Outcome)
      requires id in session.bookings
      modifies session`ledger, session`bookings
      ensures Cancels(old(session.Tables()), id, a) && a.outcome == outcome
      ensures session.Tables() == Apply(old(session.Tables()), a)
    {
      BookingSafety.ShiftNothing(session.ledger);
      var b := session.bookings[id];
      if b.status == Cancelled {
        return UNTOUCHED_DONE, Done;
      }
      ghost var released := {};
      if OneCategory(b.lines) {
        var lock := LockAndValidate(session, KeysOf(b.lines), 0);
        if lock != Locked {
          return UNTOUCHED_FAILED, Failed;
        }
        var ok;
        ok, released := DecrementBookedRooms(session, KeysOf(b.lines));
        if !ok {
          return Applied(Failed, released, {}, None), Failed;
        }
      }
      session.bookings := session.bookings[id := b.(status := Cancelled)];
      return Applied(Done, released, {}, Some((id, b.(status := Cancelled)))), Done;
    }

    method Modify(id: Id, r: Request) returns (ghost a: Applied, outcome: Outcome)
      requires id in session.bookings && r.checkIn < r.checkOut
      modifies session`ledger, session`bookings
      ensures Modifies(old(session.Tables()), id, r, a) && a.outcome == outcome
      ensures session.Tables() == Apply(old(session.Tables()), a)
    {
      BookingSafety.ShiftNothing(session.ledger);
      var b := session.bookings[id];
      if !OneCategory(b.lines) {
        return UNTOUCHED_FAILED, Failed;
      }
      var lock := LockAndValidate(session, KeysOf(b.lines), 0);
      if lock != Locked {
        return UNTOUCHED_FAILED, Failed;
      }
      var ok;
      ghost var released;
      ok, released := DecrementBookedRooms(session, KeysOf(b.lines));
      if !ok {
        return Applied(Failed, released, {}, None), Failed;
      }
      lock := LockAndValidate(session, r.Keys(), 1);
      if lock != Locked {
        return Applied(Failed, released, {}, None), Failed;
      }
      IncrementBookedRooms(session, r.Keys());
      ShiftIsReleaseThenBook(old(session.ledger), KeysOf(b.lines), r.Keys());
      var prices := NightlySplit.NightlyPricesFromTotal(r.amount, r.checkOut - r.checkIn);
      var lines := BookingService.AddLines(r.roomType, r.checkIn, prices);
      session.bookings := session.bookings[id := b.(ratePlan := Some(r.ratePlan), total := r.amount, lines := lines)];
      return Applied(Done, KeysOf(b.lines), r.Keys(), Some((id, Rewritten(b, r)))), Done;
    }

    method Create(r: Request, guestOk: bool, id: Id) returns (ghost a: Applied, outcome: Outcome)
      requires r.checkIn < r.checkOut && id !in session.bookings
      modifies session`ledger, session`bookings
      ensures Creates(old(session.Tables()), r, guestOk, id, a) && a.outcome == outcome
      ensures outcome != Raised ==> session.Tables() == Apply(old(session.Tables()), a)
    {
      BookingSafety.ShiftNothing(session.ledger);
      var lock := LockAndValidate(session, r.Keys(), 1);
      if lock != Locked {
        return UNTOUCHED_FAILED, Failed;
      }
      IncrementBookedRooms(session, r.Keys());
      if !guestOk {
        return Applied(Failed, {}, r.Keys(), None), Failed;
      }
      var prices := NightlySplit.NightlyPricesFromTotal(r.amount, r.checkOut - r.checkIn);
      var header := Booking(Confirmed, r.property, Some(r.ratePlan), Some(r.external), r.amount, []);
      var ok, room := BookingService.StoreBooking(session, id, header, r.roomType, r.checkIn, r.checkOut, prices);
      assert FirstFree(old(session.Tables()), r.roomType, r.property, StayNights(r.checkIn, r.checkOut), id, room);
      if !ok {
        return ROLLED_BACK, Raised;
      }
      return Applied(Done, {}, r.Keys(), Some((id, Imported(r, room)))), Done;
    }

    method Carry(r: Request, guestOk: bool, newId: Id) returns (ghost found: Option<Id>, ghost a: Applied, outcome: Outcome)
      requires r.checkIn < r.checkOut && newId !in session.bookings
      modifies session`ledger, session`bookings
      ensures FoundBy(old(session.Tables()), r.external, found) && Effect(old(session.Tables()), r, found, guestOk, newId, a)
      ensures a.outcome == outcome && (outcome != Raised ==> session.Tables() == Apply(old(session.Tables()), a))
    {
      BookingSafety.ShiftNothing(session.ledger);
      var stored := FindByExternal(r.external);
      found := stored;
      match r.kind {
        case Cancellation =>
          if stored.None? { return found, UNTOUCHED_FAILED, Failed; }
          a, outcome := Cancel(stored.value);
        case Modified =>
          if stored.None? { return found, UNTOUCHED_FAILED, Failed; }
          a, outcome := Modify(stored.value, r);
        case New =>
          if stored.Some? { return found, UNTOUCHED_DONE, Done; }
          a, outcome := Create(r, guestOk, newId);
      }
    }

    /** Insert the revision, or take over one in error; false when it was already processed. */
    method ClaimRevisionRow(rev: Id, p: Payload) returns (claimed: bool)
      modifies this`revisions
      ensures claimed == !ChannexInbox.Claimed(old(revisions), rev)
      ensures revisions == if claimed then old(revisions)[rev := Revision(InProgress, p)] else old(revisions)
    {
      if rev !in revisions || revisions[rev].status == Errored {
        revisions := revisions[rev := Revision(InProgress, p)];
        return true;
      }
      return false;
    }

    /** The transaction of one ingest; an exception rolls everything back. */
    method Ingest(link: Link, p: Payload, guestOk: bool, newId: Id) returns (out: Result)
      requires newId !in session.bookings
      modifies this`revisions, this`effects, session
      ensures Ingested(old(Committed()), link, p, guestOk, newId, out, Committed())
    {
      ghost var x := Committed();
      var db, before := session.Tables(), revisions;
      if p.Malformed? || p.id.None? {
        return Failure;
      }
      var rev := p.id.value;
      var claimed := ClaimRevisionRow(rev, p);
      if !claimed {
        return Skipped;
      }
      match Resolve(link, p) {
        case Unusable =>
          revisions := revisions[rev := Revision(Errored, p)];
          assert revisions == before[rev := Revision(Errored, p)];
          return Failure;
        case TooLong =>
          revisions := before;
          return Exception;
        case Ready(r) =>
          ghost var found, a;
          var outcome;
          found, a, outcome := Carry(r, guestOk, newId);
          match outcome {
            case Raised =>
              session.Rollback(db);
              revisions := before;
              out := Exception;
            case Failed =>
              revisions := revisions[rev := Revision(Errored, p)];
              out := Failure;
            case Done =>
              revisions := revisions[rev := Revision(Finished, p)];
              effects := effects + [rev];
              out := Success;
          }
          assert outcome != Raised ==> revisions == before[rev := Revision(if outcome == Done then Finished else Errored, p)];
          assert ChannexInbox.Committed(x, p, a, out, Committed());
      }
    }

    /** Ingest, commit unless the worker dies, then acknowledge unless the ingest failed. */
    method IngestAndAcknowledge(rev: Id, p: Payload, env: Surroundings)
      requires env.newId !in session.bookings
      modifies this, session
      ensures Task(old(Committed()), rev, p, env, Committed())
    {
      var db, before := session.Tables(), revisions;
      ghost var x := Committed();
      var out := Ingest(env.link, p, env.guestOk, env.newId);
      ghost var mid := Committed();
      if out == Exception || !env.commits {
        session.Rollback(db);
        revisions, effects := before, x.effects;
      } else if out != Failure && env.ackArrives {
        acknowledged := acknowledged + {rev};
      }
      assert IngestedAndSettled(x, rev, p, env, out, mid, Committed());
    }

    method ProcessWebhook(rev: Id, fetched: Option<Payload>, env: Surroundings)
      requires env.newId !in session.bookings && (fetched.Some? ==> Answers(rev, fetched.value))
      modifies this, session
      ensures Step(old(Committed()), Delivery(rev, fetched, env), Committed())
    {
      if fetched.Some? {
        IngestAndAcknowledge(rev, fetched.value, env);
      }
    }

    method RetryRevision(rev: Id, env: Surroundings)
      requires env.newId !in session.bookings
      modifies this, session
      ensures Step(old(Committed()), Retry(rev, env), Committed())
    {
      if rev in revisions && revisions[rev].status == Errored {
        IngestAndAcknowledge(rev, revisions[rev].payload, env);
      }
    }
  }
}
