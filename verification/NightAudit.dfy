/** The nightly sweep that turns overdue confirmed bookings into no-shows. */
module NightAudit {
  import opened Base
  import opened BookingStatus
  import opened Inventory
  import opened StayDates
  import opened BookingRules
  import BookingSafety
  import BookingService

  /** Confirmed bookings of the property whose first night is before the local day. */
  function Overdue(db: Db, property: Id, today: Date): set<Id> {
    set x | x in db.bookings && db.bookings[x].property == property && db.bookings[x].status == Confirmed
            && db.bookings[x].lines != [] && Earliest(NightSeq(db.bookings[x].lines)) < today
  }

  const NO_SHOW := Patch(Some(To(NoShow)), None, None, None)

  /** The bookings patched one after the other; an inventory error ends the sweep. */
  ghost function SweptInOrder(db: Db, order: seq<Id>): Option<Db> {
    if order == [] then Some(db) else
    var before := SweptInOrder(db, order[..|order| - 1]);
    if before.None? then None else PatchBooking(before.value, order[|order| - 1], NO_SHOW, true)
  }

  /** Some order of the bookings: the source reads them in none in particular. */
  ghost predicate Lists(order: seq<Id>, ids: set<Id>) {
    Distinct(order) && forall x :: x in order <==> x in ids
  }

  // ----- The sweep as a whole -----

  /** Bookings with the statuses of `marked` set to no-show. */
  function MarkNoShow(bookings: Bookings, marked: set<Id>): Bookings {
    map x | x in bookings :: if x in marked then bookings[x].(status := NoShow) else bookings[x]
  }

  /** The bookings that give bucket k back. */
  function Givers(bookings: Bookings, ids: set<Id>, k: Key): set<Id> {
    set x | x in ids && x in bookings && k in ReleasedKeys(bookings[x].lines)
  }

  function Demand(bookings: Bookings, ids: set<Id>, k: Key): nat {
    |Givers(bookings, ids, k)|
  }

  /** Every bucket to be given back has a row, is not over-committed, and counts at least as many rooms as will be given back. */
  ghost predicate CanSweep(db: Db, ids: set<Id>) {
    forall k :: Demand(db.bookings, ids, k) > 0 ==> Gives(db, ids, k)
  }

  predicate Gives(db: Db, ids: set<Id>, k: Key) {
    k in db.ledger && db.ledger[k].Available() >= 0 && db.ledger[k].booked >= Demand(db.bookings, ids, k)
  }

  function SweptRow(db: Db, ids: set<Id>, k: Key): Row
    requires k in db.ledger
  {
    db.ledger[k].(booked := db.ledger[k].booked - Demand(db.bookings, ids, k))
  }

  function SweptLedger(db: Db, ids: set<Id>): Ledger {
    map k | k in db.ledger :: SweptRow(db, ids, k)
  }

  /** Each row loses exactly the bookings that gave it back. */
  function Swept(db: Db, ids: set<Id>): Db {
    db.(ledger := SweptLedger(db, ids), bookings := MarkNoShow(db.bookings, ids))
  }

  ghost predicate AllConfirmed(db: Db, ids: set<Id>) {
    forall x :: x in ids ==> x in db.bookings && db.bookings[x].status == Confirmed
  }

  lemma SweptNothing(db: Db)
    ensures CanSweep(db, {}) && Swept(db, {}) == db
  {
    assert MarkNoShow(db.bookings, {}) == db.bookings;
    forall k ensures Givers(db.bookings, {}, k) == {} {
    }
    assert SweptLedger(db, {}) == db.ledger;
  }

  lemma DemandGrows(bookings: Bookings, ids: set<Id>, x: Id, k: Key)
    requires x in bookings && x !in ids
    ensures Demand(bookings, ids + {x}, k) == Demand(bookings, ids, k) + In(k, ReleasedKeys(bookings[x].lines))
  {
    if k in ReleasedKeys(bookings[x].lines) {
      assert Givers(bookings, ids + {x}, k) == Givers(bookings, ids, k) + {x};
    } else {
      assert Givers(bookings, ids + {x}, k) == Givers(bookings, ids, k);
    }
  }

  /** For a confirmed booking the patch is a release. */
  lemma NoShowIsRelease(db: Db, x: Id)
    requires x in db.bookings && db.bookings[x].status == Confirmed
    ensures PatchBooking(db, x, NO_SHOW, true) == ReleaseInto(db, x, NoShow)
  {
  }

  /** After some were swept, the next can be released exactly when they can all be swept together. */
  lemma ReleasableAfter(db: Db, ids: set<Id>, x: Id)
    requires x in db.bookings && x !in ids && CanSweep(db, ids)
    ensures Releasable(Swept(db, ids).ledger, ReleasedKeys(db.bookings[x].lines)) <==> CanSweep(db, ids + {x})
  {
    var keys, mid := ReleasedKeys(db.bookings[x].lines), Swept(db, ids).ledger;
    forall k ensures k in keys ==> (GivesBack(mid, k) <==> Gives(db, ids + {x}, k)) {
      DemandGrows(db.bookings, ids, x, k);
      assert Demand(db.bookings, ids, k) > 0 ==> Gives(db, ids, k);
    }
    forall k ensures k !in keys ==> (Demand(db.bookings, ids + {x}, k) > 0 ==> Gives(db, ids + {x}, k)) {
      DemandGrows(db.bookings, ids, x, k);
      assert Demand(db.bookings, ids, k) > 0 ==> Gives(db, ids, k);
    }
    if Releasable(mid, keys) {
      forall k | Demand(db.bookings, ids + {x}, k) > 0 ensures Gives(db, ids + {x}, k) {
        assert k in keys ==> GivesBack(mid, k);
      }
    }
    if CanSweep(db, ids + {x}) {
      forall k | k in keys ensures GivesBack(mid, k) {
        DemandGrows(db.bookings, ids, x, k);
        assert Demand(db.bookings, ids + {x}, k) > 0;
      }
    }
  }

  predicate GivesBack(ledger: Ledger, k: Key) {
    k in ledger && ledger[k].Available() >= 0 && ledger[k].booked >= 1
  }

  lemma SweptRowOneMore(db: Db, ids: set<Id>, x: Id, k: Key)
    requires x in db.bookings && x !in ids && k in db.ledger
    ensures
      var keys, row := ReleasedKeys(db.bookings[x].lines), SweptRow(db, ids, k);
      SweptRow(db, ids + {x}, k) == row.(booked := row.booked - In(k, keys))
  {
    DemandGrows(db.bookings, ids, x, k);
  }

  lemma SweptLedgerOneMore(db: Db, ids: set<Id>, x: Id)
    requires x in db.bookings && x !in ids
    ensures SweptLedger(db, ids + {x}) == Shift(SweptLedger(db, ids), ReleasedKeys(db.bookings[x].lines), {})
  {
    forall k | k in db.ledger
      ensures SweptLedger(db, ids + {x})[k] == Shift(SweptLedger(db, ids), ReleasedKeys(db.bookings[x].lines), {})[k]
    {
      SweptRowOneMore(db, ids, x, k);
    }
  }

  lemma MarkOneMore(bookings: Bookings, ids: set<Id>, x: Id)
    requires x in bookings && x !in ids
    ensures MarkNoShow(bookings, ids + {x}) == MarkNoShow(bookings, ids)[x := bookings[x].(status := NoShow)]
  {
  }

  /** One more patch, after some bookings were swept. */
  lemma PatchAfter(db: Db, ids: set<Id>, x: Id)
    requires x in db.bookings && x !in ids && db.bookings[x].status == Confirmed && CanSweep(db, ids)
    ensures PatchBooking(Swept(db, ids), x, NO_SHOW, true) == if CanSweep(db, ids + {x}) then Some(Swept(db, ids + {x})) else None
  {
    var mid := Swept(db, ids);
    assert mid.bookings[x] == db.bookings[x];
    NoShowIsRelease(mid, x);
    ReleasableAfter(db, ids, x);
    SweptLedgerOneMore(db, ids, x);
    MarkOneMore(db.bookings, ids, x);
  }

  /** What stops some of the bookings stops all of them. */
  lemma SweepIsMonotone(db: Db, some: set<Id>, all: set<Id>)
    requires some <= all && CanSweep(db, all)
    ensures CanSweep(db, some)
  {
    forall k | Demand(db.bookings, some, k) > 0 ensures Gives(db, some, k) {
      var more := Givers(db.bookings, all, k) - Givers(db.bookings, some, k);
      assert Givers(db.bookings, all, k) == Givers(db.bookings, some, k) + more;
      assert Gives(db, all, k);
    }
  }

  /**
   On any ledger, exact or not, the order of the sweep does not matter: it succeeds exactly when every bucket can
   give back all it is asked for, and then each row falls by exactly the bookings that held it.
   */
  lemma {:induction false} OrderDoesNotMatter(db: Db, order: seq<Id>, ids: set<Id>)
    requires Lists(order, ids) && AllConfirmed(db, ids)
    ensures SweptInOrder(db, order) == if CanSweep(db, ids) then Some(Swept(db, ids)) else None
  {
    if order == [] {
      assert ids == {};
      SweptNothing(db);
    } else {
      var n := |order| - 1;
      var x, fewer := order[n], ids - {order[n]};
      LastListed(order, ids);
      OrderDoesNotMatter(db, order[..n], fewer);
      assert fewer + {x} == ids;
      if CanSweep(db, fewer) {
        PatchAfter(db, fewer, x);
      } else if CanSweep(db, ids) {
        SweepIsMonotone(db, fewer, ids);
      }
    }
  }

  lemma LastListed(order: seq<Id>, ids: set<Id>)
    requires Lists(order, ids) && order != []
    ensures order[|order| - 1] in ids && Lists(order[..|order| - 1], ids - {order[|order| - 1]})
  {
    var n := |order| - 1;
    assert order == order[..n] + [order[n]];
    assert order[n] in order;
    forall x | x in order[..n] ensures x != order[n] {
      var i :| 0 <= i < n && order[..n][i] == x;
    }
  }

  lemma {:induction false} SomeListing(ids: set<Id>) returns (order: seq<Id>)
    ensures Lists(order, ids)
  {
    order := [];
    if ids != {} {
      var x :| x in ids;
      var rest := SomeListing(ids - {x});
      order := rest + [x];
    }
  }

  /** Whatever the ledger counts, a sweep that goes through keeps bookings sound and lets no bucket drift further. */
  lemma {:induction false} SweepKeepsSound(db: Db, order: seq<Id>, after: Db)
    requires Sound(db) && SweptInOrder(db, order) == Some(after)
    ensures BookingSafety.Keeps(db, after)
  {
    if order == [] {
      BookingSafety.KeepsItself(db);
    } else {
      var before := SweptInOrder(db, order[..|order| - 1]).value;
      SweepKeepsSound(db, order[..|order| - 1], before);
      BookingSafety.PatchKeepsSound(before, order[|order| - 1], NO_SHOW, true, after);
      BookingSafety.KeepsTwice(db, before, after);
    }
  }

  // ----- On an exact ledger -----

  /** No night of an overdue booking is committed beyond its rooms. */
  ghost predicate NoneOvercommitted(db: Db, overdue: set<Id>) {
    forall x :: x in overdue ==> Covers(db.ledger, HeldBy(db.bookings, x), 0)
  }

  lemma HeldIsReleased(db: Db, x: Id)
    requires Valid(db) && x in db.bookings && db.bookings[x].status == Confirmed
    ensures ReleasedKeys(db.bookings[x].lines) == HeldBy(db.bookings, x)
    ensures Covers(db.ledger, HeldBy(db.bookings, x), 0) ==> Releasable(db.ledger, HeldBy(db.bookings, x))
  {
    BookingSafety.ReleasedIsHeld(db.bookings[x]);
    HeldIsBooked(db, x);
  }

  lemma SweptIsNotTighter(db: Db, ids: set<Id>, keys: set<Key>)
    requires Covers(db.ledger, keys, 0)
    ensures Covers(Swept(db, ids).ledger, keys, 0)
  {
  }

  lemma ValidOneMore(db: Db, ids: set<Id>, x: Id)
    requires CanSweep(db, ids) && Valid(Swept(db, ids)) && x in db.bookings && x !in ids && db.bookings[x].status == Confirmed
    requires Covers(db.ledger, HeldBy(db.bookings, x), 0)
    ensures CanSweep(db, ids + {x}) && Valid(Swept(db, ids + {x}))
  {
    var mid := Swept(db, ids);
    assert mid.bookings[x] == db.bookings[x];
    SweptIsNotTighter(db, ids, HeldBy(db.bookings, x));
    HeldIsReleased(mid, x);
    PatchAfter(db, ids, x);
    NoShowIsRelease(mid, x);
    BookingSafety.ReleaseKeepsSound(mid, x, NoShow);
    BookingSafety.KeepsMeansValid(mid, Swept(db, ids + {x}));
  }

  /** From a valid state nothing but an over-committed night can stop the sweep, and it leaves a valid state. */
  lemma {:induction false} ValidSweep(db: Db, ids: set<Id>)
    requires Valid(db) && AllConfirmed(db, ids) && NoneOvercommitted(db, ids)
    ensures CanSweep(db, ids) && Valid(Swept(db, ids))
  {
    if ids == {} {
      SweptNothing(db);
    } else {
      var x :| x in ids;
      ValidSweep(db, ids - {x});
      ValidOneMore(db, ids - {x}, x);
      assert ids - {x} + {x} == ids;
    }
  }

  lemma GiverHolds(db: Db, ids: set<Id>, x: Id, k: Key)
    requires Valid(db) && AllConfirmed(db, ids) && x in ids && k in HeldBy(db.bookings, x)
    ensures Demand(db.bookings, ids, k) > 0
  {
    HeldIsReleased(db, x);
    assert x in Givers(db.bookings, ids, k);
  }

  /** And it is stopped by every such night. */
  lemma SweepsExactlyWhenNoneOvercommitted(db: Db, ids: set<Id>)
    requires Valid(db) && AllConfirmed(db, ids)
    ensures CanSweep(db, ids) <==> NoneOvercommitted(db, ids)
    ensures CanSweep(db, ids) ==> Valid(Swept(db, ids))
  {
    if CanSweep(db, ids) {
      forall x, k | x in ids && k in HeldBy(db.bookings, x) ensures k in db.ledger && db.ledger[k].Available() >= 0 {
        GiverHolds(db, ids, x, k);
        assert Gives(db, ids, k);
      }
    }
    if NoneOvercommitted(db, ids) {
      ValidSweep(db, ids);
    }
  }

  // ----- The service -----

  /** Patches the bookings one by one, stopping at an inventory error with the session dirty. */
  method SweepAll(s: Session, overdue: set<Id>) returns (ok: bool, marked: nat)
    requires AllConfirmed(s.Tables(), overdue)
    modifies s
    ensures ok == CanSweep(old(s.Tables()), overdue)
    ensures ok ==> s.Tables() == Swept(old(s.Tables()), overdue) && marked == |overdue|
  {
    ghost var db := s.Tables();
    var left := overdue;
    marked := 0;
    SweepBegins(db, overdue);
    while left != {}
      invariant Sweeping(db, s.Tables(), overdue, left) && marked + |left| == |overdue|
      decreases left
    {
      var x :| x in left;
      SweepGoesOn(db, s.Tables(), overdue, left, x);
      ok := BookingService.PatchBooking(s, x, NO_SHOW, true);
      if !ok {
        return;
      }
      marked, left := marked + 1, left - {x};
    }
    ok := true;
    assert overdue - left == overdue;
  }

  /** The sweep so far: everything but `left` has been dealt with. */
  ghost predicate Sweeping(db: Db, now: Db, overdue: set<Id>, left: set<Id>) {
    left <= overdue && CanSweep(db, overdue - left) && now == Swept(db, overdue - left)
  }

  lemma SweepBegins(db: Db, overdue: set<Id>)
    ensures Sweeping(db, db, overdue, overdue)
  {
    assert overdue - overdue == {};
    SweptNothing(db);
  }

  lemma SweepGoesOn(db: Db, now: Db, overdue: set<Id>, left: set<Id>, x: Id)
    requires Sweeping(db, now, overdue, left) && x in left && AllConfirmed(db, overdue)
    ensures
      match PatchBooking(now, x, NO_SHOW, true)
      case Some(after) => Sweeping(db, after, overdue, left - {x})
      case None => !CanSweep(db, overdue)
  {
    PatchAfter(db, overdue - left, x);
    assert overdue - left + {x} == overdue - (left - {x});
    if CanSweep(db, overdue) {
      SweepIsMonotone(db, overdue - (left - {x}), overdue);
    }
  }

  /**
   The audit succeeds exactly when every bucket of the overdue bookings can give back what they hold, and then turns
   exactly these bookings into no-shows and frees exactly their room-nights; otherwise the error undoes the whole audit.
   */
  method AutoNoShow(s: Session, property: Id, today: Date) returns (ok: bool, marked: nat)
    modifies s
    ensures ok == CanSweep(old(s.Tables()), Overdue(old(s.Tables()), property, today))
    ensures s.Tables() == if ok then Swept(old(s.Tables()), Overdue(old(s.Tables()), property, today)) else old(s.Tables())
    ensures ok ==> marked == |Overdue(old(s.Tables()), property, today)|
  {
    var db := s.Tables();
    ok, marked := SweepAll(s, Overdue(db, property, today));
    if !ok {
      s.Rollback(db);
    }
  }

  /** A second audit on the same day finds nothing to mark. */
  lemma SecondSweepIsIdle(db: Db, property: Id, today: Date)
    ensures Overdue(Swept(db, Overdue(db, property, today)), property, today) == {}
  {
  }
}
