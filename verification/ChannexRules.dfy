/**
 What one OTA booking revision does to the tables. The error handlers of the ingest flush instead
 of rolling back, so a revision that fails can leave ledger moves behind.
 */
module ChannexRules {
  import opened Base
  import opened BookingStatus
  import opened Inventory
  import opened StayDates
  import opened Stays
  import opened AvailabilityLock
  import opened BookingRules
  import opened BookingSafety
  import opened NightlySplit

  datatype Kind = New | Modified | Cancellation

  /** A revision whose room, rate and dates have been resolved. */
  datatype Request = Request(
    kind: Kind,
    property: Id,
    external: Id,
    roomType: Id,
    ratePlan: Id,
    checkIn: Date,
    checkOut: Date,
    amount: Cents)
  {
    function Keys(): set<Key> { StayKeys(roomType, checkIn, checkOut) }

    function Prices(): seq<Cents>
      requires checkIn < checkOut
    {
      Split(amount, checkOut - checkIn)
    }
  }

  /** How processing ended: `Raised` escapes the ingest and rolls the transaction back. */
  datatype Outcome = Done | Failed | Raised

  /** The moves a revision left: ledger buckets released and booked, and a booking written. */
  datatype Applied = Applied(outcome: Outcome, released: set<Key>, booked: set<Key>, put: Option<(Id, Booking)>)

  const UNTOUCHED_DONE := Applied(Done, {}, {}, None)
  const UNTOUCHED_FAILED := Applied(Failed, {}, {}, None)
  const ROLLED_BACK := Applied(Raised, {}, {}, None)

  function Apply(db: Db, a: Applied): Db {
    db.(ledger := Shift(db.ledger, a.released, a.booked),
        bookings := if a.put.Some? then db.bookings[a.put.value.0 := a.put.value.1] else db.bookings)
  }

  /** The booking a revision refers to. */
  ghost predicate FoundBy(db: Db, external: Id, found: Option<Id>) {
    match found
    case None => forall x :: x in db.bookings ==> db.bookings[x].external != Some(external)
    case Some(x) => x in db.bookings && db.bookings[x].external == Some(external)
  }

  /** Giving back `keys` fails on a row that has nothing booked, after moving the rows before it. */
  ghost predicate StuckRelease(db: Db, keys: set<Key>, a: Applied) {
    StoppedEarly(db.ledger, keys, a.released) && a == Applied(Failed, a.released, {}, None)
  }

  ghost predicate Cancels(db: Db, id: Id, a: Applied)
    requires id in db.bookings
  {
    var b := db.bookings[id];
    var keys := ReleasedKeys(b.lines);
    if b.status == Cancelled then a == UNTOUCHED_DONE
    else if !Covers(db.ledger, keys, 0) then a == UNTOUCHED_FAILED
    else if !Releasable(db.ledger, keys) then StuckRelease(db, keys, a)
    else a == Applied(Done, keys, {}, Some((id, b.(status := Cancelled))))
  }

  /** The booking rewritten by a modification. */
  function Rewritten(b: Booking, r: Request): Booking
    requires r.checkIn < r.checkOut
  {
    b.(ratePlan := Some(r.ratePlan), total := r.amount, lines := StayLines(r.roomType, r.checkIn, r.Prices(), None))
  }

  ghost predicate Modifies(db: Db, id: Id, r: Request, a: Applied)
    requires id in db.bookings && r.checkIn < r.checkOut
  {
    var b := db.bookings[id];
    var keys := KeysOf(b.lines);
    if !OneCategory(b.lines) || !Covers(db.ledger, keys, 0) then a == UNTOUCHED_FAILED
    else if !Releasable(db.ledger, keys) then StuckRelease(db, keys, a)
    else if !Covers(Shift(db.ledger, keys, {}), r.Keys(), 1) then a == Applied(Failed, keys, {}, None)
    else a == Applied(Done, keys, r.Keys(), Some((id, Rewritten(b, r))))
  }

  ghost predicate Creates(db: Db, r: Request, guestOk: bool, id: Id, a: Applied)
    requires r.checkIn < r.checkOut
  {
    if !Covers(db.ledger, r.Keys(), 1) then a == UNTOUCHED_FAILED
    else if !guestOk then a == Applied(Failed, {}, r.Keys(), None)
    else exists room ::
      && FirstFree(db, r.roomType, r.property, StayNights(r.checkIn, r.checkOut), id, room)
      && a == if room.Some? && !db.roomTypes[r.roomType].live then ROLLED_BACK
              else Applied(Done, {}, r.Keys(), Some((id, Imported(r, room))))
  }

  /** The booking a new revision creates. */
  function Imported(r: Request, room: Option<Id>): Booking
    requires r.checkIn < r.checkOut
  {
    Booking(Confirmed, r.property, Some(r.ratePlan), Some(r.external), r.amount,
            StayLines(r.roomType, r.checkIn, r.Prices(), room))
  }

  /** `guestOk` says that the guest row could be found or made; `id` is the key a new booking would get. */
  ghost predicate Effect(db: Db, r: Request, found: Option<Id>, guestOk: bool, id: Id, a: Applied)
    requires FoundBy(db, r.external, found) && r.checkIn < r.checkOut
  {
    match r.kind
    case Cancellation => if found.None? then a == UNTOUCHED_FAILED else Cancels(db, found.value, a)
    case Modified => if found.None? then a == UNTOUCHED_FAILED else Modifies(db, found.value, r, a)
    case New => if found.Some? then a == UNTOUCHED_DONE else Creates(db, r, guestOk, id, a)
  }

  lemma RaisedMovesNothing(db: Db, r: Request, found: Option<Id>, guestOk: bool, id: Id, a: Applied)
    requires FoundBy(db, r.external, found) && r.checkIn < r.checkOut && Effect(db, r, found, guestOk, id, a)
    ensures a.outcome == Raised ==> Apply(db, a) == db
  {
    ShiftNothing(db.ledger);
  }

  // ----- What a revision leaves in the ledger -----

  /**
   How far a revision sets bucket k off: not at all when it stored a booking in place of an occupying one or of none,
   and by every counter it moved otherwise.
   */
  function Left(db: Db, a: Applied, k: Key): int {
    if a.put.Some? && (a.put.value.0 in db.bookings ==> db.bookings[a.put.value.0].Active()) then 0
    else In(k, a.booked) - In(k, a.released)
  }

  /**
   The revisions that leave something: a new booking whose guest fails after the nights were counted; a cancellation
   that starts to release and cannot finish, or of a no-show; and a modification that starts to release and cannot
   finish or cannot take the new nights, or of an inactive booking onto other nights.
   */
  predicate Drifts(db: Db, r: Request, found: Option<Id>, guestOk: bool)
    requires r.checkIn < r.checkOut && (found.Some? ==> found.value in db.bookings)
  {
    match r.kind
    case New => found.None? && Covers(db.ledger, r.Keys(), 1) && !guestOk
    case Cancellation =>
      found.Some? && db.bookings[found.value].status != Cancelled
      && (var b := db.bookings[found.value];
          Covers(db.ledger, KeysOf(b.lines), 0) && !(b.Active() && Releasable(db.ledger, KeysOf(b.lines))))
    case Modified =>
      found.Some?
      && (var b := db.bookings[found.value];
          Covers(db.ledger, KeysOf(b.lines), 0)
          && !(Releasable(db.ledger, KeysOf(b.lines)) && Covers(Shift(db.ledger, KeysOf(b.lines), {}), r.Keys(), 1)
               && (b.Active() || r.Keys() == KeysOf(b.lines))))
  }

  lemma RewrittenShape(b: Booking, r: Request)
    requires r.checkIn < r.checkOut
    ensures WellFormed(Rewritten(b, r)) && KeysOf(Rewritten(b, r).lines) == r.Keys() && Rewritten(b, r).lines[0].room.None?
  {
    StayLinesShape(r.roomType, r.checkIn, r.Prices(), None);
    SplitSumsToTotal(r.amount, r.checkOut - r.checkIn);
  }

  lemma ImportedShape(r: Request, room: Option<Id>)
    requires r.checkIn < r.checkOut
    ensures WellFormed(Imported(r, room)) && Held(Imported(r, room)) == r.Keys()
    ensures Imported(r, room).lines[0].room == room
    ensures NightsOf(Imported(r, room).lines) <= StayNights(r.checkIn, r.checkOut)
  {
    var b := Imported(r, room);
    StayLinesShape(r.roomType, r.checkIn, r.Prices(), room);
    SplitSumsToTotal(r.amount, r.checkOut - r.checkIn);
    forall i | 0 <= i < |b.lines| ensures b.lines[i].night in Nights(r.checkIn, r.checkOut) {
      assert b.lines[i].night == Nights(r.checkIn, r.checkOut)[i];
    }
  }

  /** What holds after a revision, whatever the ledger before it: sound bookings, and each bucket off by what it left. */
  ghost predicate LeavesJust(db: Db, a: Applied) {
    Sound(Apply(db, a)) && forall k :: Drift(Apply(db, a), k) == Drift(db, k) + Left(db, a, k)
  }

  /** Counters moved without writing a booking. */
  lemma BareMoveLeaves(db: Db, a: Applied)
    requires Sound(db) && a.put.None? && a.released <= db.ledger.Keys && a.booked <= db.ledger.Keys
    ensures LeavesJust(db, a)
  {
  }

  lemma BareMoveLeavesSomething(db: Db, a: Applied)
    requires a.put.None? && (a.released == {} || a.booked == {})
    ensures (forall k :: Left(db, a, k) == 0) <==> a.released == {} && a.booked == {}
  {
    if a.released + a.booked != {} {
      var k :| k in a.released + a.booked;
      assert Left(db, a, k) != 0;
    }
  }

  /** A booking written while the counters moved. */
  lemma PutLeaves(db: Db, a: Applied)
    requires Sound(db) && a.put.Some? && a.released <= db.ledger.Keys && a.booked <= db.ledger.Keys
    requires
      var id, b := a.put.value.0, a.put.value.1;
      && WellFormed(b) && ExternalUnused(db, id, b.external) && Undisputed(db.bookings, id, b)
      && if id in db.bookings ==> db.bookings[id].Active()
         then forall k :: In(k, a.booked) - In(k, a.released) == In(k, Held(b)) - In(k, HeldBy(db.bookings, id))
         else !b.Active()
    ensures LeavesJust(db, a)
  {
    var id, b := a.put.value.0, a.put.value.1;
    PutKeepsSound(db, id, b, Shift(db.ledger, a.released, a.booked));
    forall k ensures Drift(Apply(db, a), k) == Drift(db, k) + Left(db, a, k) {
      PutMovesDrift(db, id, b, a.released, a.booked, k);
    }
  }

  lemma CancellationDrift(db: Db, r: Request, found: Option<Id>, guestOk: bool, id: Id, a: Applied)
    requires Sound(db) && FoundBy(db, r.external, found) && r.checkIn < r.checkOut && r.kind == Cancellation
    requires Effect(db, r, found, guestOk, id, a)
    ensures LeavesJust(db, a) && ((forall k :: Left(db, a, k) == 0) <==> !Drifts(db, r, found, guestOk))
  {
    if a.put.None? {
      if found.Some? { ReleasedIsHeld(db.bookings[found.value]); }
      BareMoveLeaves(db, a);
      BareMoveLeavesSomething(db, a);
    } else {
      CancelledLeaves(db, found.value, a);
    }
  }

  lemma CancelledLeaves(db: Db, x: Id, a: Applied)
    requires Sound(db) && x in db.bookings && db.bookings[x].status != Cancelled && Releasable(db.ledger, KeysOf(db.bookings[x].lines))
    requires a == Applied(Done, KeysOf(db.bookings[x].lines), {}, Some((x, db.bookings[x].(status := Cancelled))))
    ensures LeavesJust(db, a) && ((forall k :: Left(db, a, k) == 0) <==> db.bookings[x].Active())
  {
    var b := db.bookings[x];
    PutLeaves(db, a);
    var k := b.lines[0].Bucket();
    assert k in KeysOf(b.lines);
    assert Left(db, a, k) == if b.Active() then 0 else -1;
  }

  lemma DifferSomewhere(one: set<Key>, two: set<Key>) returns (k: Key)
    requires one != two
    ensures k in one <==> k !in two
  {
    assert !(forall x :: x in one <==> x in two);
    k :| (k in one) != (k in two);
  }

  lemma ModifiedLeaves(db: Db, x: Id, r: Request, a: Applied)
    requires Sound(db) && x in db.bookings && r.checkIn < r.checkOut
    requires
      var b := db.bookings[x];
      && a == Applied(Done, KeysOf(b.lines), r.Keys(), Some((x, Rewritten(b, r))))
      && Releasable(db.ledger, KeysOf(b.lines)) && Covers(Shift(db.ledger, KeysOf(b.lines), {}), r.Keys(), 1)
    ensures LeavesJust(db, a)
    ensures (forall k :: Left(db, a, k) == 0) <==> db.bookings[x].Active() || r.Keys() == KeysOf(db.bookings[x].lines)
  {
    var b := db.bookings[x];
    RewrittenShape(b, r);
    PutLeaves(db, a);
    if !b.Active() && r.Keys() != KeysOf(b.lines) {
      var k := DifferSomewhere(KeysOf(b.lines), r.Keys());
      assert Left(db, a, k) != 0;
    }
  }

  lemma ModificationDrift(db: Db, r: Request, found: Option<Id>, guestOk: bool, id: Id, a: Applied)
    requires Sound(db) && FoundBy(db, r.external, found) && r.checkIn < r.checkOut && r.kind == Modified
    requires Effect(db, r, found, guestOk, id, a)
    ensures LeavesJust(db, a) && ((forall k :: Left(db, a, k) == 0) <==> !Drifts(db, r, found, guestOk))
  {
    if a.put.None? {
      if found.Some? {
        ReleasedIsHeld(db.bookings[found.value]);
        assert db.bookings[found.value].lines[0].Bucket() in KeysOf(db.bookings[found.value].lines);
      }
      BareMoveLeaves(db, a);
      BareMoveLeavesSomething(db, a);
    } else {
      ModifiedLeaves(db, found.value, r, a);
    }
  }

  lemma ImportedLeaves(db: Db, r: Request, id: Id, room: Option<Id>, a: Applied)
    requires Sound(db) && FoundBy(db, r.external, None) && r.checkIn < r.checkOut && id !in db.bookings
    requires Covers(db.ledger, r.Keys(), 1) && a == Applied(Done, {}, r.Keys(), Some((id, Imported(r, room))))
    requires FirstFree(db, r.roomType, r.property, StayNights(r.checkIn, r.checkOut), id, room)
    ensures LeavesJust(db, a)
  {
    ImportedShape(r, room);
    if room.Some? {
      FewerNightsStayFree(db.bookings, room.value, StayNights(r.checkIn, r.checkOut), NightsOf(Imported(r, room).lines), id);
    }
    PutLeaves(db, a);
  }

  lemma NewBookingDrift(db: Db, r: Request, found: Option<Id>, guestOk: bool, id: Id, a: Applied)
    requires Sound(db) && FoundBy(db, r.external, found) && r.checkIn < r.checkOut && r.kind == New && id !in db.bookings
    requires Effect(db, r, found, guestOk, id, a)
    ensures LeavesJust(db, a) && ((forall k :: Left(db, a, k) == 0) <==> !Drifts(db, r, found, guestOk))
  {
    if a.put.None? {
      assert Key(r.roomType, r.checkIn) in r.Keys();
      BareMoveLeaves(db, a);
      BareMoveLeavesSomething(db, a);
    } else {
      var room :| FirstFree(db, r.roomType, r.property, StayNights(r.checkIn, r.checkOut), id, room)
        && a == Applied(Done, {}, r.Keys(), Some((id, Imported(r, room))));
      ImportedLeaves(db, r, id, room, a);
    }
  }

  /**
   On any ledger, exact or not, a revision keeps the bookings sound and sets each bucket off by what it left, and it
   leaves nothing if and only if it is not one of the drifting ones.
   */
  lemma RevisionMovesDrift(db: Db, r: Request, found: Option<Id>, guestOk: bool, id: Id, a: Applied)
    requires Sound(db) && FoundBy(db, r.external, found) && r.checkIn < r.checkOut && id !in db.bookings
    requires Effect(db, r, found, guestOk, id, a)
    ensures Sound(Apply(db, a)) && forall k :: Drift(Apply(db, a), k) == Drift(db, k) + Left(db, a, k)
    ensures (forall k :: Left(db, a, k) == 0) <==> !Drifts(db, r, found, guestOk)
  {
    match r.kind
    case New => NewBookingDrift(db, r, found, guestOk, id, a);
    case Modified => ModificationDrift(db, r, found, guestOk, id, a);
    case Cancellation => CancellationDrift(db, r, found, guestOk, id, a);
  }

  lemma SameDriftExactlyWhenNothingLeft(before: Db, after: Db, a: Applied)
    requires forall k :: Drift(after, k) == Drift(before, k) + Left(before, a, k)
    ensures SameDrift(before, after) <==> forall k :: Left(before, a, k) == 0
  {
    if SameDrift(before, after) {
      forall k ensures Left(before, a, k) == 0 {
        assert Drift(after, k) == Drift(before, k);
      }
    }
  }

  /** So it lets no bucket drift any further if and only if it is not one of the drifting ones. */
  lemma RevisionKeepsDriftExactlyWhen(db: Db, r: Request, found: Option<Id>, guestOk: bool, id: Id, a: Applied)
    requires Sound(db) && FoundBy(db, r.external, found) && r.checkIn < r.checkOut && id !in db.bookings
    requires Effect(db, r, found, guestOk, id, a)
    ensures Sound(Apply(db, a)) && (SameDrift(db, Apply(db, a)) <==> !Drifts(db, r, found, guestOk))
  {
    RevisionMovesDrift(db, r, found, guestOk, id, a);
    SameDriftExactlyWhenNothingLeft(db, Apply(db, a), a);
  }

  /** And from a valid state it leaves the ledger exact under the same condition. */
  lemma RevisionKeepsAgreementExactlyWhen(db: Db, r: Request, found: Option<Id>, guestOk: bool, id: Id, a: Applied)
    requires Valid(db) && FoundBy(db, r.external, found) && r.checkIn < r.checkOut && id !in db.bookings
    requires Effect(db, r, found, guestOk, id, a)
    ensures Agreement(Apply(db, a)) <==> !Drifts(db, r, found, guestOk)
    ensures Agreement(Apply(db, a)) ==> Valid(Apply(db, a))
  {
    RevisionKeepsDriftExactlyWhen(db, r, found, guestOk, id, a);
    ExactStaysExactly(db, Apply(db, a));
  }

  /** A modification whose new nights do not fit loses exactly one room on every old night, for good. */
  lemma FailedModificationDrift(db: Db, r: Request, found: Id, guestOk: bool, id: Id, a: Applied, k: Key)
    requires Sound(db) && FoundBy(db, r.external, Some(found)) && r.checkIn < r.checkOut && r.kind == Modified
    requires Releasable(db.ledger, KeysOf(db.bookings[found].lines))
    requires !Covers(Shift(db.ledger, KeysOf(db.bookings[found].lines), {}), r.Keys(), 1)
    requires Effect(db, r, Some(found), guestOk, id, a)
    ensures a.outcome == Failed && Apply(db, a).bookings == db.bookings
    ensures Drift(Apply(db, a), k) == Drift(db, k) - In(k, KeysOf(db.bookings[found].lines))
  {
    ReleasedIsHeld(db.bookings[found]);
    BareMoveLeaves(db, a);
  }

  /**
   Property 2 with category 1, its one room 4 and rate plan 3; one seeded night, today's, taken by confirmed
   booking 7 (external id 9), which is in no room yet.
   */
  function OneBooking(): Db {
    Db(map[Key(1, 100) := Row(1, 1, 0)], map[7 := Booking(Confirmed, 2, Some(3), Some(9), 5000, [Line(1, 100, None, 5000)])],
       map[1 := RoomType(2, true)], map[3 := 2], map[RateKey(1, 3, 100) := Rate(5000, false, None, None)], map[4 := Room(1, 0, true, InService)], 100)
  }

  lemma NothingBookedIsValid(db: Db)
    requires db.bookings == map[] && forall k :: k in db.ledger ==> db.ledger[k].booked == 0
    ensures Valid(db)
  {
    forall k ensures Count(db.bookings, k) == 0 {
      assert ActiveLines(db.bookings, k) == {};
    }
  }

  lemma OneNight(b: Booking)
    requires b == OneBooking().bookings[7]
    ensures WellFormed(b) && KeysOf(b.lines) == {Key(1, 100)}
  {
    assert b.lines[0].Bucket() == Key(1, 100);
    assert Prices(b.lines) == [5000] && [5000][..0] == [];
  }

  /** The same property before anyone booked. */
  function NoBooking(): Db {
    OneBooking().(ledger := map[Key(1, 100) := Row(1, 0, 0)], bookings := map[])
  }

  lemma OneBookingIsPut()
    ensures
      OneBooking() == NoBooking().(ledger := Shift(NoBooking().ledger, {}, {Key(1, 100)}), bookings := map[7 := OneBooking().bookings[7]])
  {
    assert Shift(NoBooking().ledger, {}, {Key(1, 100)}) == OneBooking().ledger;
  }

  lemma OneBookingIsValid()
    ensures Valid(OneBooking())
  {
    var b := OneBooking().bookings[7];
    NothingBookedIsValid(NoBooking());
    OneNight(b);
    PutKeeps(NoBooking(), 7, b, {}, {Key(1, 100)});
    assert NoBooking().bookings[7 := b] == map[7 := b];
    OneBookingIsPut();
    KeepsMeansValid(NoBooking(), OneBooking());
  }

  /** The drift is reachable: moving that booking to a night without a ledger row fails and loses its room. */
  lemma DriftIsReachable(guestOk: bool) returns (r: Request, a: Applied)
    ensures Valid(OneBooking()) && FoundBy(OneBooking(), r.external, Some(7)) && r.checkIn < r.checkOut
    ensures Effect(OneBooking(), r, Some(7), guestOk, 8, a) && a == Applied(Failed, {Key(1, 100)}, {}, None)
    ensures !Agreement(Apply(OneBooking(), a))
  {
    OneBookingIsValid();
    r := Request(Modified, 2, 9, 1, 3, 200, 201, 5000);
    a := Applied(Failed, {Key(1, 100)}, {}, None);
    var keys := KeysOf(OneBooking().bookings[7].lines);
    assert keys == {Key(1, 100)} by {
      assert OneBooking().bookings[7].lines[0].Bucket() == Key(1, 100);
    }
    assert Key(1, 200) in r.Keys();
    RevisionKeepsAgreementExactlyWhen(OneBooking(), r, Some(7), guestOk, 8, a);
  }
}
