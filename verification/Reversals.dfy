/** What a date change does bucket by bucket, and what one transaction undoes of another. */
module Reversals {
  import opened Base
  import opened Inventory
  import opened StayDates
  import opened Stays
  import opened BookingRules
  import opened BookingSafety

  lemma StayOfLines(roomType: Id, checkIn: Date, prices: seq<Cents>, room: Option<Id>)
    requires prices != []
    ensures NightSeq(StayLines(roomType, checkIn, prices, room)) == Nights(checkIn, checkIn + |prices|)
    ensures Earliest(NightSeq(StayLines(roomType, checkIn, prices, room))) == checkIn
    ensures Latest(NightSeq(StayLines(roomType, checkIn, prices, room))) + 1 == checkIn + |prices|
  {
    assert NightSeq(StayLines(roomType, checkIn, prices, room)) == Nights(checkIn, checkIn + |prices|);
    BoundsInvertNights(checkIn, checkIn + |prices|);
  }

  /** A booking's buckets are those between the bounds read back from its lines. */
  lemma HeldBetweenBounds(b: Booking)
    requires WellFormed(b)
    ensures KeysOf(b.lines) == StayKeys(b.lines[0].roomType, Earliest(NightSeq(b.lines)), Latest(NightSeq(b.lines)) + 1)
    ensures Earliest(NightSeq(b.lines)) <= Latest(NightSeq(b.lines))
  {
    var first, n := b.lines[0].night, |b.lines|;
    assert NightSeq(b.lines) == Nights(first, first + n);
    BoundsInvertNights(first, first + n);
    forall d | first <= d < first + n ensures Key(b.lines[0].roomType, d) in KeysOf(b.lines) {
      assert b.lines[d - first].Bucket() == Key(b.lines[0].roomType, d);
    }
  }

  /** The room of a well-formed booking is the one _unified_room_id_from_lines finds. */
  lemma UnifiedRoomOfStay(lines: seq<Line>)
    requires OneStay(lines)
    ensures UnifiedRoom(lines) == lines[0].room
  {
    if lines[0].room.Some? {
      assert AssignedRooms(lines) == {lines[0].room.value};
    } else {
      assert AssignedRooms(lines) == {};
    }
  }

  /**
   Booking id moved to a new stay: each counter moves by what the two stays differ on, every new
   night stays within capacity, the lines are exactly the new nights in `room` or in none, and no
   other booking is touched.
   */
  ghost predicate MovedTo(db: Db, after: Db, id: Id, checkIn: Date, checkOut: Date, room: Option<Id>)
    requires id in db.bookings && id in after.bookings && db.bookings[id].lines != []
  {
    var b := db.bookings[id];
    && CountersMoved(db.ledger, after.ledger, Held(b), StayKeys(b.lines[0].roomType, checkIn, checkOut))
    && IsStay(after.bookings[id], b.lines[0].roomType, checkIn, checkOut, room)
    && after.bookings - {id} == db.bookings - {id}
  }

  ghost predicate CountersMoved(ledger: Ledger, after: Ledger, held: set<Key>, stay: set<Key>) {
    && after == (map k | k in ledger :: ledger[k].(booked := ledger[k].booked + In(k, stay) - In(k, held)))
    && forall k :: k in stay ==> k in after && after[k].Available() >= 0
  }

  ghost predicate IsStay(b: Booking, roomType: Id, checkIn: Date, checkOut: Date, room: Option<Id>) {
    && checkIn < checkOut && NightSeq(b.lines) == Nights(checkIn, checkOut) && Held(b) == StayKeys(roomType, checkIn, checkOut)
    && OneStay(b.lines) && b.lines[0].room == room
  }

  lemma ShiftMovesExactly(ledger: Ledger, held: set<Key>, stay: set<Key>)
    requires Covers(Shift(ledger, held, {}), stay, 1)
    ensures CountersMoved(ledger, Shift(ledger, held, stay), held, stay)
  {
    forall k | k in stay ensures Shift(ledger, held, stay)[k].Available() >= 0 {
      assert Shift(ledger, held, {})[k].Available() >= 1;
    }
  }

  lemma MovedIsStay(db: Db, id: Id, checkIn: Date, checkOut: Date)
    requires id in db.bookings && db.bookings[id].Active() && checkIn < checkOut && CanMove(db, id, checkIn, checkOut)
    ensures IsStay(Moved(db, id, checkIn, checkOut).bookings[id], db.bookings[id].lines[0].roomType, checkIn, checkOut, None)
  {
    var b := db.bookings[id];
    var prices := NightlyRates(db, b.lines[0].roomType, b.ratePlan.value, checkIn, checkOut);
    StayLinesShape(b.lines[0].roomType, checkIn, prices, None);
    StayOfLines(b.lines[0].roomType, checkIn, prices, None);
  }

  lemma MoveIsExact(db: Db, id: Id, checkIn: Date, checkOut: Date)
    requires id in db.bookings && db.bookings[id].Active()
    requires checkIn < checkOut && CanMove(db, id, checkIn, checkOut)
    ensures MovedTo(db, Moved(db, id, checkIn, checkOut), id, checkIn, checkOut, None)
  {
    var b := db.bookings[id];
    MovedIsStay(db, id, checkIn, checkOut);
    ShiftMovesExactly(db.ledger, KeysOf(b.lines), StayKeys(b.lines[0].roomType, checkIn, checkOut));
    assert Moved(db, id, checkIn, checkOut).bookings - {id} == db.bookings - {id};
  }

  lemma AssignAfterMove(db: Db, mid: Db, id: Id, checkIn: Date, checkOut: Date, room: Option<Id>)
    requires id in db.bookings && id in mid.bookings && db.bookings[id].lines != [] && checkIn < checkOut
    requires MovedTo(db, mid, id, checkIn, checkOut, None) && AssignRoom(mid, id, room).Some?
    ensures MovedTo(db, AssignRoom(mid, id, room).value, id, checkIn, checkOut, room)
  {
    var lines := mid.bookings[id].lines;
    WithRoomShape(lines, room);
    assert NightSeq(WithRoom(lines, room)) == NightSeq(lines);
    assert AssignRoom(mid, id, room).value.bookings - {id} == mid.bookings - {id};
  }

  lemma RebookIsExact(db: Db, id: Id, checkIn: Date, checkOut: Date, room: Option<Id>)
    requires id in db.bookings && WellFormed(db.bookings[id]) && db.bookings[id].Active()
    requires checkIn < checkOut && Rebooked(db, id, checkIn, checkOut, room).Some?
    ensures
      var after := Rebooked(db, id, checkIn, checkOut, room).value;
      id in after.bookings && MovedTo(db, after, id, checkIn, checkOut, room)
  {
    MoveIsExact(db, id, checkIn, checkOut);
    if room.Some? {
      AssignAfterMove(db, Moved(db, id, checkIn, checkOut), id, checkIn, checkOut, room);
    }
  }

  /** What a date change to these bounds and this room must leave: everything as it was for the same nights, the move otherwise. */
  ghost predicate DatesChanged(db: Db, after: Db, id: Id, checkIn: Date, checkOut: Date, room: Option<Id>)
    requires id in db.bookings && db.bookings[id].lines != []
  {
    if StayKeys(db.bookings[id].lines[0].roomType, checkIn, checkOut) == Held(db.bookings[id]) then after == db
    else id in after.bookings && MovedTo(db, after, id, checkIn, checkOut, room)
  }

  lemma RebookChangesDates(db: Db, id: Id, checkIn: Date, checkOut: Date, room: Option<Id>, after: Db)
    requires id in db.bookings && WellFormed(db.bookings[id]) && db.bookings[id].Active()
    requires checkIn < checkOut && Rebooked(db, id, checkIn, checkOut, room) == Some(after)
    requires
      var lines := db.bookings[id].lines;
      checkIn != Earliest(NightSeq(lines)) || checkOut != Latest(NightSeq(lines)) + 1
    ensures DatesChanged(db, after, id, checkIn, checkOut, room)
  {
    var lines := db.bookings[id].lines;
    HeldBetweenBounds(db.bookings[id]);
    StaysDiffer(lines[0].roomType, Earliest(NightSeq(lines)), Latest(NightSeq(lines)) + 1, checkIn, checkOut);
    RebookIsExact(db, id, checkIn, checkOut, room);
  }

  lemma ChangeFromIsExact(db: Db, id: Id, oldIn: Date, oldOut: Date, newIn: Option<Date>, newOut: Option<Date>, room: Option<Id>, after: Db)
    requires id in db.bookings && WellFormed(db.bookings[id]) && db.bookings[id].Active()
    requires oldIn == Earliest(NightSeq(db.bookings[id].lines)) && oldOut == Latest(NightSeq(db.bookings[id].lines)) + 1
    requires ChangeFrom(db, id, oldIn, oldOut, newIn, newOut, room) == Some(after)
    ensures DatesChanged(db, after, id, Or(newIn, oldIn), Or(newOut, oldOut), room)
  {
    var checkIn, checkOut := Or(newIn, oldIn), Or(newOut, oldOut);
    if checkIn != oldIn || checkOut != oldOut {
      RebookChangesDates(db, id, checkIn, checkOut, room, after);
    } else {
      HeldBetweenBounds(db.bookings[id]);
    }
  }

  /** A date change that goes through is exact, and keeps the room when asked to. */
  lemma DateChangeMovesExactly(db: Db, id: Id, newIn: Option<Date>, newOut: Option<Date>, keepRoom: bool, after: Db)
    requires id in db.bookings && WellFormed(db.bookings[id]) && db.bookings[id].Active()
    requires ChangeDates(db, id, newIn, newOut, keepRoom) == Some(after)
    ensures
      var lines := db.bookings[id].lines;
      var checkIn, checkOut := Or(newIn, Earliest(NightSeq(lines))), Or(newOut, Latest(NightSeq(lines)) + 1);
      DatesChanged(db, after, id, checkIn, checkOut, if keepRoom then lines[0].room else None)
  {
    var lines := db.bookings[id].lines;
    UnifiedRoomOfStay(lines);
    ChangeFromIsExact(db, id, Earliest(NightSeq(lines)), Latest(NightSeq(lines)) + 1, newIn, newOut,
                      if keepRoom then UnifiedRoom(lines) else None, after);
  }

  lemma StaysDiffer(roomType: Id, in1: Date, out1: Date, in2: Date, out2: Date)
    requires in1 < out1 && in2 < out2 && (in1 != in2 || out1 != out2)
    ensures StayKeys(roomType, in1, out1) != StayKeys(roomType, in2, out2)
  {
    assert Key(roomType, in1) in StayKeys(roomType, in1, out1) && Key(roomType, out1 - 1) in StayKeys(roomType, in1, out1);
    assert Key(roomType, in2) in StayKeys(roomType, in2, out2) && Key(roomType, out2 - 1) in StayKeys(roomType, in2, out2);
  }

  /** Once nights are booked, they can be given back, the old ones then fit again, and every row is as it was. */
  lemma ShiftBack(ledger: Ledger, one: set<Key>, two: set<Key>)
    requires Releasable(ledger, one) && Covers(Shift(ledger, one, {}), two, 1)
    requires forall k :: k in ledger ==> ledger[k].booked >= 0
    ensures Releasable(Shift(ledger, one, two), two)
    ensures Covers(Shift(Shift(ledger, one, two), two, {}), one, 1)
    ensures Shift(Shift(ledger, one, two), two, one) == ledger
  {
    forall k | k in two ensures Shift(ledger, one, two)[k].Available() >= 0 && Shift(ledger, one, two)[k].booked >= 1 {
      assert Shift(ledger, one, {})[k].Available() >= 1;
    }
  }

  /** What there is to know about a moved booking that may be moved again. */
  lemma MovedShape(db: Db, id: Id, checkIn: Date, checkOut: Date)
    requires id in db.bookings && checkIn < checkOut && CanMove(db, id, checkIn, checkOut)
    ensures
      var b, moved := db.bookings[id], Moved(db, id, checkIn, checkOut);
      var stay := StayKeys(b.lines[0].roomType, checkIn, checkOut);
      && id in moved.bookings && moved.bookings[id].status == b.status && moved.bookings[id].ratePlan == b.ratePlan
      && OneStay(moved.bookings[id].lines) && moved.bookings[id].lines[0].roomType == b.lines[0].roomType
      && KeysOf(moved.bookings[id].lines) == stay
      && moved == db.(ledger := Shift(db.ledger, KeysOf(b.lines), stay), bookings := moved.bookings)
  {
    var b := db.bookings[id];
    StayLinesShape(b.lines[0].roomType, checkIn, NightlyRates(db, b.lines[0].roomType, b.ratePlan.value, checkIn, checkOut), None);
  }

  lemma UndoMove(db: Db, id: Id, checkIn: Date, checkOut: Date, oldIn: Date, oldOut: Date)
    requires Agreement(db) && id in db.bookings && checkIn < checkOut && oldIn < oldOut && CanMove(db, id, checkIn, checkOut)
    requires KeysOf(db.bookings[id].lines) == StayKeys(db.bookings[id].lines[0].roomType, oldIn, oldOut)
    requires HasRates(db, db.bookings[id].lines[0].roomType, db.bookings[id].ratePlan.value, oldIn, oldOut)
    ensures
      var moved := Moved(db, id, checkIn, checkOut);
      id in moved.bookings && CanMove(moved, id, oldIn, oldOut) && Moved(moved, id, oldIn, oldOut).ledger == db.ledger
  {
    var b, moved := db.bookings[id], Moved(db, id, checkIn, checkOut);
    CountersNotNegative(db);
    MovedShape(db, id, checkIn, checkOut);
    ShiftBack(db.ledger, KeysOf(b.lines), StayKeys(b.lines[0].roomType, checkIn, checkOut));
    MovesBack(db, moved, id, oldIn, oldOut);
  }

  /** A date change that went through can be taken back as long as the old nights have rates, and restores the ledger exactly. */
  lemma MoveCanBeUndone(db: Db, id: Id, checkIn: Date, checkOut: Date)
    requires Agreement(db) && id in db.bookings && WellFormed(db.bookings[id]) && db.bookings[id].Active()
    requires checkIn < checkOut && CanMove(db, id, checkIn, checkOut)
    requires
      var lines := db.bookings[id].lines;
      HasRates(db, lines[0].roomType, db.bookings[id].ratePlan.value, Earliest(NightSeq(lines)), Latest(NightSeq(lines)) + 1)
    ensures
      var lines := db.bookings[id].lines;
      var oldIn, oldOut := Earliest(NightSeq(lines)), Latest(NightSeq(lines)) + 1;
      var moved := Moved(db, id, checkIn, checkOut);
      oldIn < oldOut && CanMove(moved, id, oldIn, oldOut) && Moved(moved, id, oldIn, oldOut).ledger == db.ledger
  {
    var lines := db.bookings[id].lines;
    HeldBetweenBounds(db.bookings[id]);
    UndoMove(db, id, checkIn, checkOut, Earliest(NightSeq(lines)), Latest(NightSeq(lines)) + 1);
  }

  lemma MovesBack(db: Db, moved: Db, id: Id, oldIn: Date, oldOut: Date)
    requires id in db.bookings && id in moved.bookings && oldIn < oldOut && OneStay(moved.bookings[id].lines)
    requires moved.bookings[id].ratePlan.Some? && moved.rates == db.rates
    requires HasRates(db, moved.bookings[id].lines[0].roomType, moved.bookings[id].ratePlan.value, oldIn, oldOut)
    requires Releasable(moved.ledger, KeysOf(moved.bookings[id].lines))
    requires
      var held, stay := StayKeys(moved.bookings[id].lines[0].roomType, oldIn, oldOut), KeysOf(moved.bookings[id].lines);
      Covers(Shift(moved.ledger, stay, {}), held, 1) && Shift(moved.ledger, stay, held) == db.ledger
    ensures CanMove(moved, id, oldIn, oldOut) && Moved(moved, id, oldIn, oldOut).ledger == db.ledger
  {
  }

  lemma CreatedLines(db: Db, r: CreateRequest, id: Id, room: Option<Id>)
    requires Valid(db) && CanCreate(db, r) && id !in db.bookings
    requires FirstFree(db, r.roomType, r.property, StayNights(r.checkIn, r.checkOut), id, room)
    ensures
      var after := AfterCreate(db, r, id, room);
      Valid(after) && ReleasedKeys(after.bookings[id].lines) == StayKeys(r.roomType, r.checkIn, r.checkOut)
  {
    CreateKeepsSound(db, r, id, room);
    KeepsMeansValid(db, AfterCreate(db, r, id, room));
    ReleasedIsHeld(AfterCreate(db, r, id, room).bookings[id]);
    var prices := NightlyRates(db, r.roomType, r.ratePlan, r.checkIn, r.checkOut);
    StayLinesShape(r.roomType, r.checkIn, prices, room);
  }

  lemma BookedCanBeReleased(ledger: Ledger, keys: set<Key>)
    requires Covers(ledger, keys, 1) && forall k :: k in keys ==> ledger[k].booked >= 0
    ensures Releasable(Shift(ledger, {}, keys), keys)
    ensures Shift(Shift(ledger, {}, keys), keys, {}) == ledger
  {
  }

  /** Cancelling a new booking succeeds and gives the ledger back exactly. */
  lemma CancelUndoesCreate(db: Db, r: CreateRequest, id: Id, room: Option<Id>)
    requires Valid(db) && CanCreate(db, r) && id !in db.bookings
    requires FirstFree(db, r.roomType, r.property, StayNights(r.checkIn, r.checkOut), id, room)
    ensures Cancel(AfterCreate(db, r, id, room), id).Some?
    ensures Cancel(AfterCreate(db, r, id, room), id).value.ledger == db.ledger
  {
    CreatedLines(db, r, id, room);
    CountersNotNegative(db);
    BookedCanBeReleased(db.ledger, StayKeys(r.roomType, r.checkIn, r.checkOut));
  }

  lemma CountersNotNegative(db: Db)
    requires Agreement(db)
    ensures forall k :: k in db.ledger ==> db.ledger[k].booked >= 0
  {
    forall k | k in db.ledger ensures db.ledger[k].booked >= 0 {
      assert BookedRooms(db.ledger, k) == Count(db.bookings, k);
    }
  }

  /** Deleting a new booking gives back every table. */
  lemma DeleteUndoesCreate(db: Db, r: CreateRequest, id: Id, room: Option<Id>)
    requires Valid(db) && CanCreate(db, r) && id !in db.bookings
    requires FirstFree(db, r.roomType, r.property, StayNights(r.checkIn, r.checkOut), id, room)
    ensures DeleteBooking(AfterCreate(db, r, id, room), id) == Some(db)
  {
    CancelUndoesCreate(db, r, id, room);
    var after := AfterCreate(db, r, id, room);
    assert after.bookings - {id} == db.bookings;
  }
}
