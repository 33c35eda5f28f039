/** What a night with more rooms booked and blocked than exist stops, and that such nights arise. */
module Overcommitment {
  import opened Base
  import opened BookingStatus
  import opened Inventory
  import opened StayDates
  import opened BookingRules
  import opened BookingSafety
  import BookingService
  import Channex = ChannexRules
  import Audit = NightAudit
  import Reversals
  import Rooms = RoomService
  import opened Stays
  import opened Operations

  const CANCEL := BookingRules.Patch(Some(To(Cancelled)), None, None, None)

  /** One of the booking's nights is committed beyond its rooms. */
  ghost predicate HoldsOvercommitted(db: Db, id: Id)
    requires id in db.bookings
  {
    exists k :: k in Held(db.bookings[id]) && k in db.ledger && db.ledger[k].Available() < 0
  }

  /** On an exact ledger nothing else can stop a release. */
  lemma ReleasableExactlyWhen(db: Db, id: Id)
    requires Valid(db) && id in db.bookings && db.bookings[id].Active()
    ensures Releasable(db.ledger, KeysOf(db.bookings[id].lines)) <==> !HoldsOvercommitted(db, id)
    ensures ReleasedKeys(db.bookings[id].lines) == KeysOf(db.bookings[id].lines)
  {
    ReleasedIsHeld(db.bookings[id]);
    HeldIsBooked(db, id);
  }

  /** Cancelling an occupying booking that may be cancelled fails if and only if one of its nights is over-committed. */
  lemma CancelFailsExactlyWhenOvercommitted(db: Db, id: Id)
    requires Valid(db) && id in db.bookings && db.bookings[id].status in {Pending, Confirmed}
    ensures PatchBooking(db, id, CANCEL, false).None? <==> HoldsOvercommitted(db, id)
  {
    ReleasableExactlyWhen(db, id);
  }

  /** So does deleting it. */
  lemma DeleteFailsExactlyWhenOvercommitted(db: Db, id: Id)
    requires Valid(db) && id in db.bookings && db.bookings[id].status in {Pending, Confirmed}
    ensures DeleteBooking(db, id).None? <==> HoldsOvercommitted(db, id)
  {
    ReleasableExactlyWhen(db, id);
  }

  /** The room exists, in a live category of the booking's property, and no other occupying booking uses it on the nights. */
  predicate RoomIsFree(db: Db, id: Id, roomType: Id, room: Id, checkIn: Date, checkOut: Date)
    requires id in db.bookings && checkIn <= checkOut
  {
    && room in LiveRooms(db.rooms, roomType) && roomType in db.roomTypes && db.roomTypes[roomType] == RoomType(db.bookings[id].property, true)
    && Free(db.bookings, room, StayNights(checkIn, checkOut), id)
  }

  /** The new dates have a plan, rates, rooms to spare once the old nights are given back, and the room asked for. */
  predicate CanTake(db: Db, id: Id, checkIn: Date, checkOut: Date, room: Option<Id>)
    requires id in db.bookings && db.bookings[id].lines != [] && checkIn <= checkOut
  {
    var b := db.bookings[id];
    var roomType := b.lines[0].roomType;
    && b.ratePlan.Some? && HasRates(db, roomType, b.ratePlan.value, checkIn, checkOut)
    && Covers(Shift(db.ledger, KeysOf(b.lines), {}), StayKeys(roomType, checkIn, checkOut), 1)
    && (room.Some? ==> RoomIsFree(db, id, roomType, room.value, checkIn, checkOut))
  }

  lemma AssignsExactlyWhenFree(db: Db, id: Id, checkIn: Date, checkOut: Date, room: Id)
    requires id in db.bookings && db.bookings[id].Active() && checkIn < checkOut && CanMove(db, id, checkIn, checkOut)
    ensures CanAssign(Moved(db, id, checkIn, checkOut), id, Some(room)) <==>
            RoomIsFree(db, id, db.bookings[id].lines[0].roomType, room, checkIn, checkOut)
  {
    var b, moved := db.bookings[id], Moved(db, id, checkIn, checkOut);
    var prices := NightlyRates(db, b.lines[0].roomType, b.ratePlan.value, checkIn, checkOut);
    BookingService.NightsOfStay(b.lines[0].roomType, checkIn, checkOut, prices);
    assert moved.bookings - {id} == db.bookings - {id};
    BookingService.FreeDependsOnOthers(db.bookings, moved.bookings, room, StayNights(checkIn, checkOut), id);
    BookingService.FreeDependsOnOthers(moved.bookings, db.bookings, room, StayNights(checkIn, checkOut), id);
  }

  /** And so does moving it, into a room or into none, when the new dates can be taken. */
  lemma MoveFailsExactlyWhenOvercommitted(db: Db, id: Id, checkIn: Date, checkOut: Date, room: Option<Id>)
    requires Valid(db) && id in db.bookings && db.bookings[id].Active() && checkIn < checkOut
    ensures Rebooked(db, id, checkIn, checkOut, room).None? <==> HoldsOvercommitted(db, id) || !CanTake(db, id, checkIn, checkOut, room)
  {
    ReleasableExactlyWhen(db, id);
    if room.Some? && CanMove(db, id, checkIn, checkOut) {
      AssignsExactlyWhenFree(db, id, checkIn, checkOut, room.value);
    }
  }

  /** What the dates stage does to a booking that is one stay. */
  lemma DatesOfStay(db: Db, id: Id, newIn: Option<Date>, newOut: Option<Date>, keepRoom: bool)
    requires id in db.bookings && OneStay(db.bookings[id].lines)
    ensures
      var lines := db.bookings[id].lines;
      var oldIn, oldOut := Earliest(NightSeq(lines)), Latest(NightSeq(lines)) + 1;
      var checkIn, checkOut := Or(newIn, oldIn), Or(newOut, oldOut);
      ChangeDates(db, id, newIn, newOut, keepRoom)
        == if !ValidStay(checkIn, checkOut) then None else if checkIn == oldIn && checkOut == oldOut then Some(db)
           else Rebooked(db, id, checkIn, checkOut, if keepRoom then lines[0].room else None)
  {
    Reversals.UnifiedRoomOfStay(db.bookings[id].lines);
  }

  /**
   A date change fails if and only if the new stay is not one to accept, or the dates do change and either an old night
   is over-committed or the new stay cannot be taken, in the booking's own room when it is to keep it.
   */
  lemma DateChangeFailsExactlyWhen(db: Db, id: Id, newIn: Option<Date>, newOut: Option<Date>, keepRoom: bool)
    requires Valid(db) && id in db.bookings && db.bookings[id].Active()
    ensures
      var lines := db.bookings[id].lines;
      var oldIn, oldOut := Earliest(NightSeq(lines)), Latest(NightSeq(lines)) + 1;
      var checkIn, checkOut := Or(newIn, oldIn), Or(newOut, oldOut);
      ChangeDates(db, id, newIn, newOut, keepRoom).None? <==>
        || !ValidStay(checkIn, checkOut)
        || ((checkIn != oldIn || checkOut != oldOut)
            && (HoldsOvercommitted(db, id) || !CanTake(db, id, checkIn, checkOut, if keepRoom then lines[0].room else None)))
  {
    var lines := db.bookings[id].lines;
    var checkIn, checkOut := Or(newIn, Earliest(NightSeq(lines))), Or(newOut, Latest(NightSeq(lines)) + 1);
    DatesOfStay(db, id, newIn, newOut, keepRoom);
    if ValidStay(checkIn, checkOut) {
      MoveFailsExactlyWhenOvercommitted(db, id, checkIn, checkOut, if keepRoom then lines[0].room else None);
    }
  }

  /**
   Moving a confirmed booking and marking it no-show in one patch, once its dates could be changed: refused if and only
   if they did change and no room was put back, or a new night cannot be given back at once.
   */
  lemma MovedNoShowFailsExactlyWhen(db: Db, id: Id, newIn: Option<Date>, newOut: Option<Date>, formOk: bool, moved: Db)
    requires id in db.bookings && db.bookings[id].status == Confirmed && OneStay(db.bookings[id].lines)
    requires (newIn.Some? || newOut.Some?) && ChangeDates(db, id, newIn, newOut, true) == Some(moved)
    ensures
      var lines := db.bookings[id].lines;
      PatchBooking(db, id, BookingRules.Patch(Some(To(NoShow)), newIn, newOut, None), formOk).None? <==>
        (DatesMove(lines, newIn, newOut) && lines[0].room.None?) || ReleaseInto(moved, id, NoShow).None?
  {
    Reversals.UnifiedRoomOfStay(db.bookings[id].lines);
    ChangeDatesKeepsStatus(db, id, newIn, newOut, true, moved);
  }

  /** The sweep is stopped by any overdue booking with such a night, and by nothing else. */
  lemma SweepFailsExactlyWhenOvercommitted(db: Db, property: Id, day: Date)
    requires Valid(db)
    ensures
      !Audit.CanSweep(db, Audit.Overdue(db, property, day)) <==>
      exists id :: id in Audit.Overdue(db, property, day) && HoldsOvercommitted(db, id)
  {
    var overdue := Audit.Overdue(db, property, day);
    Audit.SweepsExactlyWhenNoneOvercommitted(db, overdue);
    forall id | id in overdue ensures Covers(db.ledger, HeldBy(db.bookings, id), 0) <==> !HoldsOvercommitted(db, id) {
      HeldIsBooked(db, id);
    }
  }

  // ----- It happens -----

  /** The state after room 4 was deleted: booking 7 is in no room, so nothing forbids it. */
  function RoomGone(): Db {
    Channex.OneBooking().(ledger := map[Key(1, 100) := Row(0, 1, 0)], rooms := map[4 := Room(1, 0, false, InService)])
  }

  lemma NoRoomLeft(db: Db, rooms: map<Id, Room>)
    requires db.ledger == map[Key(1, 100) := Row(1, 1, 0)] && db.today == 100 && rooms == map[4 := Room(1, 0, false, InService)]
    ensures Rooms.Recalculated(db.(rooms := rooms), 1).ledger == map[Key(1, 100) := Row(0, 1, 0)]
  {
    assert LiveRooms(rooms, 1) == {};
  }

  lemma RemoveLastRoom()
    ensures Step(Channex.OneBooking(), RemoveRoom(4), RoomGone())
  {
    var db := Channex.OneBooking();
    var rooms := db.rooms[4 := db.rooms[4].(live := false)];
    assert rooms == map[4 := Room(1, 0, false, InService)];
    NoRoomLeft(db, rooms);
  }

  /**
   From a valid state, deleting a room no booking is in yet leaves booking 7 on an over-committed night; it can then be
   neither cancelled nor deleted, and the next day's sweep fails.
   */
  lemma DeletedRoomBlocksRelease()
    ensures Valid(Channex.OneBooking()) && Step(Channex.OneBooking(), RemoveRoom(4), RoomGone()) && Valid(RoomGone())
    ensures HoldsOvercommitted(RoomGone(), 7)
    ensures PatchBooking(RoomGone(), 7, CANCEL, false).None? && DeleteBooking(RoomGone(), 7).None?
    ensures !Audit.CanSweep(RoomGone(), Audit.Overdue(RoomGone(), 2, 101))
  {
    var db := RoomGone();
    Channex.OneBookingIsValid();
    RemoveLastRoom();
    StepKeepsValid(Channex.OneBooking(), RemoveRoom(4), db);
    Channex.OneNight(db.bookings[7]);
    assert Key(1, 100) in Held(db.bookings[7]);
    CancelFailsExactlyWhenOvercommitted(db, 7);
    DeleteFailsExactlyWhenOvercommitted(db, 7);
    OverdueSeven(db);
    SweepFailsExactlyWhenOvercommitted(db, 2, 101);
  }

  lemma OverdueSeven(db: Db)
    requires db.bookings == Channex.OneBooking().bookings
    ensures 7 in Audit.Overdue(db, 2, 101)
  {
    assert NightSeq(db.bookings[7].lines) == [100];
  }

  /** The state after the failed modification of booking 7: its night counts nobody. */
  function Drifted(): Db {
    Channex.OneBooking().(ledger := map[Key(1, 100) := Row(1, 0, 0)])
  }

  lemma DriftedIsApplied(a: Channex.Applied)
    requires a == Channex.Applied(Channex.Failed, {Key(1, 100)}, {}, None)
    ensures Channex.Apply(Channex.OneBooking(), a) == Drifted()
  {
    assert Channex.Apply(Channex.OneBooking(), a).ledger == map[Key(1, 100) := Row(1, 0, 0)];
  }

  lemma ImportIsStep(db: Db, r: Channex.Request, guestOk: bool, id: Id, found: Option<Id>, a: Channex.Applied)
    requires Imports(db, r, guestOk, id, Channex.Apply(db, a), found, a)
    ensures Step(db, Import(r, guestOk, id), Channex.Apply(db, a))
  {
  }

  lemma DriftHappens(guestOk: bool) returns (r: Channex.Request)
    ensures Valid(Channex.OneBooking()) && Step(Channex.OneBooking(), Import(r, guestOk, 8), Drifted())
  {
    var a;
    r, a := Channex.DriftIsReachable(guestOk);
    ImportIsStep(Channex.OneBooking(), r, guestOk, 8, Some(7), a);
    DriftedIsApplied(a);
  }

  /**
   A revision takes a valid state to a drifted one, in which the sweep fails though no night is over-committed: the
   counter would go negative.
   */
  lemma DriftStopsTheSweep(guestOk: bool) returns (r: Channex.Request)
    ensures Valid(Channex.OneBooking()) && Step(Channex.OneBooking(), Import(r, guestOk, 8), Drifted())
    ensures WithinCapacity(Drifted().ledger) && !Audit.CanSweep(Drifted(), Audit.Overdue(Drifted(), 2, 101))
    ensures Step(Drifted(), Sweep(2, 101), Drifted())
  {
    r := DriftHappens(guestOk);
    DriftedCannotSweep();
    SweepStep(Drifted(), 2, 101, Drifted());
  }

  lemma DriftedCannotSweep()
    ensures WithinCapacity(Drifted().ledger) && !Audit.CanSweep(Drifted(), Audit.Overdue(Drifted(), 2, 101))
  {
    var db, k := Drifted(), Key(1, 100);
    var overdue := Audit.Overdue(db, 2, 101);
    OverdueSeven(db);
    Channex.OneNight(db.bookings[7]);
    ReleasedIsHeld(db.bookings[7]);
    assert 7 in Audit.Givers(db.bookings, overdue, k);
    assert !Audit.Gives(db, overdue, k);
  }
}
