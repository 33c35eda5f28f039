/**
 What each booking transaction does to the tables, as functions on snapshots: None is an exception
 that leaves the service, so nothing is committed.
 */
module BookingRules {
  import opened Base
  import opened BookingStatus
  import opened Inventory
  import opened StayDates
  import opened Stays

  /** `guestOk` says that the guest's row can be found or made. */
  datatype CreateRequest = CreateRequest(
    property: Id,
    roomType: Id,
    ratePlan: Id,
    checkIn: Date,
    checkOut: Date,
    confirmed: bool,
    external: Option<Id>,
    guestOk: bool)

  /** Fields left out of a PATCH are None; `room: Some(None)` clears the room. */
  datatype Patch = Patch(
    status: Option<StatusRequest>,
    checkIn: Option<Date>,
    checkOut: Option<Date>,
    room: Option<Option<Id>>)

  // ----- Pricing -----

  predicate HasRates(db: Db, roomType: Id, ratePlan: Id, checkIn: Date, checkOut: Date) {
    forall d :: checkIn <= d < checkOut ==> RateKey(roomType, ratePlan, d) in db.rates
  }

  function NightlyRates(db: Db, roomType: Id, ratePlan: Id, checkIn: Date, checkOut: Date): seq<Cents>
    requires checkIn <= checkOut && HasRates(db, roomType, ratePlan, checkIn, checkOut)
  {
    seq(checkOut - checkIn, i requires 0 <= i < checkOut - checkIn => db.rates[RateKey(roomType, ratePlan, checkIn + i)].price)
  }

  // ----- Create -----

  predicate CanCreate(db: Db, r: CreateRequest) {
    && ValidStay(r.checkIn, r.checkOut)
    && (r.external.Some? ==> forall x :: x in db.bookings ==> db.bookings[x].external != r.external)
    && r.roomType in db.roomTypes && db.roomTypes[r.roomType] == RoomType(r.property, true)
    && r.ratePlan in db.ratePlans && db.ratePlans[r.ratePlan] == r.property
    && HasRates(db, r.roomType, r.ratePlan, r.checkIn, r.checkOut)
    && Covers(db.ledger, StayKeys(r.roomType, r.checkIn, r.checkOut), 1)
    && r.guestOk
  }

  /** The tables after a new booking that was given `room`. */
  function AfterCreate(db: Db, r: CreateRequest, id: Id, room: Option<Id>): Db
    requires CanCreate(db, r)
  {
    var prices := NightlyRates(db, r.roomType, r.ratePlan, r.checkIn, r.checkOut);
    db.(ledger := Shift(db.ledger, {}, StayKeys(r.roomType, r.checkIn, r.checkOut)),
        bookings := db.bookings[id := Booking(if r.confirmed then Confirmed else Pending, r.property, Some(r.ratePlan),
                                              r.external, Sum(prices), StayLines(r.roomType, r.checkIn, prices, room))])
  }

  /** Rooms that may be given to booking id on these nights when rooms of a category are picked by name. */
  function FreeRooms(db: Db, roomType: Id, property: Id, nights: set<Date>, id: Id): set<Id> {
    set r | r in LiveRooms(db.rooms, roomType) && roomType in db.roomTypes
            && db.roomTypes[roomType].property == property && Free(db.bookings, r, nights, id)
  }

  /** `pick` is the first free room by name, or None when there is none. */
  ghost predicate FirstFree(db: Db, roomType: Id, property: Id, nights: set<Date>, id: Id, pick: Option<Id>) {
    var free := FreeRooms(db, roomType, property, nights, id);
    match pick
    case None => free == {}
    case Some(room) => room in free && forall r :: r in free ==> db.rooms[room].name <= db.rooms[r].name
  }

  function StayNights(checkIn: Date, checkOut: Date): set<Date>
    requires checkIn <= checkOut
  {
    set d | d in Nights(checkIn, checkOut)
  }

  // ----- Room assignment -----

  predicate CanAssign(db: Db, id: Id, room: Option<Id>) {
    && id in db.bookings && db.bookings[id].Active() && OneCategory(db.bookings[id].lines)
    && (room.Some? ==>
          var roomType := db.bookings[id].lines[0].roomType;
          && room.value in LiveRooms(db.rooms, roomType)
          && roomType in db.roomTypes && db.roomTypes[roomType] == RoomType(db.bookings[id].property, true)
          && Free(db.bookings, room.value, NightsOf(db.bookings[id].lines), id))
  }

  function AssignRoom(db: Db, id: Id, room: Option<Id>): (r: Option<Db>)
    ensures r.Some? ==> id in r.value.bookings
  {
    if !CanAssign(db, id, room) then None else
    Some(db.(bookings := db.bookings[id := db.bookings[id].(lines := WithRoom(db.bookings[id].lines, room))]))
  }

  // ----- Release -----

  /** The buckets _release_booking_inventory gives back: none if the lines span several categories. */
  function ReleasedKeys(lines: seq<Line>): set<Key> {
    if OneCategory(lines) then KeysOf(lines) else {}
  }

  /** Give back the nights of a booking and set its status. */
  function ReleaseInto(db: Db, id: Id, status: Status): Option<Db>
    requires id in db.bookings
  {
    var keys := ReleasedKeys(db.bookings[id].lines);
    if !Releasable(db.ledger, keys) then None else
    Some(db.(ledger := Shift(db.ledger, keys, {}), bookings := db.bookings[id := db.bookings[id].(status := status)]))
  }

  // ----- Date change -----

  function NightSeq(lines: seq<Line>): seq<Date> {
    seq(|lines|, i requires 0 <= i < |lines| => lines[i].night)
  }

  function AssignedRooms(lines: seq<Line>): set<Id> {
    set i | 0 <= i < |lines| && lines[i].room.Some? :: lines[i].room.value
  }

  /** The one room that every assigned line uses, if there is exactly one. */
  ghost function UnifiedRoom(lines: seq<Line>): Option<Id> {
    if |AssignedRooms(lines)| == 1 then (var r :| r in AssignedRooms(lines); Some(r)) else None
  }

  /** The new dates can be priced, and fit once the old nights have been given back. */
  predicate CanMove(db: Db, id: Id, checkIn: Date, checkOut: Date)
    requires id in db.bookings
  {
    var b := db.bookings[id];
    && b.ratePlan.Some? && OneCategory(b.lines)
    && Releasable(db.ledger, KeysOf(b.lines))
    && HasRates(db, b.lines[0].roomType, b.ratePlan.value, checkIn, checkOut)
    && Covers(Shift(db.ledger, KeysOf(b.lines), {}), StayKeys(b.lines[0].roomType, checkIn, checkOut), 1)
  }

  /** The booking moved to new dates, repriced, in no room. */
  function Moved(db: Db, id: Id, checkIn: Date, checkOut: Date): Db
    requires id in db.bookings && checkIn <= checkOut && CanMove(db, id, checkIn, checkOut)
  {
    var b := db.bookings[id];
    var roomType := b.lines[0].roomType;
    var prices := NightlyRates(db, roomType, b.ratePlan.value, checkIn, checkOut);
    db.(ledger := Shift(db.ledger, KeysOf(b.lines), StayKeys(roomType, checkIn, checkOut)),
        bookings := db.bookings[id := b.(total := Sum(prices), lines := StayLines(roomType, checkIn, prices, None))])
  }

  /** The stay moved, and put back into its room when there is one to keep. */
  ghost function Rebooked(db: Db, id: Id, checkIn: Date, checkOut: Date, room: Option<Id>): Option<Db>
    requires id in db.bookings && checkIn <= checkOut
  {
    if !CanMove(db, id, checkIn, checkOut) then None
    else if room.Some? then AssignRoom(Moved(db, id, checkIn, checkOut), id, room)
    else Some(Moved(db, id, checkIn, checkOut))
  }

  /**
   The dates stage of a patch. Bounds left out stay as they are; unchanged dates change nothing;
   otherwise the stay moves and, if asked to, keeps the room it had.
   */
  ghost function ChangeDates(db: Db, id: Id, newIn: Option<Date>, newOut: Option<Date>, keepRoom: bool): (r: Option<Db>)
    requires id in db.bookings
    ensures r.Some? ==> id in r.value.bookings
  {
    var lines := db.bookings[id].lines;
    if lines == [] then None
    else ChangeFrom(db, id, Earliest(NightSeq(lines)), Latest(NightSeq(lines)) + 1, newIn, newOut, if keepRoom then UnifiedRoom(lines) else None)
  }

  /** The same, once the bounds of the old stay and the room to keep have been read from its lines. */
  ghost function ChangeFrom(db: Db, id: Id, oldIn: Date, oldOut: Date, newIn: Option<Date>, newOut: Option<Date>, room: Option<Id>): (r: Option<Db>)
    requires id in db.bookings
    ensures r.Some? ==> id in r.value.bookings
  {
    var checkIn, checkOut := Or(newIn, oldIn), Or(newOut, oldOut);
    if !ValidStay(checkIn, checkOut) then None
    else if checkIn == oldIn && checkOut == oldOut then Some(db)
    else Rebooked(db, id, checkIn, checkOut, room)
  }

  /** A date change that changes anything rebooks the stay. */
  lemma ChangeDatesRebooks(db: Db, id: Id, newIn: Option<Date>, newOut: Option<Date>, keepRoom: bool, after: Db)
    returns (checkIn: Date, checkOut: Date, room: Option<Id>)
    requires id in db.bookings && ChangeDates(db, id, newIn, newOut, keepRoom) == Some(after) && after != db
    ensures checkIn < checkOut && Rebooked(db, id, checkIn, checkOut, room) == Some(after)
  {
    var lines := db.bookings[id].lines;
    checkIn, checkOut := Or(newIn, Earliest(NightSeq(lines))), Or(newOut, Latest(NightSeq(lines)) + 1);
    room := if keepRoom then UnifiedRoom(lines) else None;
  }

  // ----- Status -----

  /** The status stage; `formOk` says that the extension fields needed for check-in are filled in. */
  function ChangeStatus(db: Db, id: Id, request: StatusRequest, formOk: bool): Option<Db>
    requires id in db.bookings
  {
    var b := db.bookings[id];
    if !Allowed(b.status, request) then None
    else if request.status == CheckedIn && b.status != CheckedIn && !formOk then None
    else if request.status == NoShow && b.status == Confirmed then ReleaseInto(db, id, NoShow)
    else Some(db.(bookings := db.bookings[id := b.(status := request.status)]))
  }

  /** Cancelling ends the patch: the other fields are ignored. */
  function Cancel(db: Db, id: Id): Option<Db>
    requires id in db.bookings
  {
    var status := db.bookings[id].status;
    if status == Cancelled then Some(db)
    else if !Allowed(status, To(Cancelled)) then None
    else ReleaseInto(db, id, Cancelled)
  }

  // ----- The whole patch -----

  ghost function PatchBooking(db: Db, id: Id, p: Patch, formOk: bool): Option<Db> {
    if p == Patch(None, None, None, None) then Some(db)
    else if id !in db.bookings then None
    else if p.status == Some(To(Cancelled)) then Cancel(db, id)
    else if !db.bookings[id].Active() && p.status.Some? && !Allowed(db.bookings[id].status, p.status.value) then None
    else if !db.bookings[id].Active() && (p.checkIn.Some? || p.checkOut.Some? || p.room.Some?) then None
    else InStages(db, id, p, formOk)
  }

  /** Some bound is given that is not the one the lines have. */
  predicate DatesMove(lines: seq<Line>, newIn: Option<Date>, newOut: Option<Date>) {
    lines != [] && BoundsMove(Earliest(NightSeq(lines)), Latest(NightSeq(lines)) + 1, newIn, newOut)
  }

  predicate BoundsMove(oldIn: Date, oldOut: Date, newIn: Option<Date>, newOut: Option<Date>) {
    Or(newIn, oldIn) != oldIn || Or(newOut, oldOut) != oldOut
  }

  /** The lines were replaced and expired, and no room assignment loads them again. */
  ghost predicate LinesExpired(lines: seq<Line>, p: Patch) {
    DatesMove(lines, p.checkIn, p.checkOut) && p.room.None? && UnifiedRoom(lines).None?
  }

  function StatusStage(db: Db, id: Id, request: Option<StatusRequest>, formOk: bool, linesLost: bool): Option<Db>
    requires id in db.bookings
  {
    if request.None? then Some(db)
    else if request.value == To(NoShow) && linesLost then None
    else ChangeStatus(db, id, request.value, formOk)
  }

  /** Dates, then room, then status; a no-show of a confirmed booking reads the lines, which fails while they are expired. */
  ghost function InStages(db: Db, id: Id, p: Patch, formOk: bool): Option<Db>
    requires id in db.bookings
  {
    var dated := if p.checkIn.None? && p.checkOut.None? then Some(db) else ChangeDates(db, id, p.checkIn, p.checkOut, p.room.None?);
    if dated.None? then None else
    var roomed := if p.room.None? then dated else AssignRoom(dated.value, id, p.room.value);
    if roomed.None? then None
    else StatusStage(roomed.value, id, p.status, formOk, db.bookings[id].status == Confirmed && LinesExpired(db.bookings[id].lines, p))
  }

  /** The stages of a patch that is not a cancellation: dates, room, status. */
  ghost predicate Staged(db: Db, id: Id, p: Patch, formOk: bool, dated: Db, roomed: Db, after: Db) {
    && id in db.bookings && id in dated.bookings && id in roomed.bookings
    && (p.checkIn.Some? || p.checkOut.Some? || p.room.Some? ==> db.bookings[id].Active())
    && (if p.checkIn.None? && p.checkOut.None? then dated == db else ChangeDates(db, id, p.checkIn, p.checkOut, p.room.None?) == Some(dated))
    && dated.bookings[id].status == db.bookings[id].status
    && (if p.room.None? then roomed == dated else AssignRoom(dated, id, p.room.value) == Some(roomed))
    && if p.status.None? then after == roomed else ChangeStatus(roomed, id, p.status.value, formOk) == Some(after)
  }

  lemma ChangeDatesKeepsStatus(db: Db, id: Id, newIn: Option<Date>, newOut: Option<Date>, keepRoom: bool, after: Db)
    requires id in db.bookings && ChangeDates(db, id, newIn, newOut, keepRoom) == Some(after)
    ensures id in after.bookings && after.bookings[id].status == db.bookings[id].status
  {
    if after != db {
      var checkIn, checkOut, room := ChangeDatesRebooks(db, id, newIn, newOut, keepRoom, after);
    }
  }

  lemma PatchGoesInStages(db: Db, id: Id, p: Patch, formOk: bool, after: Db) returns (dated: Db, roomed: Db)
    requires PatchBooking(db, id, p, formOk) == Some(after)
    requires p != Patch(None, None, None, None) && p.status != Some(To(Cancelled))
    ensures Staged(db, id, p, formOk, dated, roomed, after)
  {
    dated := if p.checkIn.None? && p.checkOut.None? then db else ChangeDates(db, id, p.checkIn, p.checkOut, p.room.None?).value;
    roomed := if p.room.None? then dated else AssignRoom(dated, id, p.room.value).value;
    if p.checkIn.Some? || p.checkOut.Some? {
      ChangeDatesKeepsStatus(db, id, p.checkIn, p.checkOut, p.room.None?, dated);
    }
  }

  // ----- Delete -----

  function DeleteBooking(db: Db, id: Id): Option<Db> {
    if id !in db.bookings || db.bookings[id].status in {CheckedIn, CheckedOut} then None
    else if db.bookings[id].Active() then
      var keys := ReleasedKeys(db.bookings[id].lines);
      if !Releasable(db.ledger, keys) then None
      else Some(db.(ledger := Shift(db.ledger, keys, {}), bookings := db.bookings - {id}))
    else Some(db.(bookings := db.bookings - {id}))
  }
}
