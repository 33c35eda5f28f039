/** What the booking transactions leave, told row by row: which requests are accepted, what a stay costs, who is swept. */
module BookingOutcomes {
  import opened Base
  import opened BookingStatus
  import opened Inventory
  import opened StayDates
  import opened Stays
  import opened BookingRules
  import opened Operations
  import Audit = NightAudit
  import BookingSafety
  import Overcommitment
  import Pricing = RatesBulk

  // ----- Stays and counters -----

  /** One line for each night from checkIn on, in one category and one room. */
  ghost predicate LinesAre(lines: seq<Line>, roomType: Id, checkIn: Date, checkOut: Date, room: Option<Id>) {
    && |lines| == checkOut - checkIn
    && forall i :: 0 <= i < |lines| ==> lines[i].roomType == roomType && lines[i].night == checkIn + i && lines[i].room == room
  }

  /** Every night costs what the rate row of its own category, plan and night says, and the total is their sum. */
  ghost predicate PaysItsRates(db: Db, b: Booking) {
    && b.ratePlan.Some? && b.total == Sum(Prices(b.lines))
    && forall i :: 0 <= i < |b.lines| ==>
         var k := RateKey(b.lines[i].roomType, b.ratePlan.value, b.lines[i].night);
         k in db.rates && b.lines[i].price == db.rates[k].price
  }

  /** Every row is as it was, but counts one room less where one stay is and one more where the other is. */
  ghost predicate CountersMove(before: Ledger, after: Ledger, left: seq<Line>, taken: seq<Line>) {
    && after.Keys == before.Keys
    && forall k :: k in before ==>
         && after[k].total == before[k].total && after[k].blocked == before[k].blocked
         && after[k].booked == before[k].booked - (if OnLine(left, k) then 1 else 0) + (if OnLine(taken, k) then 1 else 0)
  }

  lemma ShiftMoves(ledger: Ledger, left: seq<Line>, taken: seq<Line>)
    ensures CountersMove(ledger, Shift(ledger, KeysOf(left), KeysOf(taken)), left, taken)
  {
    forall k ensures (OnLine(left, k) <==> k in KeysOf(left)) && (OnLine(taken, k) <==> k in KeysOf(taken)) {
      OnLineIsKey(left, k);
      OnLineIsKey(taken, k);
    }
  }

  predicate InStay(k: Key, roomType: Id, checkIn: Date, checkOut: Date) {
    k.roomType == roomType && checkIn <= k.night < checkOut
  }

  /** Some line of the stay is on the bucket. */
  predicate OnLine(lines: seq<Line>, k: Key) {
    exists i :: 0 <= i < |lines| && lines[i].roomType == k.roomType && lines[i].night == k.night
  }

  lemma OnLineIsKey(lines: seq<Line>, k: Key)
    ensures OnLine(lines, k) <==> k in KeysOf(lines)
  {
    if OnLine(lines, k) {
      var i :| 0 <= i < |lines| && lines[i].roomType == k.roomType && lines[i].night == k.night;
      assert lines[i].Bucket() == k;
    }
  }

  /** Nobody else who occupies has the room on one of the nights. */
  ghost predicate Vacant(db: Db, room: Id, checkIn: Date, checkOut: Date, id: Id) {
    forall x, i :: x in db.bookings && x != id && db.bookings[x].status !in {Cancelled, NoShow} && 0 <= i < |db.bookings[x].lines| ==>
      !(db.bookings[x].lines[i].room == Some(room) && checkIn <= db.bookings[x].lines[i].night < checkOut)
  }

  lemma VacantIsFree(db: Db, room: Id, checkIn: Date, checkOut: Date, id: Id)
    requires checkIn <= checkOut
    ensures Vacant(db, room, checkIn, checkOut, id) <==> Free(db.bookings, room, StayNights(checkIn, checkOut), id)
  {
    forall d ensures d in StayNights(checkIn, checkOut) <==> checkIn <= d < checkOut {
      if checkIn <= d < checkOut {
        assert Nights(checkIn, checkOut)[d - checkIn] == d;
      }
    }
    if Vacant(db, room, checkIn, checkOut, id) {
      forall x | x in db.bookings && x != id && db.bookings[x].Active() ensures Avoids(db.bookings[x].lines, room, StayNights(checkIn, checkOut)) {
      }
    }
    if Free(db.bookings, room, StayNights(checkIn, checkOut), id) {
      forall x, i | x in db.bookings && x != id && db.bookings[x].status !in {Cancelled, NoShow} && 0 <= i < |db.bookings[x].lines|
        ensures !(db.bookings[x].lines[i].room == Some(room) && checkIn <= db.bookings[x].lines[i].night < checkOut)
      {
        assert Avoids(db.bookings[x].lines, room, StayNights(checkIn, checkOut));
      }
    }
  }

  /** A physical room of the category, which is not deleted and belongs to the property. */
  predicate OfCategory(db: Db, room: Id, roomType: Id, property: Id) {
    && room in db.rooms && db.rooms[room].live && db.rooms[room].roomType == roomType
    && roomType in db.roomTypes && db.roomTypes[roomType].property == property
  }

  /** The vacant room of the category that comes first by name, if there is any. */
  ghost predicate FirstVacant(db: Db, roomType: Id, property: Id, checkIn: Date, checkOut: Date, id: Id, room: Option<Id>) {
    match room
    case None => forall r :: OfCategory(db, r, roomType, property) ==> !Vacant(db, r, checkIn, checkOut, id)
    case Some(first) =>
      && OfCategory(db, first, roomType, property) && Vacant(db, first, checkIn, checkOut, id)
      && forall r :: OfCategory(db, r, roomType, property) && Vacant(db, r, checkIn, checkOut, id) ==> db.rooms[first].name <= db.rooms[r].name
  }

  lemma FirstFreeIsVacant(db: Db, roomType: Id, property: Id, checkIn: Date, checkOut: Date, id: Id, room: Option<Id>)
    requires checkIn <= checkOut && FirstFree(db, roomType, property, StayNights(checkIn, checkOut), id, room)
    ensures FirstVacant(db, roomType, property, checkIn, checkOut, id, room)
  {
    var free := FreeRooms(db, roomType, property, StayNights(checkIn, checkOut), id);
    forall r ensures OfCategory(db, r, roomType, property) && Vacant(db, r, checkIn, checkOut, id) <==> r in free {
      VacantIsFree(db, r, checkIn, checkOut, id);
    }
  }

  // ----- Creation -----

  /** A stay of 1 to 365 nights in a live category of the property, on a plan of the property, with a rate and a room left on every night. */
  ghost predicate Bookable(db: Db, r: CreateRequest) {
    && 1 <= r.checkOut - r.checkIn <= 365
    && (r.external.Some? ==> forall x :: x in db.bookings ==> db.bookings[x].external != r.external)
    && r.roomType in db.roomTypes && db.roomTypes[r.roomType].live && db.roomTypes[r.roomType].property == r.property
    && r.ratePlan in db.ratePlans && db.ratePlans[r.ratePlan] == r.property
    && (forall d :: r.checkIn <= d < r.checkOut ==> RateKey(r.roomType, r.ratePlan, d) in db.rates)
    && (forall k :: InStay(k, r.roomType, r.checkIn, r.checkOut) ==>
          k in db.ledger && db.ledger[k].booked + db.ledger[k].blocked < db.ledger[k].total)
    && r.guestOk
  }

  lemma BookableIsCanCreate(db: Db, r: CreateRequest)
    ensures Bookable(db, r) <==> CanCreate(db, r)
  {
    if Bookable(db, r) {
      assert Covers(db.ledger, StayKeys(r.roomType, r.checkIn, r.checkOut), 1);
    }
    if CanCreate(db, r) {
      forall k | InStay(k, r.roomType, r.checkIn, r.checkOut)
        ensures k in db.ledger && db.ledger[k].booked + db.ledger[k].blocked < db.ledger[k].total
      {
        assert k == Key(r.roomType, k.night);
        assert k in StayKeys(r.roomType, r.checkIn, r.checkOut);
      }
    }
  }

  /** The new booking, and nothing else but its counters. */
  ghost predicate Booked(db: Db, r: CreateRequest, id: Id, after: Db) {
    && after == db.(ledger := after.ledger, bookings := after.bookings) && id !in db.bookings && id in after.bookings
    && after.bookings - {id} == db.bookings
    && (var b := after.bookings[id];
        && b.status == (if r.confirmed then Confirmed else Pending) && b.property == r.property && b.external == r.external
        && b.ratePlan == Some(r.ratePlan) && PaysItsRates(db, b) && b.lines != []
        && LinesAre(b.lines, r.roomType, r.checkIn, r.checkOut, b.lines[0].room)
        && FirstVacant(db, r.roomType, r.property, r.checkIn, r.checkOut, id, b.lines[0].room))
    && CountersMove(db.ledger, after.ledger, [], after.bookings[id].lines)
  }

  lemma CreatedBooking(db: Db, r: CreateRequest, id: Id, room: Option<Id>)
    requires CanCreate(db, r)
    ensures
      var b := AfterCreate(db, r, id, room).bookings[id];
      && PaysItsRates(db, b) && b.lines != [] && LinesAre(b.lines, r.roomType, r.checkIn, r.checkOut, room)
      && KeysOf(b.lines) == StayKeys(r.roomType, r.checkIn, r.checkOut)
  {
    StayLinesShape(r.roomType, r.checkIn, NightlyRates(db, r.roomType, r.ratePlan, r.checkIn, r.checkOut), room);
  }

  lemma CreatedIsBooked(db: Db, r: CreateRequest, id: Id, room: Option<Id>)
    requires CanCreate(db, r) && id !in db.bookings
    requires FirstFree(db, r.roomType, r.property, StayNights(r.checkIn, r.checkOut), id, room)
    ensures Booked(db, r, id, AfterCreate(db, r, id, room))
  {
    var after := AfterCreate(db, r, id, room);
    CreatedBooking(db, r, id, room);
    FirstFreeIsVacant(db, r.roomType, r.property, r.checkIn, r.checkOut, id, room);
    assert after.bookings - {id} == db.bookings;
    ShiftMoves(db.ledger, [], after.bookings[id].lines);
    assert KeysOf([]) == {};
  }

  /** A create request is accepted exactly when the stay can be booked, and then stores just that stay at its rates. */
  lemma CreateOutcome(db: Db, r: CreateRequest, id: Id, after: Db)
    requires Step(db, Create(r, id), after)
    ensures if Bookable(db, r) then Booked(db, r, id, after) else after == db
  {
    BookableIsCanCreate(db, r);
    if CanCreate(db, r) {
      var room :| FirstFree(db, r.roomType, r.property, StayNights(r.checkIn, r.checkOut), id, room) && after == AfterCreate(db, r, id, room);
      CreatedIsBooked(db, r, id, room);
    }
  }

  // ----- Rates written before the stay was booked -----

  predicate Hits(g: Pricing.Segment, k: RateKey) {
    g.roomType == k.roomType && g.ratePlan == k.ratePlan && g.start <= k.night <= g.end
  }

  /** The last segment that covers the night. */
  ghost predicate LastToCover(segments: seq<Pricing.Segment>, i: nat, k: RateKey) {
    i < |segments| && Hits(segments[i], k) && forall j :: i < j < |segments| ==> !Hits(segments[j], k)
  }

  lemma {:induction false} LastCoveringIsLast(segments: seq<Pricing.Segment>, i: nat, k: RateKey)
    requires LastToCover(segments, i, k)
    ensures Pricing.LastCovering(segments, k) == Some(segments[i])
  {
    var n := |segments| - 1;
    if i < n {
      assert !Hits(segments[n], k);
      assert LastToCover(segments[..n], i, k);
      LastCoveringIsLast(segments[..n], i, k);
    }
  }

  lemma {:induction false} NoneCovers(segments: seq<Pricing.Segment>, k: RateKey)
    requires forall i :: 0 <= i < |segments| ==> !Hits(segments[i], k)
    ensures Pricing.LastCovering(segments, k).None?
  {
    if segments != [] {
      assert !Hits(segments[|segments| - 1], k);
      NoneCovers(segments[..|segments| - 1], k);
    }
  }

  /** A rate write is for categories and plans that exist, each pair of one property. */
  predicate Writable(db: Db, segments: seq<Pricing.Segment>) {
    forall i :: 0 <= i < |segments| ==>
      && segments[i].roomType in db.roomTypes && segments[i].ratePlan in db.ratePlans
      && db.roomTypes[segments[i].roomType].property == db.ratePlans[segments[i].ratePlan]
  }

  /** A rate write sets each night it covers to the rate of the last segment that covers it, and no other night. */
  lemma RatesOutcome(db: Db, segments: seq<Pricing.Segment>, after: Db, k: RateKey)
    requires Step(db, WriteRates(segments), after)
    ensures if Writable(db, segments) then after == db.(rates := after.rates) else after == db
    ensures Writable(db, segments) ==> forall i: nat :: LastToCover(segments, i, k) ==> k in after.rates && after.rates[k] == segments[i].rate
    ensures (forall i :: 0 <= i < |segments| ==> !Hits(segments[i], k)) ==>
              (k in after.rates <==> k in db.rates) && (k in db.rates ==> after.rates[k] == db.rates[k])
  {
    RatesStep(db, segments, after);
    WrittenRate(db, segments, k);
  }

  lemma RatesStep(db: Db, segments: seq<Pricing.Segment>, after: Db)
    requires Step(db, WriteRates(segments), after)
    ensures after == if Writable(db, segments) then Pricing.Written(db, segments) else db
  {
    assert Writable(db, segments) <==> Pricing.AllSameProperty(db.roomTypes, db.ratePlans, segments);
  }

  lemma WrittenRate(db: Db, segments: seq<Pricing.Segment>, k: RateKey)
    ensures
      var rates := Pricing.Written(db, segments).rates;
      && (forall i: nat :: LastToCover(segments, i, k) ==> k in rates && rates[k] == segments[i].rate)
      && ((forall i :: 0 <= i < |segments| ==> !Hits(segments[i], k)) ==> (k in rates <==> k in db.rates) && (k in db.rates ==> rates[k] == db.rates[k]))
  {
    Pricing.LastSegmentDecides(db.rates, segments, k);
    forall i: nat | LastToCover(segments, i, k) ensures Pricing.LastCovering(segments, k) == Some(segments[i]) {
      LastCoveringIsLast(segments, i, k);
    }
    if forall i :: 0 <= i < |segments| ==> !Hits(segments[i], k) {
      NoneCovers(segments, k);
    }
  }

  /** A stay booked after a rate write pays, on each night the write covers, the rate of the last segment that covers it. */
  lemma StayPaysWrittenRates(db: Db, segments: seq<Pricing.Segment>, written: Db, r: CreateRequest, id: Id, after: Db, n: nat, i: nat)
    requires Step(db, WriteRates(segments), written) && Writable(db, segments)
    requires Step(written, Create(r, id), after) && Bookable(written, r)
    requires n < r.checkOut - r.checkIn && LastToCover(segments, i, RateKey(r.roomType, r.ratePlan, r.checkIn + n))
    ensures id in after.bookings && n < |after.bookings[id].lines|
    ensures after.bookings[id].lines[n].night == r.checkIn + n && after.bookings[id].lines[n].price == segments[i].rate.price
  {
    NightIsPriced(written, r, id, after, n);
    RatesOutcome(db, segments, written, RateKey(r.roomType, r.ratePlan, r.checkIn + n));
  }

  lemma NightIsPriced(db: Db, r: CreateRequest, id: Id, after: Db, n: nat)
    requires Step(db, Create(r, id), after) && Bookable(db, r) && n < r.checkOut - r.checkIn
    ensures id in after.bookings && n < |after.bookings[id].lines|
    ensures
      var line, k := after.bookings[id].lines[n], RateKey(r.roomType, r.ratePlan, r.checkIn + n);
      line.night == r.checkIn + n && k in db.rates && line.price == db.rates[k].price
  {
    CreateOutcome(db, r, id, after);
  }

  // ----- Giving nights back -----

  /** Each bucket of the stay has a row that is not over-committed and counts a room. */
  ghost predicate CanGiveBack(ledger: Ledger, lines: seq<Line>) {
    forall k :: OnLine(lines, k) ==> k in ledger && ledger[k].booked + ledger[k].blocked <= ledger[k].total && ledger[k].booked >= 1
  }

  lemma GiveBackIsReleasable(ledger: Ledger, lines: seq<Line>)
    ensures CanGiveBack(ledger, lines) <==> Releasable(ledger, KeysOf(lines))
  {
    forall k ensures OnLine(lines, k) <==> k in KeysOf(lines) {
      OnLineIsKey(lines, k);
    }
  }

  lemma NothingMoves(ledger: Ledger)
    ensures CountersMove(ledger, ledger, [], [])
  {
  }

  // ----- Status -----

  predicate Gone(s: Status) {
    s == Cancelled || s == NoShow
  }

  /** A status request on its own is accepted. */
  ghost predicate StatusAccepted(db: Db, b: Booking, next: Status, formOk: bool) {
    && (|| next == b.status
        || (b.status == Pending && next == Confirmed)
        || (b.status == Confirmed && next == CheckedIn)
        || (b.status == CheckedIn && next == CheckedOut)
        || (next == Cancelled && (b.status == Pending || b.status == Confirmed))
        || (next == NoShow && b.status == Confirmed))
    && (next == CheckedIn && b.status != CheckedIn ==> formOk)
    && (Gone(next) && !Gone(b.status) ==> CanGiveBack(db.ledger, b.lines))
  }

  /** The booking has the new status, and its nights are given back exactly when it stops occupying them; nothing else moves. */
  ghost predicate StatusSet(db: Db, id: Id, next: Status, after: Db)
    requires id in db.bookings
  {
    var b := db.bookings[id];
    && after == db.(ledger := after.ledger, bookings := db.bookings[id := b.(status := next)])
    && CountersMove(db.ledger, after.ledger, if Gone(next) && !Gone(b.status) then b.lines else [], [])
  }

  lemma ReleaseOutcome(db: Db, id: Id, next: Status)
    requires Sound(db) && id in db.bookings && !Gone(db.bookings[id].status) && Gone(next)
    ensures ReleaseInto(db, id, next).Some? <==> CanGiveBack(db.ledger, db.bookings[id].lines)
    ensures ReleaseInto(db, id, next).Some? ==> StatusSet(db, id, next, ReleaseInto(db, id, next).value)
  {
    var lines := db.bookings[id].lines;
    BookingSafety.ReleasedIsHeld(db.bookings[id]);
    GiveBackIsReleasable(db.ledger, lines);
    ShiftMoves(db.ledger, lines, []);
    assert KeysOf([]) == {};
  }

  lemma PlainStatusOutcome(db: Db, id: Id, next: Status)
    requires id in db.bookings && (Gone(next) ==> Gone(db.bookings[id].status))
    ensures StatusSet(db, id, next, db.(bookings := db.bookings[id := db.bookings[id].(status := next)]))
  {
    NothingMoves(db.ledger);
  }

  lemma NoChangeOfStatus(db: Db, id: Id)
    requires id in db.bookings
    ensures db.(bookings := db.bookings[id := db.bookings[id].(status := db.bookings[id].status)]) == db
  {
    assert db.bookings[id := db.bookings[id].(status := db.bookings[id].status)] == db.bookings;
  }

  /** A patch that only names a status, as one release or one write. */
  lemma StatusPatchIs(db: Db, id: Id, next: Status, formOk: bool)
    requires id in db.bookings
    ensures
      var b := db.bookings[id];
      PatchBooking(db, id, BookingRules.Patch(Some(To(next)), None, None, None), formOk)
        == if !Allowed(b.status, To(next)) || (next == CheckedIn && b.status != CheckedIn && !formOk) then None
           else if Gone(next) && !Gone(b.status) then ReleaseInto(db, id, next)
           else Some(db.(bookings := db.bookings[id := b.(status := next)]))
  {
    NoChangeOfStatus(db, id);
  }

  /** A patch of the status alone is accepted exactly when the table allows it, and sets the status alone. */
  lemma StatusOutcome(db: Db, id: Id, next: Status, formOk: bool)
    requires Sound(db)
    ensures
      var result := PatchBooking(db, id, BookingRules.Patch(Some(To(next)), None, None, None), formOk);
      && (result.Some? <==> id in db.bookings && StatusAccepted(db, db.bookings[id], next, formOk))
      && (result.Some? ==> StatusSet(db, id, next, result.value))
  {
    if id in db.bookings {
      StatusPatchIs(db, id, next, formOk);
      AllowedExactly(db.bookings[id].status, next);
      if Gone(next) && !Gone(db.bookings[id].status) {
        ReleaseOutcome(db, id, next);
      } else {
        PlainStatusOutcome(db, id, next);
      }
    }
  }

  /** So a confirmed guest whose form is filled in can be checked in, and a guest who is in the house can be checked out. */
  lemma GuestsComeAndGo(db: Db, id: Id, formOk: bool)
    requires id in db.bookings
    ensures
      var b := db.bookings[id];
      var checkIn, checkOut := BookingRules.Patch(Some(To(CheckedIn)), None, None, None), BookingRules.Patch(Some(To(CheckedOut)), None, None, None);
      && (b.status == Confirmed ==>
            PatchBooking(db, id, checkIn, formOk) == if formOk then Some(db.(bookings := db.bookings[id := b.(status := CheckedIn)])) else None)
      && (b.status == CheckedIn ==> PatchBooking(db, id, checkOut, formOk) == Some(db.(bookings := db.bookings[id := b.(status := CheckedOut)])))
  {
  }

  // ----- Deletion -----

  /** A booking can be deleted until the guest is in the house, if its nights can be given back; then it is gone and they are free. */
  lemma DeleteOutcome(db: Db, id: Id)
    requires Sound(db)
    ensures
      var result := DeleteBooking(db, id);
      && (result.Some? <==>
            id in db.bookings && db.bookings[id].status != CheckedIn && db.bookings[id].status != CheckedOut
            && (!Gone(db.bookings[id].status) ==> CanGiveBack(db.ledger, db.bookings[id].lines)))
      && (result.Some? ==>
            result.value == db.(ledger := result.value.ledger, bookings := db.bookings - {id})
            && CountersMove(db.ledger, result.value.ledger, if Gone(db.bookings[id].status) then [] else db.bookings[id].lines, []))
  {
    if id in db.bookings {
      if Gone(db.bookings[id].status) {
        NothingMoves(db.ledger);
      } else {
        OccupyingDeleteOutcome(db, id);
      }
    }
  }

  lemma OccupyingDeleteOutcome(db: Db, id: Id)
    requires Sound(db) && id in db.bookings && !Gone(db.bookings[id].status)
    ensures
      var keys := ReleasedKeys(db.bookings[id].lines);
      && (Releasable(db.ledger, keys) <==> CanGiveBack(db.ledger, db.bookings[id].lines))
      && CountersMove(db.ledger, Shift(db.ledger, keys, {}), db.bookings[id].lines, [])
  {
    var lines := db.bookings[id].lines;
    BookingSafety.ReleasedIsHeld(db.bookings[id]);
    GiveBackIsReleasable(db.ledger, lines);
    ShiftMoves(db.ledger, lines, []);
    assert KeysOf([]) == {};
  }

  // ----- Rooms and dates -----

  function FirstNight(b: Booking): Date
    requires b.lines != []
  {
    b.lines[0].night
  }

  function Departure(b: Booking): Date
    requires b.lines != []
  {
    b.lines[0].night + |b.lines|
  }

  lemma NightsBetween(b: Booking)
    requires OneStay(b.lines)
    ensures NightsOf(b.lines) == StayNights(FirstNight(b), Departure(b))
    ensures Earliest(NightSeq(b.lines)) == FirstNight(b) && Latest(NightSeq(b.lines)) + 1 == Departure(b)
  {
    assert NightSeq(b.lines) == Nights(FirstNight(b), Departure(b));
    BoundsInvertNights(FirstNight(b), Departure(b));
    forall d ensures d in NightsOf(b.lines) <==> d in StayNights(FirstNight(b), Departure(b)) {
      if d in NightsOf(b.lines) {
        var i :| 0 <= i < |b.lines| && b.lines[i].night == d;
        assert Nights(FirstNight(b), Departure(b))[i] == d;
      }
      if d in StayNights(FirstNight(b), Departure(b)) {
        assert b.lines[d - FirstNight(b)].night == d;
      }
    }
  }

  /** The room may be given to the booking for these nights: it belongs to its live category and nobody else has it then. */
  ghost predicate RoomToGive(db: Db, id: Id, room: Id, checkIn: Date, checkOut: Date)
    requires id in db.bookings && db.bookings[id].lines != []
  {
    var b := db.bookings[id];
    var roomType := b.lines[0].roomType;
    OfCategory(db, room, roomType, b.property) && db.roomTypes[roomType].live && Vacant(db, room, checkIn, checkOut, id)
  }

  lemma RoomPatchIs(db: Db, id: Id, room: Option<Id>, formOk: bool)
    requires id in db.bookings && !Gone(db.bookings[id].status)
    ensures PatchBooking(db, id, BookingRules.Patch(None, None, None, Some(room)), formOk) == AssignRoom(db, id, room)
  {
  }

  lemma CanAssignExactly(db: Db, id: Id, room: Option<Id>)
    requires Sound(db) && id in db.bookings && !Gone(db.bookings[id].status)
    ensures CanAssign(db, id, room) <==>
            (room.Some? ==> RoomToGive(db, id, room.value, FirstNight(db.bookings[id]), Departure(db.bookings[id])))
  {
    var b := db.bookings[id];
    BookingSafety.ReleasedIsHeld(b);
    NightsBetween(b);
    if room.Some? {
      VacantIsFree(db, room.value, FirstNight(b), Departure(b), id);
    }
  }

  /** A patch of the room alone puts every line into the room, or into none, exactly when the room may be given. */
  lemma RoomOutcome(db: Db, id: Id, room: Option<Id>, formOk: bool)
    requires Sound(db)
    ensures
      var result := PatchBooking(db, id, BookingRules.Patch(None, None, None, Some(room)), formOk);
      && (result.Some? <==>
            id in db.bookings && !Gone(db.bookings[id].status)
            && (room.Some? ==> RoomToGive(db, id, room.value, FirstNight(db.bookings[id]), Departure(db.bookings[id]))))
      && (result.Some? ==> RoomSet(db, id, room, result.value))
  {
    if id in db.bookings && !Gone(db.bookings[id].status) {
      RoomPatchIs(db, id, room, formOk);
      CanAssignExactly(db, id, room);
    }
  }

  // ----- Dates -----

  /** The old nights can be given back, and each new night then has a rate of the booking's plan and a room left. */
  ghost predicate NightsToTake(db: Db, b: Booking, checkIn: Date, checkOut: Date)
    requires b.lines != []
  {
    && b.ratePlan.Some? && CanGiveBack(db.ledger, b.lines)
    && forall k :: InStay(k, b.lines[0].roomType, checkIn, checkOut) ==>
         && RateKey(k.roomType, b.ratePlan.value, k.night) in db.rates && k in db.ledger
         && db.ledger[k].booked + db.ledger[k].blocked - (if OnLine(b.lines, k) then 1 else 0) < db.ledger[k].total
  }

  lemma CanMoveExactly(db: Db, id: Id, checkIn: Date, checkOut: Date)
    requires Sound(db) && id in db.bookings && checkIn < checkOut
    ensures CanMove(db, id, checkIn, checkOut) <==> NightsToTake(db, db.bookings[id], checkIn, checkOut)
  {
    var b := db.bookings[id];
    BookingSafety.ReleasedIsHeld(b);
    GiveBackIsReleasable(db.ledger, b.lines);
    forall k ensures OnLine(b.lines, k) <==> k in KeysOf(b.lines) {
      OnLineIsKey(b.lines, k);
    }
    if CanMove(db, id, checkIn, checkOut) {
      forall k | InStay(k, b.lines[0].roomType, checkIn, checkOut)
        ensures RateKey(k.roomType, b.ratePlan.value, k.night) in db.rates && k in db.ledger
        ensures db.ledger[k].booked + db.ledger[k].blocked - (if OnLine(b.lines, k) then 1 else 0) < db.ledger[k].total
      {
        assert k == Key(b.lines[0].roomType, k.night) && k in StayKeys(b.lines[0].roomType, checkIn, checkOut);
      }
    }
    if NightsToTake(db, b, checkIn, checkOut) {
      forall d | checkIn <= d < checkOut ensures RateKey(b.lines[0].roomType, b.ratePlan.value, d) in db.rates {
        assert InStay(Key(b.lines[0].roomType, d), b.lines[0].roomType, checkIn, checkOut);
      }
    }
  }

  /** Moved onto other nights at their rates, and put into the room or into none; nothing else of the booking changes. */
  ghost predicate StayMoved(db: Db, id: Id, checkIn: Date, checkOut: Date, room: Option<Id>, after: Db)
    requires id in db.bookings && db.bookings[id].lines != []
  {
    && id in after.bookings && after == db.(ledger := after.ledger, bookings := db.bookings[id := after.bookings[id]])
    && (var b, c := db.bookings[id], after.bookings[id];
        && c == b.(total := c.total, lines := c.lines) && PaysItsRates(db, c)
        && LinesAre(c.lines, b.lines[0].roomType, checkIn, checkOut, room)
        && CountersMove(db.ledger, after.ledger, b.lines, c.lines))
  }

  lemma MovedOutcome(db: Db, id: Id, checkIn: Date, checkOut: Date)
    requires id in db.bookings && checkIn < checkOut && CanMove(db, id, checkIn, checkOut)
    ensures StayMoved(db, id, checkIn, checkOut, None, Moved(db, id, checkIn, checkOut))
  {
    var b, moved := db.bookings[id], Moved(db, id, checkIn, checkOut);
    var prices := NightlyRates(db, b.lines[0].roomType, b.ratePlan.value, checkIn, checkOut);
    StayLinesShape(b.lines[0].roomType, checkIn, prices, None);
    ShiftMoves(db.ledger, b.lines, moved.bookings[id].lines);
  }

  lemma PutIntoRoom(db: Db, moved: Db, id: Id, checkIn: Date, checkOut: Date, room: Option<Id>)
    requires id in db.bookings && db.bookings[id].lines != [] && StayMoved(db, id, checkIn, checkOut, None, moved)
    requires AssignRoom(moved, id, room).Some?
    ensures StayMoved(db, id, checkIn, checkOut, room, AssignRoom(moved, id, room).value)
  {
    var after := AssignRoom(moved, id, room).value;
    var lines := moved.bookings[id].lines;
    RoomKeepsPrices(lines, room);
    forall k ensures OnLine(lines, k) <==> OnLine(after.bookings[id].lines, k) {
      SameBuckets(lines, after.bookings[id].lines, k);
      SameBuckets(after.bookings[id].lines, lines, k);
    }
    assert after.bookings == db.bookings[id := after.bookings[id]];
  }

  lemma RoomKeepsPrices(lines: seq<Line>, room: Option<Id>)
    ensures Prices(WithRoom(lines, room)) == Prices(lines)
  {
  }

  lemma SameBuckets(one: seq<Line>, two: seq<Line>, k: Key)
    requires |one| == |two| && forall i :: 0 <= i < |one| ==> one[i].roomType == two[i].roomType && one[i].night == two[i].night
    ensures OnLine(one, k) ==> OnLine(two, k)
  {
  }

  lemma RebookedOutcome(db: Db, id: Id, checkIn: Date, checkOut: Date, room: Option<Id>)
    requires Sound(db) && id in db.bookings && !Gone(db.bookings[id].status) && checkIn < checkOut
    ensures
      var result := Rebooked(db, id, checkIn, checkOut, room);
      && (result.Some? <==>
            NightsToTake(db, db.bookings[id], checkIn, checkOut) && (room.Some? ==> RoomToGive(db, id, room.value, checkIn, checkOut)))
      && (result.Some? ==> StayMoved(db, id, checkIn, checkOut, room, result.value))
  {
    CanMoveExactly(db, id, checkIn, checkOut);
    if CanMove(db, id, checkIn, checkOut) {
      MovedOutcome(db, id, checkIn, checkOut);
      if room.Some? {
        Overcommitment.AssignsExactlyWhenFree(db, id, checkIn, checkOut, room.value);
        VacantIsFree(db, room.value, checkIn, checkOut, id);
        if AssignRoom(Moved(db, id, checkIn, checkOut), id, room).Some? {
          PutIntoRoom(db, Moved(db, id, checkIn, checkOut), id, checkIn, checkOut, room);
        }
      }
    }
  }

  lemma DatesPatchIs(db: Db, id: Id, newIn: Option<Date>, newOut: Option<Date>, formOk: bool)
    requires id in db.bookings && !Gone(db.bookings[id].status) && (newIn.Some? || newOut.Some?)
    ensures PatchBooking(db, id, BookingRules.Patch(None, newIn, newOut, None), formOk) == ChangeDates(db, id, newIn, newOut, true)
  {
  }

  lemma ChangeDatesIs(db: Db, id: Id, newIn: Option<Date>, newOut: Option<Date>)
    requires id in db.bookings && OneStay(db.bookings[id].lines)
    ensures
      var b := db.bookings[id];
      var checkIn, checkOut := Or(newIn, FirstNight(b)), Or(newOut, Departure(b));
      ChangeDates(db, id, newIn, newOut, true)
        == if !(1 <= checkOut - checkIn <= 365) then None
           else if checkIn == FirstNight(b) && checkOut == Departure(b) then Some(db)
           else Rebooked(db, id, checkIn, checkOut, b.lines[0].room)
  {
    NightsBetween(db.bookings[id]);
    Overcommitment.DatesOfStay(db, id, newIn, newOut, true);
  }

  /**
   A patch of the dates alone, a missing bound left as it is: accepted exactly for a stay of 1 to 365 nights whose dates
   do not change, or whose old nights can be given back, whose new nights can be taken and whose room is vacant then.
   Afterwards the booking is on the new nights at their rates in its old room.
   */
  lemma DatesOutcome(db: Db, id: Id, newIn: Option<Date>, newOut: Option<Date>, formOk: bool)
    requires Sound(db) && id in db.bookings && !Gone(db.bookings[id].status) && (newIn.Some? || newOut.Some?)
    ensures
      var b := db.bookings[id];
      var checkIn, checkOut := Or(newIn, FirstNight(b)), Or(newOut, Departure(b));
      var same := checkIn == FirstNight(b) && checkOut == Departure(b);
      var result := PatchBooking(db, id, BookingRules.Patch(None, newIn, newOut, None), formOk);
      && (result.Some? <==>
            && 1 <= checkOut - checkIn <= 365
            && (same || (NightsToTake(db, b, checkIn, checkOut) && (b.lines[0].room.Some? ==> RoomToGive(db, id, b.lines[0].room.value, checkIn, checkOut)))))
      && (result.Some? ==> if same then result.value == db else StayMoved(db, id, checkIn, checkOut, b.lines[0].room, result.value))
  {
    var b := db.bookings[id];
    var checkIn, checkOut := Or(newIn, FirstNight(b)), Or(newOut, Departure(b));
    DatesPatchIs(db, id, newIn, newOut, formOk);
    ChangeDatesIs(db, id, newIn, newOut);
    if 1 <= checkOut - checkIn <= 365 {
      RebookedOutcome(db, id, checkIn, checkOut, b.lines[0].room);
    }
  }

  lemma DatesAndRoomPatchIs(db: Db, id: Id, newIn: Option<Date>, newOut: Option<Date>, room: Option<Id>, formOk: bool)
    requires Sound(db) && id in db.bookings && !Gone(db.bookings[id].status) && (newIn.Some? || newOut.Some?)
    requires
      var b := db.bookings[id];
      Or(newIn, FirstNight(b)) != FirstNight(b) || Or(newOut, Departure(b)) != Departure(b)
    ensures
      var b := db.bookings[id];
      var checkIn, checkOut := Or(newIn, FirstNight(b)), Or(newOut, Departure(b));
      PatchBooking(db, id, BookingRules.Patch(None, newIn, newOut, Some(room)), formOk)
        == if 1 <= checkOut - checkIn <= 365 then Rebooked(db, id, checkIn, checkOut, room) else None
  {
    var b := db.bookings[id];
    var checkIn, checkOut := Or(newIn, FirstNight(b)), Or(newOut, Departure(b));
    NoRoomKept(db, id, newIn, newOut);
    DatesThenRoom(db, id, newIn, newOut, room, formOk);
    if 1 <= checkOut - checkIn <= 365 {
      MoveThenRoom(db, id, checkIn, checkOut, room);
    }
  }

  /** Two stages, one after the other. */
  ghost function InRoom(dated: Option<Db>, id: Id, room: Option<Id>): Option<Db> {
    if dated.None? then None else AssignRoom(dated.value, id, room)
  }

  lemma DatesThenRoom(db: Db, id: Id, newIn: Option<Date>, newOut: Option<Date>, room: Option<Id>, formOk: bool)
    requires id in db.bookings && !Gone(db.bookings[id].status) && (newIn.Some? || newOut.Some?)
    ensures PatchBooking(db, id, BookingRules.Patch(None, newIn, newOut, Some(room)), formOk) == InRoom(ChangeDates(db, id, newIn, newOut, false), id, room)
  {
  }

  lemma MoveThenRoom(db: Db, id: Id, checkIn: Date, checkOut: Date, room: Option<Id>)
    requires Sound(db) && id in db.bookings && !Gone(db.bookings[id].status) && checkIn < checkOut
    ensures InRoom(Rebooked(db, id, checkIn, checkOut, None), id, room) == Rebooked(db, id, checkIn, checkOut, room)
  {
    if CanMove(db, id, checkIn, checkOut) && room.None? {
      RoomlessStays(db, id, checkIn, checkOut);
    }
  }

  lemma NoRoomKept(db: Db, id: Id, newIn: Option<Date>, newOut: Option<Date>)
    requires Sound(db) && id in db.bookings && !Gone(db.bookings[id].status)
    requires
      var b := db.bookings[id];
      Or(newIn, FirstNight(b)) != FirstNight(b) || Or(newOut, Departure(b)) != Departure(b)
    ensures
      var b := db.bookings[id];
      var checkIn, checkOut := Or(newIn, FirstNight(b)), Or(newOut, Departure(b));
      ChangeDates(db, id, newIn, newOut, false) == if 1 <= checkOut - checkIn <= 365 then Rebooked(db, id, checkIn, checkOut, None) else None
  {
    NightsBetween(db.bookings[id]);
  }

  lemma RoomlessStays(db: Db, id: Id, checkIn: Date, checkOut: Date)
    requires Sound(db) && id in db.bookings && !Gone(db.bookings[id].status) && checkIn < checkOut && CanMove(db, id, checkIn, checkOut)
    ensures AssignRoom(Moved(db, id, checkIn, checkOut), id, None) == Some(Moved(db, id, checkIn, checkOut))
  {
    var moved := Moved(db, id, checkIn, checkOut);
    MovedOutcome(db, id, checkIn, checkOut);
    assert WithRoom(moved.bookings[id].lines, None) == moved.bookings[id].lines;
    assert moved.bookings[id := moved.bookings[id]] == moved.bookings;
  }

  /** With a room named as well, the booking goes into that room, or into none, and its old room does not matter. */
  lemma DatesAndRoomOutcome(db: Db, id: Id, newIn: Option<Date>, newOut: Option<Date>, room: Option<Id>, formOk: bool)
    requires Sound(db) && id in db.bookings && !Gone(db.bookings[id].status) && (newIn.Some? || newOut.Some?)
    requires
      var b := db.bookings[id];
      Or(newIn, FirstNight(b)) != FirstNight(b) || Or(newOut, Departure(b)) != Departure(b)
    ensures
      var b := db.bookings[id];
      var checkIn, checkOut := Or(newIn, FirstNight(b)), Or(newOut, Departure(b));
      var result := PatchBooking(db, id, BookingRules.Patch(None, newIn, newOut, Some(room)), formOk);
      && (result.Some? <==>
            && 1 <= checkOut - checkIn <= 365
            && NightsToTake(db, b, checkIn, checkOut) && (room.Some? ==> RoomToGive(db, id, room.value, checkIn, checkOut)))
      && (result.Some? ==> StayMoved(db, id, checkIn, checkOut, room, result.value))
  {
    var b := db.bookings[id];
    var checkIn, checkOut := Or(newIn, FirstNight(b)), Or(newOut, Departure(b));
    DatesAndRoomPatchIs(db, id, newIn, newOut, room, formOk);
    if 1 <= checkOut - checkIn <= 365 {
      RebookedOutcome(db, id, checkIn, checkOut, room);
    }
  }

  lemma StatusAloneIs(db: Db, id: Id, next: Status, formOk: bool)
    requires id in db.bookings && next != Cancelled
    ensures PatchBooking(db, id, BookingRules.Patch(Some(To(next)), None, None, None), formOk) == ChangeStatus(db, id, To(next), formOk)
  {
  }

  lemma StagesThenStatus(db: Db, id: Id, p: BookingRules.Patch, formOk: bool)
    requires id in db.bookings && p.status.Some?
    ensures
      var before := InStages(db, id, p.(status := None), formOk);
      before.Some? ==> id in before.value.bookings
    ensures
      var before := InStages(db, id, p.(status := None), formOk);
      InStages(db, id, p, formOk)
        == if before.None? then None
           else StatusStage(before.value, id, p.status, formOk, db.bookings[id].status == Confirmed && LinesExpired(db.bookings[id].lines, p))
  {
  }

  /**
   A status in a patch with other fields comes last, as if it were a second patch; only a no-show right after the lines
   were replaced and not loaded again is refused.
   */
  lemma StatusComesLast(db: Db, id: Id, p: BookingRules.Patch, next: Status, formOk: bool)
    requires id in db.bookings && !Gone(db.bookings[id].status) && p.status == Some(To(next)) && next != Cancelled
    ensures
      var alone, before := BookingRules.Patch(Some(To(next)), None, None, None), PatchBooking(db, id, p.(status := None), formOk);
      PatchBooking(db, id, p, formOk)
        == if before.None? then None
           else if next == NoShow && db.bookings[id].status == Confirmed && LinesExpired(db.bookings[id].lines, p) then None
           else PatchBooking(before.value, id, alone, formOk)
  {
    var before := PatchBooking(db, id, p.(status := None), formOk);
    StagesThenStatus(db, id, p, formOk);
    assert before == InStages(db, id, p.(status := None), formOk);
    if before.Some? {
      StatusAloneIs(before.value, id, next, formOk);
    }
  }

  /** A patch that asks for nothing is accepted even for a booking that does not exist; any other patch of such a booking is refused. */
  lemma UnknownBooking(db: Db, id: Id, p: BookingRules.Patch, formOk: bool)
    requires id !in db.bookings
    ensures PatchBooking(db, id, p, formOk) == if p.status.None? && p.checkIn.None? && p.checkOut.None? && p.room.None? then Some(db) else None
  {
  }

  /** A stay with nights in two categories keeps its counters when it is cancelled. */
  lemma MixedStayKeepsCounters(db: Db, id: Id, i: nat, j: nat, formOk: bool)
    requires id in db.bookings && db.bookings[id].status in {Pending, Confirmed}
    requires i < |db.bookings[id].lines| && j < |db.bookings[id].lines| && db.bookings[id].lines[i].roomType != db.bookings[id].lines[j].roomType
    ensures
      PatchBooking(db, id, BookingRules.Patch(Some(To(Cancelled)), None, None, None), formOk)
        == Some(db.(bookings := db.bookings[id := db.bookings[id].(status := Cancelled)]))
  {
    BookingSafety.ShiftNothing(db.ledger);
  }

  /** A cancellation ignores the other fields. */
  lemma CancellationIgnoresTheRest(db: Db, id: Id, p: BookingRules.Patch, formOk: bool)
    requires p.status == Some(To(Cancelled))
    ensures PatchBooking(db, id, p, formOk) == PatchBooking(db, id, BookingRules.Patch(Some(To(Cancelled)), None, None, None), formOk)
  {
  }

  ghost predicate RoomSet(db: Db, id: Id, room: Option<Id>, after: Db)
    requires id in db.bookings
  {
    && id in after.bookings && after == db.(bookings := db.bookings[id := after.bookings[id]])
    && after.bookings[id] == db.bookings[id].(lines := after.bookings[id].lines) && |after.bookings[id].lines| == |db.bookings[id].lines|
    && forall i :: 0 <= i < |db.bookings[id].lines| ==> after.bookings[id].lines[i] == db.bookings[id].lines[i].(room := room)
  }

  // ----- The no-show sweep -----

  /** A confirmed booking of the property that should have arrived before the day. */
  predicate Missed(b: Booking, property: Id, day: Date) {
    b.property == property && b.status == Confirmed && exists i :: 0 <= i < |b.lines| && b.lines[i].night < day
  }

  /** The missed bookings that are on a bucket. */
  function MissedOn(db: Db, property: Id, day: Date, k: Key): set<Id> {
    set x | x in db.bookings && Missed(db.bookings[x], property, day) && OnLine(db.bookings[x].lines, k)
  }

  /** Exactly the missed bookings are no-shows now, and each row counts as many rooms fewer as missed bookings were on it. */
  ghost predicate MissedSwept(db: Db, property: Id, day: Date, after: Db) {
    && after == db.(ledger := after.ledger, bookings := after.bookings)
    && after.bookings.Keys == db.bookings.Keys
    && (forall x :: x in db.bookings ==>
          after.bookings[x] == if Missed(db.bookings[x], property, day) then db.bookings[x].(status := NoShow) else db.bookings[x])
    && after.ledger.Keys == db.ledger.Keys
    && forall k :: k in db.ledger ==> after.ledger[k] == db.ledger[k].(booked := db.ledger[k].booked - |MissedOn(db, property, day, k)|)
  }

  /** Every bucket can give back all the missed bookings on it. */
  ghost predicate SweepGoesThrough(db: Db, property: Id, day: Date) {
    forall k :: MissedOn(db, property, day, k) != {} ==>
      k in db.ledger && db.ledger[k].booked + db.ledger[k].blocked <= db.ledger[k].total && db.ledger[k].booked >= |MissedOn(db, property, day, k)|
  }

  lemma {:induction false} EarliestBefore(nights: seq<Date>, day: Date)
    requires nights != []
    ensures Earliest(nights) < day <==> exists i :: 0 <= i < |nights| && nights[i] < day
  {
    var n := |nights| - 1;
    if n > 0 {
      EarliestBefore(nights[..n], day);
      if exists i :: 0 <= i < |nights| && nights[i] < day {
        var i :| 0 <= i < |nights| && nights[i] < day;
        if i < n {
          assert nights[..n][i] < day;
        }
      }
    } else {
      assert nights[0] == Earliest(nights);
    }
  }

  lemma OverdueIsMissed(db: Db, property: Id, day: Date, x: Id)
    ensures x in Audit.Overdue(db, property, day) <==> x in db.bookings && Missed(db.bookings[x], property, day)
  {
    if x in db.bookings && db.bookings[x].lines != [] {
      var lines := db.bookings[x].lines;
      EarliestBefore(NightSeq(lines), day);
      assert forall i :: 0 <= i < |lines| ==> NightSeq(lines)[i] == lines[i].night;
    }
  }

  lemma GiversAreMissed(db: Db, property: Id, day: Date, k: Key)
    requires Sound(db)
    ensures Audit.Givers(db.bookings, Audit.Overdue(db, property, day), k) == MissedOn(db, property, day, k)
  {
    forall x ensures x in Audit.Givers(db.bookings, Audit.Overdue(db, property, day), k) <==> x in MissedOn(db, property, day, k) {
      OverdueIsMissed(db, property, day, x);
      if x in db.bookings {
        BookingSafety.ReleasedIsHeld(db.bookings[x]);
        OnLineIsKey(db.bookings[x].lines, k);
      }
    }
  }

  /**
   A sweep marks all the missed bookings, and only those, when their nights can be given back; otherwise it changes
   nothing. A booking that arrives on the day or later, of another property or in another status is left alone.
   */
  lemma SweepOutcome(db: Db, property: Id, day: Date, after: Db)
    requires Sound(db) && Step(db, Sweep(property, day), after)
    ensures if SweepGoesThrough(db, property, day) then MissedSwept(db, property, day, after) else after == db
  {
    var overdue := Audit.Overdue(db, property, day);
    SweepStep(db, property, day, after);
    forall k ensures Audit.Demand(db.bookings, overdue, k) == |MissedOn(db, property, day, k)| {
      GiversAreMissed(db, property, day, k);
    }
    SweepableExactly(db, property, day);
    if Audit.CanSweep(db, overdue) {
      forall x | x in db.bookings ensures x in overdue <==> Missed(db.bookings[x], property, day) {
        OverdueIsMissed(db, property, day, x);
      }
    }
  }

  lemma SweepableExactly(db: Db, property: Id, day: Date)
    requires forall k :: Audit.Demand(db.bookings, Audit.Overdue(db, property, day), k) == |MissedOn(db, property, day, k)|
    ensures Audit.CanSweep(db, Audit.Overdue(db, property, day)) <==> SweepGoesThrough(db, property, day)
  {
    var overdue := Audit.Overdue(db, property, day);
    if Audit.CanSweep(db, overdue) {
      forall k | MissedOn(db, property, day, k) != {}
        ensures k in db.ledger && db.ledger[k].booked + db.ledger[k].blocked <= db.ledger[k].total && db.ledger[k].booked >= |MissedOn(db, property, day, k)|
      {
        assert |MissedOn(db, property, day, k)| > 0;
        assert Audit.Demand(db.bookings, overdue, k) > 0;
        assert Audit.Gives(db, overdue, k);
      }
    }
    if SweepGoesThrough(db, property, day) {
      forall k | Audit.Demand(db.bookings, overdue, k) > 0 ensures Audit.Gives(db, overdue, k) {
        assert MissedOn(db, property, day, k) != {};
      }
    }
  }
}
