/** Booking transactions: step by step on the session, rolled back when an exception leaves. */
module BookingService {
  import opened Base
  import opened BookingStatus
  import opened Inventory
  import opened StayDates
  import opened Stays
  import opened AvailabilityLock
  import opened BookingRules
  import BookingSafety

  // ----- Pricing -----

  /** Total and nightly prices of a stay; None when a night has no rate. */
  method SumRatesForStay(s: Session, roomType: Id, ratePlan: Id, checkIn: Date, checkOut: Date)
    returns (total: Cents, prices: Option<seq<Cents>>)
    requires checkIn <= checkOut
    ensures prices.Some? <==> HasRates(s.Tables(), roomType, ratePlan, checkIn, checkOut)
    ensures prices.Some? ==> prices.value == NightlyRates(s.Tables(), roomType, ratePlan, checkIn, checkOut) && total == Sum(prices.value)
  {
    var out: seq<Cents> := [];
    total := 0;
    var d := checkIn;
    while d < checkOut
      invariant checkIn <= d <= checkOut
      invariant HasRates(s.Tables(), roomType, ratePlan, checkIn, d)
      invariant out == NightlyRates(s.Tables(), roomType, ratePlan, checkIn, d) && total == Sum(out)
    {
      var k := RateKey(roomType, ratePlan, d);
      if k !in s.rates {
        return 0, None;
      }
      SumAppend(out, s.rates[k].price);
      out, total := out + [s.rates[k].price], total + s.rates[k].price;
      d := d + 1;
    }
    prices := Some(out);
  }

  // ----- Rooms -----

  /** First physical room of the category, by name, with no overlapping occupying booking. */
  method PickFirstFreeRoom(s: Session, roomType: Id, property: Id, nights: set<Date>, id: Id) returns (pick: Option<Id>)
    ensures FirstFree(s.Tables(), roomType, property, nights, id, pick)
  {
    if !(roomType in s.roomTypes && s.roomTypes[roomType].property == property) {
      return None;
    }
    var left := LiveRooms(s.rooms, roomType);
    while left != {}
      invariant left <= LiveRooms(s.rooms, roomType)
      invariant forall r :: r in LiveRooms(s.rooms, roomType) - left ==> !Free(s.bookings, r, nights, id)
    {
      ghost var least := LeastByName(s.rooms, left);
      var room :| room in left && IsLeast(s.rooms, left, room);
      if Free(s.bookings, room, nights, id) {
        assert FreeRooms(s.Tables(), roomType, property, nights, id) <= left;
        assert IsLeast(s.rooms, left, room);
        return Some(room);
      }
      left := left - {room};
    }
    return None;
  }

  method AssignBookingRoom(s: Session, id: Id, room: Option<Id>) returns (ok: bool)
    modifies s`bookings
    ensures ok == AssignRoom(old(s.Tables()), id, room).Some?
    ensures s.Tables() == if ok then AssignRoom(old(s.Tables()), id, room).value else old(s.Tables())
  {
    if id !in s.bookings || !s.bookings[id].Active() {
      return false;
    }
    var b := s.bookings[id];
    if !OneCategory(b.lines) {
      return false;
    }
    if room.Some? {
      var roomType := b.lines[0].roomType;
      if room.value !in s.rooms || !s.rooms[room.value].live || s.rooms[room.value].roomType != roomType {
        return false;
      }
      if roomType !in s.roomTypes || !s.roomTypes[roomType].live || s.roomTypes[roomType].property != b.property {
        return false;
      }
      if !Free(s.bookings, room.value, NightsOf(b.lines), id) {
        return false;
      }
    }
    var lines := b.lines;
    for i := 0 to |lines|
      invariant |lines| == |b.lines|
      invariant forall j :: 0 <= j < |lines| ==> lines[j] == if j < i then b.lines[j].(room := room) else b.lines[j]
    {
      lines := lines[i := lines[i].(room := room)];
    }
    assert lines == WithRoom(b.lines, room);
    s.bookings := s.bookings[id := b.(lines := lines)];
    return true;
  }

  method AddLines(roomType: Id, checkIn: Date, prices: seq<Cents>) returns (lines: seq<Line>)
    ensures lines == StayLines(roomType, checkIn, prices, None)
  {
    lines := [];
    for i := 0 to |prices|
      invariant lines == StayLines(roomType, checkIn, prices[..i], None)
    {
      lines := lines + [Line(roomType, checkIn + i, None, prices[i])];
    }
    assert prices[..|prices|] == prices;
  }

  // ----- Create -----

  method CreateBooking(s: Session, r: CreateRequest, id: Id) returns (ok: bool, room: Option<Id>)
    requires id !in s.bookings
    modifies s
    ensures ok == CanCreate(old(s.Tables()), r)
    ensures ok ==> FirstFree(old(s.Tables()), r.roomType, r.property, StayNights(r.checkIn, r.checkOut), id, room)
    ensures s.Tables() == if ok then AfterCreate(old(s.Tables()), r, id, room) else old(s.Tables())
  {
    room := None;
    var committed := s.Tables();
    var nights := IterStayNights(r.checkIn, r.checkOut);
    if nights.None? {
      return false, None;
    }
    if r.external.Some? && exists x :: x in s.bookings && s.bookings[x].external == r.external {
      return false, None;
    }
    if r.roomType !in s.roomTypes || !s.roomTypes[r.roomType].live || s.roomTypes[r.roomType].property != r.property {
      return false, None;
    }
    if r.ratePlan !in s.ratePlans || s.ratePlans[r.ratePlan] != r.property {
      return false, None;
    }
    var total, prices := SumRatesForStay(s, r.roomType, r.ratePlan, r.checkIn, r.checkOut);
    if prices.None? {
      return false, None;
    }
    var claim := ClaimForNewBooking(s, StayKeys(r.roomType, r.checkIn, r.checkOut));
    if claim != Locked {
      s.Rollback(committed);
      return false, None;
    }
    if !r.guestOk {
      s.Rollback(committed);
      return false, None;
    }
    var header := Booking(if r.confirmed then Confirmed else Pending, r.property, Some(r.ratePlan), r.external, total, []);
    ok, room := StoreBooking(s, id, header, r.roomType, r.checkIn, r.checkOut, prices.value);
  }

  /** Adds the header and lines of a booking and gives it the first free room, if any; a room of a deleted category is refused. */
  method StoreBooking(s: Session, id: Id, header: Booking, roomType: Id, checkIn: Date, checkOut: Date, prices: seq<Cents>)
    returns (ok: bool, room: Option<Id>)
    requires id !in s.bookings && header.Active()
    requires checkIn < checkOut && |prices| == checkOut - checkIn
    modifies s`bookings
    ensures FirstFree(old(s.Tables()), roomType, header.property, StayNights(checkIn, checkOut), id, room)
    ensures ok == (room.Some? ==> s.roomTypes[roomType].live)
    ensures ok ==> s.bookings == old(s.bookings)[id := header.(lines := StayLines(roomType, checkIn, prices, room))]
  {
    ghost var before := s.Tables();
    var lines := AddLines(roomType, checkIn, prices);
    StayLinesShape(roomType, checkIn, prices, None);
    NightsOfStay(roomType, checkIn, checkOut, prices);
    s.bookings := s.bookings[id := header.(lines := lines)];
    room := PickFirstFreeRoom(s, roomType, header.property, NightsOf(lines), id);
    OthersDecideFree(before, s.Tables(), roomType, header.property, NightsOf(lines), id);
    ok := true;
    if room.Some? {
      ok := AssignBookingRoom(s, id, room);
    }
    assert WithRoom(lines, room) == StayLines(roomType, checkIn, prices, room);
  }

  lemma NightsOfStay(roomType: Id, checkIn: Date, checkOut: Date, prices: seq<Cents>)
    requires checkIn <= checkOut && |prices| == checkOut - checkIn
    ensures NightsOf(StayLines(roomType, checkIn, prices, None)) == StayNights(checkIn, checkOut)
  {
    var lines := StayLines(roomType, checkIn, prices, None);
    forall d ensures d in NightsOf(lines) <==> d in StayNights(checkIn, checkOut) {
      if d in NightsOf(lines) {
        var i :| 0 <= i < |lines| && lines[i].night == d;
        assert Nights(checkIn, checkOut)[i] == d;
      }
      if d in StayNights(checkIn, checkOut) {
        assert lines[d - checkIn].night == d;
      }
    }
  }

  /** Which rooms are free for a booking does not depend on the booking itself. */
  lemma OthersDecideFree(before: Db, after: Db, roomType: Id, property: Id, nights: set<Date>, id: Id)
    requires after.rooms == before.rooms && after.roomTypes == before.roomTypes
    requires after.bookings - {id} == before.bookings - {id}
    ensures FreeRooms(after, roomType, property, nights, id) == FreeRooms(before, roomType, property, nights, id)
  {
    forall r ensures Free(after.bookings, r, nights, id) <==> Free(before.bookings, r, nights, id) {
      FreeDependsOnOthers(before.bookings, after.bookings, r, nights, id);
      FreeDependsOnOthers(after.bookings, before.bookings, r, nights, id);
    }
  }

  lemma FreeDependsOnOthers(one: Bookings, two: Bookings, r: Id, nights: set<Date>, id: Id)
    requires one - {id} == two - {id}
    ensures Free(one, r, nights, id) ==> Free(two, r, nights, id)
  {
    forall x | Free(one, r, nights, id) && x in two && x != id && two[x].Active()
      ensures Avoids(two[x].lines, r, nights)
    {
      assert x in two - {id} && (two - {id})[x] == two[x] && (one - {id})[x] == one[x];
    }
  }

  // ----- Release, cancel, delete -----

  /** Gives back the nights of a booking; the session is dirty when it fails. */
  method ReleaseBookingInventory(s: Session, lines: seq<Line>) returns (ok: bool)
    modifies s`ledger
    ensures ok == Releasable(old(s.ledger), ReleasedKeys(lines))
    ensures ok ==> s.ledger == Shift(old(s.ledger), ReleasedKeys(lines), {})
  {
    if !OneCategory(lines) {
      BookingSafety.ShiftNothing(s.ledger);
      return true;
    }
    ok := ReleaseNights(s, KeysOf(lines));
  }

  method DeleteBooking(s: Session, id: Id) returns (ok: bool)
    modifies s
    ensures ok == BookingRules.DeleteBooking(old(s.Tables()), id).Some?
    ensures s.Tables() == if ok then BookingRules.DeleteBooking(old(s.Tables()), id).value else old(s.Tables())
  {
    var committed := s.Tables();
    if id !in s.bookings {
      return false;
    }
    var b := s.bookings[id];
    if b.status == CheckedIn || b.status == CheckedOut {
      return false;
    }
    if b.Active() {
      ok := ReleaseBookingInventory(s, b.lines);
      if !ok {
        s.Rollback(committed);
        return false;
      }
    }
    s.bookings := s.bookings - {id};
    return true;
  }

  // ----- Patch -----

  /**
   The dates stage; the session is dirty when it fails. `expired` says that the lines were replaced behind the session's
   back and not loaded again.
   */
  method ChangeDates(s: Session, id: Id, newIn: Option<Date>, newOut: Option<Date>, keepRoom: bool) returns (ok: bool, expired: bool)
    requires id in s.bookings
    modifies s`ledger, s`bookings
    ensures ok == BookingRules.ChangeDates(old(s.Tables()), id, newIn, newOut, keepRoom).Some?
    ensures ok ==> s.Tables() == BookingRules.ChangeDates(old(s.Tables()), id, newIn, newOut, keepRoom).value
    ensures
      var lines := old(s.bookings)[id].lines;
      ok ==> expired == (DatesMove(lines, newIn, newOut) && (keepRoom ==> UnifiedRoom(lines).None?))
  {
    var b := s.bookings[id];
    if b.lines == [] {
      return false, false;
    }
    var oldIn, oldOut := StayBounds(NightSeq(b.lines));
    var restored;
    ok, restored := ChangeFrom(s, id, oldIn, oldOut, newIn, newOut, keepRoom);
    expired := restored.None? && BoundsMove(oldIn, oldOut, newIn, newOut);
  }

  /** A change of dates that puts the booking back into its room, if any; the session is dirty when it fails. */
  method ChangeFrom(s: Session, id: Id, oldIn: Date, oldOut: Date, newIn: Option<Date>, newOut: Option<Date>, keepRoom: bool)
    returns (ok: bool, prior: Option<Id>)
    requires id in s.bookings
    modifies s`ledger, s`bookings
    ensures
      var room := if keepRoom then UnifiedRoom(old(s.bookings)[id].lines) else None;
      && ok == BookingRules.ChangeFrom(old(s.Tables()), id, oldIn, oldOut, newIn, newOut, room).Some?
      && (ok ==> s.Tables() == BookingRules.ChangeFrom(old(s.Tables()), id, oldIn, oldOut, newIn, newOut, room).value)
      && (ok && BoundsMove(oldIn, oldOut, newIn, newOut) ==> prior == room)
  {
    var b := s.bookings[id];
    prior := None;
    var checkIn, checkOut := Or(newIn, oldIn), Or(newOut, oldOut);
    if checkOut <= checkIn || checkOut - checkIn > MAX_STAY_NIGHTS {
      return false, None;
    }
    if checkIn == oldIn && checkOut == oldOut {
      return true, None;
    }
    if b.ratePlan.None? || !OneCategory(b.lines) {
      return false, None;
    }
    if keepRoom {
      prior := ReadUnifiedRoom(b.lines);
    }
    ok := MoveStay(s, id, checkIn, checkOut, prior);
  }

  /** Moves the nights, reprices them, and puts the booking back into its room; the session is dirty when it fails. */
  method MoveStay(s: Session, id: Id, checkIn: Date, checkOut: Date, prior: Option<Id>) returns (ok: bool)
    requires id in s.bookings && checkIn <= checkOut && s.bookings[id].ratePlan.Some? && OneCategory(s.bookings[id].lines)
    modifies s`ledger, s`bookings
    ensures ok == BookingRules.Rebooked(old(s.Tables()), id, checkIn, checkOut, prior).Some?
    ensures ok ==> s.Tables() == BookingRules.Rebooked(old(s.Tables()), id, checkIn, checkOut, prior).value
  {
    var b := s.bookings[id];
    var roomType := b.lines[0].roomType;
    ok := ReleaseNights(s, KeysOf(b.lines));
    if !ok {
      return false;
    }
    var total, prices := SumRatesForStay(s, roomType, b.ratePlan.value, checkIn, checkOut);
    if prices.None? {
      return false;
    }
    ok := BookNights(s, StayKeys(roomType, checkIn, checkOut));
    if !ok {
      return false;
    }
    ShiftIsReleaseThenBook(old(s.ledger), KeysOf(b.lines), StayKeys(roomType, checkIn, checkOut));
    var lines := AddLines(roomType, checkIn, prices.value);
    s.bookings := s.bookings[id := b.(total := total, lines := lines)];
    if prior.Some? {
      ok := AssignBookingRoom(s, id, prior);
    }
  }

  /** Locks the rows with no room asked for and lowers them in memory; the session is dirty when it fails. */
  method ReleaseNights(s: Session, keys: set<Key>) returns (ok: bool)
    modifies s`ledger
    ensures ok == Releasable(old(s.ledger), keys)
    ensures ok ==> s.ledger == Shift(old(s.ledger), keys, {})
  {
    var lock := LockAndValidate(s, keys, 0);
    if lock != Locked {
      return false;
    }
    ghost var visited;
    ok, visited := DecrementBookedRooms(s, keys);
  }

  /** Locks and raises rows, which may be among those just lowered. */
  method BookNights(s: Session, keys: set<Key>) returns (ok: bool)
    modifies s`ledger
    ensures ok == Covers(old(s.ledger), keys, 1)
    ensures ok ==> s.ledger == Shift(old(s.ledger), {}, keys)
  {
    var lock := LockAndValidate(s, keys, 1);
    if lock != Locked {
      return false;
    }
    IncrementBookedRooms(s, keys);
    ok := true;
  }

  method ReadUnifiedRoom(lines: seq<Line>) returns (room: Option<Id>)
    ensures room == UnifiedRoom(lines)
  {
    var inUse := AssignedRooms(lines);
    if |inUse| != 1 {
      return None;
    }
    var r :| r in inUse;
    assert inUse == {r} by {
      SubsetOfSameSize({r}, inUse);
    }
    return Some(r);
  }

  /** The status stage; the session is dirty when it fails. */
  method ChangeStatus(s: Session, id: Id, request: StatusRequest, formOk: bool) returns (ok: bool)
    requires id in s.bookings
    modifies s`ledger, s`bookings
    ensures ok == BookingRules.ChangeStatus(old(s.Tables()), id, request, formOk).Some?
    ensures ok ==> s.Tables() == BookingRules.ChangeStatus(old(s.Tables()), id, request, formOk).value
  {
    var b := s.bookings[id];
    if !Allowed(b.status, request) {
      return false;
    }
    if request.status == CheckedIn && b.status != CheckedIn && !formOk {
      return false;
    }
    if request.status == NoShow && b.status == Confirmed {
      ok := ReleaseBookingInventory(s, b.lines);
      if !ok {
        return false;
      }
    }
    s.bookings := s.bookings[id := b.(status := request.status)];
    return true;
  }

  method PatchBooking(s: Session, id: Id, p: Patch, formOk: bool) returns (ok: bool)
    modifies s
    ensures ok == BookingRules.PatchBooking(old(s.Tables()), id, p, formOk).Some?
    ensures s.Tables() == if ok then BookingRules.PatchBooking(old(s.Tables()), id, p, formOk).value else old(s.Tables())
  {
    var committed := s.Tables();
    ok := PatchStages(s, id, p, formOk);
    if !ok {
      s.Rollback(committed);
    }
  }

  /** Cancelling ends the patch; the session is dirty when it fails. */
  method CancelBooking(s: Session, id: Id) returns (ok: bool)
    requires id in s.bookings
    modifies s`ledger, s`bookings
    ensures ok == BookingRules.Cancel(old(s.Tables()), id).Some?
    ensures ok ==> s.Tables() == BookingRules.Cancel(old(s.Tables()), id).value
  {
    var b := s.bookings[id];
    if b.status != Cancelled {
      if !Allowed(b.status, To(Cancelled)) {
        return false;
      }
      ok := ReleaseBookingInventory(s, b.lines);
      if !ok {
        return false;
      }
      s.bookings := s.bookings[id := b.(status := Cancelled)];
    }
    return true;
  }

  method PatchStages(s: Session, id: Id, p: Patch, formOk: bool) returns (ok: bool)
    modifies s`ledger, s`bookings
    ensures ok == BookingRules.PatchBooking(old(s.Tables()), id, p, formOk).Some?
    ensures ok ==> s.Tables() == BookingRules.PatchBooking(old(s.Tables()), id, p, formOk).value
  {
    if p == Patch(None, None, None, None) {
      return true;
    }
    if id !in s.bookings {
      return false;
    }
    var b := s.bookings[id];
    if p.status == Some(To(Cancelled)) {
      ok := CancelBooking(s, id);
      return;
    }
    if !b.Active() {
      if p.status.Some? && !Allowed(b.status, p.status.value) {
        return false;
      }
      if p.checkIn.Some? || p.checkOut.Some? || p.room.Some? {
        return false;
      }
    }
    ok := RunStages(s, id, p, formOk);
  }

  method RunStages(s: Session, id: Id, p: Patch, formOk: bool) returns (ok: bool)
    requires id in s.bookings
    modifies s`ledger, s`bookings
    ensures ok == InStages(old(s.Tables()), id, p, formOk).Some?
    ensures ok ==> s.Tables() == InStages(old(s.Tables()), id, p, formOk).value
  {
    ok := true;
    var prev, expired := s.bookings[id].status, false;
    if p.checkIn.Some? || p.checkOut.Some? {
      ok, expired := ChangeDates(s, id, p.checkIn, p.checkOut, p.room.None?);
      if !ok {
        return false;
      }
    }
    if p.room.Some? {
      ok := AssignBookingRoom(s, id, p.room.value);
      if !ok {
        return false;
      }
      expired := false;
    }
    ok := RunStatus(s, id, p.status, formOk, prev == Confirmed && expired);
  }

  method RunStatus(s: Session, id: Id, request: Option<StatusRequest>, formOk: bool, linesLost: bool) returns (ok: bool)
    requires id in s.bookings
    modifies s`ledger, s`bookings
    ensures ok == StatusStage(old(s.Tables()), id, request, formOk, linesLost).Some?
    ensures ok ==> s.Tables() == StatusStage(old(s.Tables()), id, request, formOk, linesLost).value
  {
    if request.None? {
      return true;
    }
    if request.value == To(NoShow) && linesLost {
      return false;
    }
    ok := ChangeStatus(s, id, request.value, formOk);
  }
}
