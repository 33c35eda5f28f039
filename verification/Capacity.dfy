/** Totals over runs: cached room counts stay exact, and no night is over-committed unless rooms are taken away. */
module Capacity {
  import opened Base
  import opened BookingStatus
  import opened Inventory
  import opened BookingRules
  import opened BookingSafety
  import opened Operations
  import Channex = ChannexRules
  import Rooms = RoomService
  import Seed = LedgerSeed

  /** Only counters and bookings differ, and no bucket that had room is over-committed. */
  ghost predicate MovesCounters(db: Db, after: Db) {
    && after == db.(ledger := after.ledger, bookings := after.bookings) && after.ledger.Keys == db.ledger.Keys
    && (forall k :: k in db.ledger ==> after.ledger[k].total == db.ledger[k].total && after.ledger[k].blocked == db.ledger[k].blocked)
    && (WithinCapacity(db.ledger) ==> WithinCapacity(after.ledger))
  }

  lemma ShiftMovesCounters(db: Db, release: set<Key>, book: set<Key>, bookings: Bookings)
    requires Covers(Shift(db.ledger, release, {}), book, 1)
    ensures MovesCounters(db, db.(ledger := Shift(db.ledger, release, book), bookings := bookings))
  {
    var after := Shift(db.ledger, release, book);
    forall k | k in after && WithinCapacity(db.ledger) ensures after[k].Available() >= 0 {
      assert k in book ==> Shift(db.ledger, release, {})[k].Available() >= 1;
    }
  }

  lemma ReleaseMovesCounters(db: Db, id: Id, status: Status)
    requires id in db.bookings && ReleaseInto(db, id, status).Some?
    ensures MovesCounters(db, ReleaseInto(db, id, status).value)
  {
    ShiftMovesCounters(db, ReleasedKeys(db.bookings[id].lines), {}, db.bookings[id := db.bookings[id].(status := status)]);
  }

  lemma MovesTwice(db: Db, mid: Db, after: Db)
    requires MovesCounters(db, mid) && MovesCounters(mid, after)
    ensures MovesCounters(db, after)
  {
  }

  lemma AssignMovesNothing(db: Db, id: Id, room: Option<Id>)
    requires AssignRoom(db, id, room).Some?
    ensures MovesCounters(db, AssignRoom(db, id, room).value) && id in AssignRoom(db, id, room).value.bookings
  {
  }

  lemma MoveMovesCounters(db: Db, id: Id, checkIn: Date, checkOut: Date)
    requires id in db.bookings && checkIn <= checkOut && CanMove(db, id, checkIn, checkOut)
    ensures MovesCounters(db, Moved(db, id, checkIn, checkOut)) && id in Moved(db, id, checkIn, checkOut).bookings
  {
    var lines := db.bookings[id].lines;
    ShiftMovesCounters(db, KeysOf(lines), StayKeys(lines[0].roomType, checkIn, checkOut), Moved(db, id, checkIn, checkOut).bookings);
  }

  lemma RebookMovesCounters(db: Db, id: Id, checkIn: Date, checkOut: Date, room: Option<Id>, after: Db)
    requires id in db.bookings && checkIn <= checkOut && Rebooked(db, id, checkIn, checkOut, room) == Some(after)
    ensures MovesCounters(db, after) && id in after.bookings
  {
    var moved := Moved(db, id, checkIn, checkOut);
    MoveMovesCounters(db, id, checkIn, checkOut);
    if room.Some? {
      AssignMovesNothing(moved, id, room);
      MovesTwice(db, moved, after);
    }
  }

  lemma ChangeDatesMovesCounters(db: Db, id: Id, newIn: Option<Date>, newOut: Option<Date>, keepRoom: bool, after: Db)
    requires id in db.bookings && ChangeDates(db, id, newIn, newOut, keepRoom) == Some(after)
    ensures MovesCounters(db, after) && id in after.bookings
  {
    if after != db {
      var checkIn, checkOut, room := ChangeDatesRebooks(db, id, newIn, newOut, keepRoom, after);
      RebookMovesCounters(db, id, checkIn, checkOut, room, after);
    }
  }

  lemma ChangeStatusMovesCounters(db: Db, id: Id, request: StatusRequest, formOk: bool, after: Db)
    requires id in db.bookings && ChangeStatus(db, id, request, formOk) == Some(after)
    ensures MovesCounters(db, after)
  {
    if request.status == NoShow && db.bookings[id].status == Confirmed {
      ReleaseMovesCounters(db, id, NoShow);
    }
  }

  lemma PatchMovesCounters(db: Db, id: Id, p: BookingRules.Patch, formOk: bool, after: Db)
    requires PatchBooking(db, id, p, formOk) == Some(after)
    ensures MovesCounters(db, after)
  {
    if p == BookingRules.Patch(None, None, None, None) {
    } else if p.status == Some(To(Cancelled)) {
      if db.bookings[id].status != Cancelled {
        ReleaseMovesCounters(db, id, Cancelled);
      }
    } else {
      var dated, roomed := PatchGoesInStages(db, id, p, formOk, after);
      StagesMoveCounters(db, id, p, formOk, dated, roomed, after);
    }
  }

  lemma StagesMoveCounters(db: Db, id: Id, p: BookingRules.Patch, formOk: bool, dated: Db, roomed: Db, after: Db)
    requires Staged(db, id, p, formOk, dated, roomed, after)
    ensures MovesCounters(db, after)
  {
    if p.checkIn.Some? || p.checkOut.Some? {
      ChangeDatesMovesCounters(db, id, p.checkIn, p.checkOut, p.room.None?, dated);
    }
    if p.room.Some? {
      AssignMovesNothing(dated, id, p.room.value);
      MovesTwice(db, dated, roomed);
    }
    if p.status.Some? {
      ChangeStatusMovesCounters(roomed, id, p.status.value, formOk, after);
      MovesTwice(db, roomed, after);
    }
  }

  lemma ImportMovesCounters(db: Db, r: Channex.Request, guestOk: bool, id: Id, after: Db, found: Option<Id>, a: Channex.Applied)
    requires Imports(db, r, guestOk, id, after, found, a)
    ensures MovesCounters(db, after)
  {
    ShiftNothing(db.ledger);
    if a.outcome != Channex.Raised {
      ShiftMovesCounters(db, a.released, a.booked, Channex.Apply(db, a).bookings);
    }
  }

  lemma SweepMovesCounters(db: Db, property: Id, day: Date, after: Db)
    requires Step(db, Sweep(property, day), after)
    ensures MovesCounters(db, after)
  {
    SweepStep(db, property, day, after);
  }

  lemma CreateMovesCounters(db: Db, r: CreateRequest, id: Id, after: Db)
    requires Step(db, Create(r, id), after)
    ensures MovesCounters(db, after)
  {
    ShiftNothing(db.ledger);
    if CanCreate(db, r) {
      ShiftMovesCounters(db, {}, StayKeys(r.roomType, r.checkIn, r.checkOut), after.bookings);
    }
  }

  lemma DeleteMovesCounters(db: Db, id: Id)
    requires DeleteBooking(db, id).Some?
    ensures MovesCounters(db, DeleteBooking(db, id).value)
  {
    if db.bookings[id].Active() {
      ShiftMovesCounters(db, ReleasedKeys(db.bookings[id].lines), {}, db.bookings - {id});
    }
  }

  lemma BookingOperationMovesCounters(db: Db, op: Operation, after: Db)
    requires Step(db, op, after) && ActsOnBookings(op)
    ensures MovesCounters(db, after)
  {
    match op
    case Create(r, id) => CreateMovesCounters(db, r, id, after);
    case Patch(id, p, formOk) => if PatchBooking(db, id, p, formOk).Some? { PatchMovesCounters(db, id, p, formOk, after); }
    case Delete(id) => if DeleteBooking(db, id).Some? { DeleteMovesCounters(db, id); }
    case Import(r, guestOk, id) =>
      var found, a :| Imports(db, r, guestOk, id, after, found, a);
      ImportMovesCounters(db, r, guestOk, id, after, found, a);
    case Sweep(property, day) => SweepMovesCounters(db, property, day, after);
  }

  // ----- Cached capacity -----

  lemma RoomStepKeepsCache(db: Db, op: Operation, after: Db)
    requires CapacityCached(db) && ActsOnRooms(op) && RoomStep(db, op, after)
    ensures CapacityCached(after)
  {
    match op
    case AddRoom(id, t, item) => if Rooms.CreateRoom(db, id, t, item).Some? { Rooms.CreateRoomKeepsCache(db, id, t, item); }
    case AddRooms(ids, t, items, skip) => if Rooms.CanCreateBulk(db, t, items, skip) { Rooms.BulkCreateKeepsCache(db, ids, t, items); }
    case EditRoom(id, edit) => if Rooms.PatchRoom(db, id, edit).Some? { Rooms.PatchRoomKeepsCache(db, id, edit); }
    case RemoveRoom(id) => if Rooms.SoftDeleteRoom(db, id).Some? { Rooms.SoftDeleteKeepsCache(db, id); }
  }

  lemma TableStepKeepsCache(db: Db, op: Operation, after: Db)
    requires CapacityCached(db) && !ActsOnBookings(op) && !ActsOnRooms(op) && TableStep(db, op, after)
    ensures CapacityCached(after)
  {
    match op
    case SeedBulk(segments) => Seed.SeedKeepsCounters(db, segments);
    case Extend(extra) => Seed.ExtensionKeepsCounters(db, after.ledger, extra);
    case AddRoomType(id, property) => Seed.RoomTypeKeepsCounters(db, id, property);
    case _ =>
  }

  lemma StepKeepsCache(db: Db, op: Operation, after: Db)
    requires CapacityCached(db) && Step(db, op, after)
    ensures CapacityCached(after)
  {
    if ActsOnBookings(op) {
      BookingOperationMovesCounters(db, op, after);
    } else if ActsOnRooms(op) {
      RoomStepKeepsCache(db, op, after);
    } else {
      TableStepKeepsCache(db, op, after);
    }
  }

  lemma NextKeepsCache(dbs: seq<Db>, ops: seq<Operation>, i: nat)
    requires Run(dbs, ops) && i < |ops| && CapacityCached(dbs[i])
    ensures CapacityCached(dbs[i + 1])
  {
    assert StepAt(dbs, ops, i);
    StepKeepsCache(dbs[i], ops[i], dbs[i + 1]);
  }

  /** From today on, cached totals equal live rooms, in every state of every run, revisions of any kind included. */
  lemma {:induction false} RunKeepsCache(dbs: seq<Db>, ops: seq<Operation>, n: nat)
    requires Run(dbs, ops) && n < |dbs| && CapacityCached(dbs[0])
    ensures CapacityCached(dbs[n])
  {
    if n > 0 {
      RunKeepsCache(dbs, ops, n - 1);
      NextKeepsCache(dbs, ops, n - 1);
    }
  }

  // ----- Capacity -----

  /** Room edits and seeding rewrite totals; all other operations never over-commit a night. */
  predicate RewritesTotals(op: Operation) {
    op.SeedBulk? || ActsOnRooms(op)
  }

  lemma StepKeepsCapacity(db: Db, op: Operation, after: Db)
    requires WithinCapacity(db.ledger) && Step(db, op, after) && !RewritesTotals(op)
    ensures WithinCapacity(after.ledger)
  {
    if ActsOnBookings(op) {
      BookingOperationMovesCounters(db, op, after);
    } else if op.Extend? {
      Seed.ExtensionKeepsCounters(db, after.ledger, op.extra);
    } else if op.AddRoomType? {
      Seed.RoomTypeKeepsCounters(db, op.id, op.property);
    }
  }

  /** The rooms there are once the operation went through, or was refused. */
  function RoomsAfter(db: Db, op: Operation): map<Id, Room>
    requires ActsOnRooms(op) && (op.AddRooms? ==> |op.items| <= |op.ids|)
  {
    match op
    case AddRoom(id, t, item) => Committed(db, Rooms.CreateRoom(db, id, t, item)).rooms
    case AddRooms(ids, t, items, skip) => if Rooms.CanCreateBulk(db, t, items, skip) then Rooms.CreatedInBulk(db, ids, t, items).rooms else db.rooms
    case EditRoom(id, edit) => Committed(db, Rooms.PatchRoom(db, id, edit)).rooms
    case RemoveRoom(id) => Committed(db, Rooms.SoftDeleteRoom(db, id)).rooms
  }

  /** The operation leaves every bucket as many live rooms as it is committed to. */
  ghost predicate LeavesRoom(db: Db, op: Operation)
    requires RewritesTotals(op) && (op.AddRooms? ==> |op.items| <= |op.ids|)
  {
    forall k :: k in db.ledger && Refreshes(db, op, k) ==>
      db.ledger[k].booked + db.ledger[k].blocked <= |LiveRooms(if op.SeedBulk? then db.rooms else RoomsAfter(db, op), k.roomType)|
  }

  /** The operation sets the total of the bucket anew. */
  predicate Refreshes(db: Db, op: Operation, k: Key)
    requires RewritesTotals(op)
  {
    match op
    case SeedBulk(segments) => Seed.KnownTypes(db, segments) && Seed.Seeds(segments, k)
    case AddRoom(id, t, item) => k.night >= db.today && k.roomType == t && Rooms.CreateRoom(db, id, t, item).Some?
    case AddRooms(ids, t, items, skip) =>
      k.night >= db.today && k.roomType == t && Rooms.CanCreateBulk(db, t, items, skip)
      && Rooms.Filtered(items, Rooms.NamesInUse(db.rooms, t), false) != []
    case EditRoom(id, edit) =>
      k.night >= db.today && Rooms.PatchRoom(db, id, edit).Some?
      && (var former, target := db.rooms[id].roomType, Or(edit.newType, db.rooms[id].roomType);
          target != former && (k.roomType == former || k.roomType == target))
    case RemoveRoom(id) => k.night >= db.today && Rooms.SoftDeleteRoom(db, id).Some? && k.roomType == db.rooms[id].roomType
  }

  /** What such an operation does to a row. */
  ghost predicate RowRefreshed(before: Ledger, after: Ledger, k: Key, refreshed: bool, live: nat) {
    if k in before then k in after && after[k] == if refreshed then before[k].(total := live) else before[k]
    else k in after ==> after[k] == Row(live, 0, 0)
  }

  lemma AddRoomsRefreshes(db: Db, op: Operation, after: Db, k: Key)
    requires op.AddRooms? && RoomStep(db, op, after)
    ensures RowRefreshed(db.ledger, after.ledger, k, Refreshes(db, op, k), |LiveRooms(RoomsAfter(db, op), k.roomType)|)
  {
  }

  lemma EditRoomRefreshes(db: Db, op: Operation, after: Db, k: Key)
    requires op.EditRoom? && RoomStep(db, op, after)
    ensures RowRefreshed(db.ledger, after.ledger, k, Refreshes(db, op, k), |LiveRooms(RoomsAfter(db, op), k.roomType)|)
  {
  }

  lemma RoomStepRefreshes(db: Db, op: Operation, after: Db, k: Key)
    requires ActsOnRooms(op) && RoomStep(db, op, after)
    ensures RowRefreshed(db.ledger, after.ledger, k, Refreshes(db, op, k), |LiveRooms(RoomsAfter(db, op), k.roomType)|)
  {
    match op
    case AddRooms(_, _, _, _) => AddRoomsRefreshes(db, op, after, k);
    case EditRoom(_, _) => EditRoomRefreshes(db, op, after, k);
    case _ =>
  }

  lemma SeedStepRefreshes(db: Db, segments: seq<Seed.Segment>, after: Db, k: Key)
    requires Step(db, SeedBulk(segments), after)
    ensures RowRefreshed(db.ledger, after.ledger, k, Refreshes(db, SeedBulk(segments), k), |LiveRooms(db.rooms, k.roomType)|)
  {
    if Seed.KnownTypes(db, segments) {
      Seed.SeedRefreshesRow(db, segments, k);
    }
  }

  /** An edit of rooms or totals over-commits no night if and only if it leaves every bucket the rooms it is committed to. */
  lemma RewriteKeepsCapacityExactlyWhen(db: Db, op: Operation, after: Db)
    requires WithinCapacity(db.ledger) && RewritesTotals(op) && Step(db, op, after)
    ensures WithinCapacity(after.ledger) <==> LeavesRoom(db, op)
  {
    var rooms := if op.SeedBulk? then db.rooms else RoomsAfter(db, op);
    forall k ensures RowRefreshed(db.ledger, after.ledger, k, Refreshes(db, op, k), |LiveRooms(rooms, k.roomType)|) {
      if op.SeedBulk? {
        SeedStepRefreshes(db, op.segments, after, k);
      } else {
        RoomStepRefreshes(db, op, after, k);
      }
    }
    RefreshKeepsCapacityExactlyWhen(db, op, after, rooms);
  }

  lemma RefreshKeepsCapacityExactlyWhen(db: Db, op: Operation, after: Db, rooms: map<Id, Room>)
    requires WithinCapacity(db.ledger) && RewritesTotals(op) && (op.AddRooms? ==> |op.items| <= |op.ids|)
    requires rooms == if op.SeedBulk? then db.rooms else RoomsAfter(db, op)
    requires forall k :: RowRefreshed(db.ledger, after.ledger, k, Refreshes(db, op, k), |LiveRooms(rooms, k.roomType)|)
    ensures WithinCapacity(after.ledger) <==> LeavesRoom(db, op)
  {
    forall k | k in db.ledger
      ensures k in after.ledger
      ensures after.ledger[k].Available() >= 0 <==>
              (Refreshes(db, op, k) ==> db.ledger[k].booked + db.ledger[k].blocked <= |LiveRooms(rooms, k.roomType)|)
    {
      assert RowRefreshed(db.ledger, after.ledger, k, Refreshes(db, op, k), |LiveRooms(rooms, k.roomType)|);
    }
    forall k | k in after.ledger && k !in db.ledger ensures after.ledger[k].Available() >= 0 {
      assert RowRefreshed(db.ledger, after.ledger, k, Refreshes(db, op, k), |LiveRooms(rooms, k.roomType)|);
    }
  }

  /** The operation is no edit of rooms or totals that leaves a bucket too few. */
  ghost predicate KeepsRoom(db: Db, op: Operation) {
    RewritesTotals(op) ==> (op.AddRooms? ==> |op.items| <= |op.ids|) && LeavesRoom(db, op)
  }

  lemma NextKeepsCapacity(dbs: seq<Db>, ops: seq<Operation>, n: nat)
    requires Run(dbs, ops) && 0 < n < |dbs| && WithinCapacity(dbs[n - 1].ledger) && KeepsRoom(dbs[n - 1], ops[n - 1])
    ensures WithinCapacity(dbs[n].ledger)
  {
    assert StepAt(dbs, ops, n - 1);
    if RewritesTotals(ops[n - 1]) {
      RewriteKeepsCapacityExactlyWhen(dbs[n - 1], ops[n - 1], dbs[n]);
    } else {
      StepKeepsCapacity(dbs[n - 1], ops[n - 1], dbs[n]);
    }
  }

  /** Unless an edit of rooms or totals leaves a bucket fewer live rooms than it is committed to, no night is ever over-committed. */
  lemma {:induction false} RunKeepsCapacity(dbs: seq<Db>, ops: seq<Operation>, n: nat)
    requires Run(dbs, ops) && n < |dbs| && WithinCapacity(dbs[0].ledger)
    requires forall i :: 0 <= i < n ==> KeepsRoom(dbs[i], ops[i])
    ensures WithinCapacity(dbs[n].ledger)
  {
    if n > 0 {
      RunKeepsCapacity(dbs, ops, n - 1);
      NextKeepsCapacity(dbs, ops, n);
    }
  }
}
