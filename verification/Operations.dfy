/** Runs: any sequence of the services' transactions on one tenant, in any order, and what each leaves in the ledger. */
module Operations {
  import opened Base
  import opened Inventory
  import opened BookingRules
  import opened BookingSafety
  import Channex = ChannexRules
  import Override = AvailabilityOverride
  import Pricing = RatesBulk
  import Rooms = RoomService
  import Seed = LedgerSeed
  import Audit = NightAudit

  datatype Operation =
    | Create(request: CreateRequest, id: Id)
    | Patch(id: Id, patch: BookingRules.Patch, formOk: bool)
    | Delete(id: Id)
    | Import(revision: Channex.Request, guestOk: bool, id: Id)
    | Sweep(property: Id, localDay: Date)
    | Block(roomType: Id, start: Date, end: Date, rooms: nat)
    | SeedBulk(segments: seq<Seed.Segment>)
    | Extend(extra: nat)
    | AddRoomType(id: Id, property: Id)
    | RemoveRoomType(id: Id)
    | WriteRates(rates: seq<Pricing.Segment>)
    | AddRoom(id: Id, roomType: Id, item: Rooms.Item)
    | AddRooms(ids: seq<Id>, roomType: Id, items: seq<Rooms.Item>, skip: bool)
    | EditRoom(id: Id, edit: Rooms.RoomPatch)
    | RemoveRoom(id: Id)
    | NewDay(day: Date)

  function Committed(db: Db, result: Option<Db>): Db {
    Or(result, db)
  }

  ghost predicate Imports(db: Db, revision: Channex.Request, guestOk: bool, id: Id, after: Db, found: Option<Id>, a: Channex.Applied) {
    && Channex.FoundBy(db, revision.external, found) && revision.checkIn < revision.checkOut && id !in db.bookings
    && Channex.Effect(db, revision, found, guestOk, id, a)
    && after == if a.outcome == Channex.Raised then db else Channex.Apply(db, a)
  }

  /** Every booking operation. */
  predicate ActsOnBookings(op: Operation) {
    op.Create? || op.Patch? || op.Delete? || op.Import? || op.Sweep?
  }

  predicate ActsOnRooms(op: Operation) {
    op.AddRoom? || op.AddRooms? || op.EditRoom? || op.RemoveRoom?
  }

  /** One transaction, committed or rolled back. */
  ghost predicate Step(db: Db, op: Operation, after: Db) {
    if ActsOnBookings(op) then BookingStep(db, op, after)
    else if ActsOnRooms(op) then RoomStep(db, op, after)
    else TableStep(db, op, after)
  }

  ghost predicate BookingStep(db: Db, op: Operation, after: Db)
    requires ActsOnBookings(op)
  {
    match op
    case Create(r, id) =>
      if !CanCreate(db, r) then after == db
      else id !in db.bookings && exists room ::
             FirstFree(db, r.roomType, r.property, StayNights(r.checkIn, r.checkOut), id, room) && after == AfterCreate(db, r, id, room)
    case Patch(id, p, formOk) => after == Committed(db, PatchBooking(db, id, p, formOk))
    case Delete(id) => after == Committed(db, DeleteBooking(db, id))
    case Import(r, guestOk, id) => exists found, a :: Imports(db, r, guestOk, id, after, found, a)
    case Sweep(property, day) =>
      exists order :: Audit.Lists(order, Audit.Overdue(db, property, day)) && after == Committed(db, Audit.SweptInOrder(db, order))
  }

  ghost predicate RoomStep(db: Db, op: Operation, after: Db)
    requires ActsOnRooms(op)
  {
    match op
    case AddRoom(id, t, item) => id !in db.rooms && after == Committed(db, Rooms.CreateRoom(db, id, t, item))
    case AddRooms(ids, t, items, skip) =>
      && |items| <= |ids| && (forall i :: 0 <= i < |ids| ==> ids[i] !in db.rooms)
      && after == if Rooms.CanCreateBulk(db, t, items, skip) then Rooms.CreatedInBulk(db, ids, t, items) else db
    case EditRoom(id, edit) => after == Committed(db, Rooms.PatchRoom(db, id, edit))
    case RemoveRoom(id) => after == Committed(db, Rooms.SoftDeleteRoom(db, id))
  }

  /** Ledger rows, categories, rates and the calendar. */
  ghost predicate TableStep(db: Db, op: Operation, after: Db)
    requires !ActsOnBookings(op) && !ActsOnRooms(op)
  {
    match op
    case Block(t, start, end, rooms) =>
      var keys := Override.RangeKeys(t, start, end);
      after == if Override.CanBlock(db.ledger, keys, rooms) then db.(ledger := Override.Blocked(db.ledger, keys, rooms)) else db
    case SeedBulk(segments) => after == if Seed.KnownTypes(db, segments) then Seed.Seeded(db, segments) else db
    case Extend(extra) => after == db.(ledger := after.ledger) && Seed.Extended(db, after.ledger, extra)
    case AddRoomType(id, property) =>
      && id !in db.roomTypes && (forall k :: k in db.ledger ==> k.roomType != id)
      && after == Seed.WithRoomType(db, id, property)
    case RemoveRoomType(id) => after == Committed(db, Seed.WithoutRoomType(db, id))
    case WriteRates(rates) => after == if Pricing.AllSameProperty(db.roomTypes, db.ratePlans, rates) then Pricing.Written(db, rates) else db
    case NewDay(day) => day >= db.today && after == db.(today := day)
  }

  /** Not a revision that leaves anything in the ledger. */
  ghost predicate Benign(db: Db, op: Operation) {
    op.Import? ==> forall found :: Channex.FoundBy(db, op.revision.external, found) && op.revision.checkIn < op.revision.checkOut ==>
                     !Channex.Drifts(db, op.revision, found, op.guestOk)
  }

  ghost predicate Run(dbs: seq<Db>, ops: seq<Operation>) {
    |dbs| == |ops| + 1 && forall i :: 0 <= i < |ops| ==> StepAt(dbs, ops, i)
  }

  ghost predicate StepAt(dbs: seq<Db>, ops: seq<Operation>, i: nat)
    requires i < |ops| && |dbs| == |ops| + 1
  {
    Step(dbs[i], ops[i], dbs[i + 1])
  }

  // ----- Every step but a revision keeps bookings sound and lets nothing drift -----

  /** Bookings, categories and counters are as they were. */
  ghost predicate OnlyTotals(db: Db, after: Db) {
    after.bookings == db.bookings && after.roomTypes == db.roomTypes && SameBooked(db.ledger, after.ledger)
  }

  lemma RecalculatedOnlyTotals(db: Db, rooms: map<Id, Room>, roomType: Id)
    ensures OnlyTotals(db, Rooms.Recalculated(db.(rooms := rooms), roomType))
  {
  }

  lemma OnlyTotalsTwice(db: Db, mid: Db, after: Db)
    requires OnlyTotals(db, mid) && OnlyTotals(mid, after)
    ensures OnlyTotals(db, after)
  {
    forall k: Key ensures BookedRooms(db.ledger, k) == BookedRooms(after.ledger, k) {
      assert BookedRooms(mid.ledger, k) == BookedRooms(after.ledger, k);
    }
  }

  lemma PatchRoomOnlyTotals(db: Db, id: Id, edit: Rooms.RoomPatch)
    ensures OnlyTotals(db, Committed(db, Rooms.PatchRoom(db, id, edit)))
  {
    var result := Rooms.PatchRoom(db, id, edit);
    if result.Some? && edit.newType.Some? && edit.newType.value != db.rooms[id].roomType {
      var mid := Rooms.Recalculated(db.(rooms := result.value.rooms), db.rooms[id].roomType);
      RecalculatedOnlyTotals(db, result.value.rooms, db.rooms[id].roomType);
      RecalculatedOnlyTotals(mid, mid.rooms, edit.newType.value);
      OnlyTotalsTwice(db, mid, result.value);
    }
  }

  lemma CreateRoomOnlyTotals(db: Db, id: Id, roomType: Id, item: Rooms.Item)
    ensures OnlyTotals(db, Committed(db, Rooms.CreateRoom(db, id, roomType, item)))
  {
    if item.status.As? {
      RecalculatedOnlyTotals(db, db.rooms[id := Rooms.NewRoom(roomType, item)], roomType);
    }
  }

  lemma RemoveRoomOnlyTotals(db: Db, id: Id)
    ensures OnlyTotals(db, Committed(db, Rooms.SoftDeleteRoom(db, id)))
  {
    if id in db.rooms {
      RecalculatedOnlyTotals(db, db.rooms[id := db.rooms[id].(live := false)], db.rooms[id].roomType);
    }
  }

  lemma BulkOnlyTotals(db: Db, ids: seq<Id>, roomType: Id, items: seq<Rooms.Item>)
    requires |items| <= |ids| && Rooms.KnownStatuses(items)
    ensures OnlyTotals(db, Rooms.CreatedInBulk(db, ids, roomType, items))
  {
    var after := Rooms.CreatedInBulk(db, ids, roomType, items);
    RecalculatedOnlyTotals(db, after.rooms, roomType);
  }

  lemma RoomsOnlyTotals(db: Db, op: Operation, after: Db)
    requires ActsOnRooms(op) && RoomStep(db, op, after)
    ensures OnlyTotals(db, after)
  {
    match op
    case AddRoom(id, t, item) => CreateRoomOnlyTotals(db, id, t, item);
    case AddRooms(ids, t, items, skip) => if Rooms.CanCreateBulk(db, t, items, skip) { BulkOnlyTotals(db, ids, t, items); }
    case EditRoom(id, edit) => PatchRoomOnlyTotals(db, id, edit);
    case RemoveRoom(id) => RemoveRoomOnlyTotals(db, id);
  }

  lemma CreateStepKeepsSound(db: Db, r: CreateRequest, id: Id, after: Db)
    requires Sound(db) && Step(db, Create(r, id), after)
    ensures Keeps(db, after)
  {
    if CanCreate(db, r) {
      var room :| FirstFree(db, r.roomType, r.property, StayNights(r.checkIn, r.checkOut), id, room) && after == AfterCreate(db, r, id, room);
      CreateKeepsSound(db, r, id, room);
    }
  }

  /** Whatever the order, a sweep goes through as a whole or not at all; and the audit's outcome is such a step. */
  lemma SweepStep(db: Db, property: Id, day: Date, after: Db)
    ensures
      var overdue := Audit.Overdue(db, property, day);
      Step(db, Sweep(property, day), after) <==> after == if Audit.CanSweep(db, overdue) then Audit.Swept(db, overdue) else db
  {
    var overdue := Audit.Overdue(db, property, day);
    forall order | Audit.Lists(order, overdue)
      ensures Audit.SweptInOrder(db, order) == if Audit.CanSweep(db, overdue) then Some(Audit.Swept(db, overdue)) else None
    {
      Audit.OrderDoesNotMatter(db, order, overdue);
    }
    var order := Audit.SomeListing(overdue);
  }

  lemma SweepStepKeepsSound(db: Db, property: Id, day: Date, after: Db)
    requires Sound(db) && Step(db, Sweep(property, day), after)
    ensures Keeps(db, after)
  {
    var order :| Audit.Lists(order, Audit.Overdue(db, property, day)) && after == Committed(db, Audit.SweptInOrder(db, order));
    if Audit.SweptInOrder(db, order).Some? {
      Audit.SweepKeepsSound(db, order, after);
    }
  }

  /** Seeding, blocking, categories, rates and the calendar leave bookings and counters alone. */
  lemma TableStepKeepsCounters(db: Db, op: Operation, after: Db)
    requires !ActsOnBookings(op) && !ActsOnRooms(op) && TableStep(db, op, after)
    ensures after.bookings == db.bookings && SameBooked(db.ledger, after.ledger)
  {
    match op
    case SeedBulk(segments) => Seed.SeedKeepsCounters(db, segments);
    case Extend(extra) => Seed.ExtensionKeepsCounters(db, after.ledger, extra);
    case AddRoomType(id, property) => Seed.RoomTypeKeepsCounters(db, id, property);
    case _ =>
  }

  lemma RewriteStepKeepsSound(db: Db, op: Operation, after: Db)
    requires Sound(db) && Step(db, op, after) && !ActsOnBookings(op)
    ensures Keeps(db, after)
  {
    if ActsOnRooms(op) {
      RoomsOnlyTotals(db, op, after);
    } else {
      TableStepKeepsCounters(db, op, after);
    }
    RewriteKeepsDrift(db, after);
  }

  lemma StepKeepsSound(db: Db, op: Operation, after: Db)
    requires Sound(db) && Step(db, op, after) && !op.Import?
    ensures Keeps(db, after)
  {
    match op
    case Create(r, id) => CreateStepKeepsSound(db, r, id, after);
    case Patch(id, p, formOk) => if PatchBooking(db, id, p, formOk).Some? { PatchKeepsSound(db, id, p, formOk, after); }
    case Delete(id) => if DeleteBooking(db, id).Some? { DeleteKeepsSound(db, id); }
    case Sweep(property, day) => SweepStepKeepsSound(db, property, day, after);
    case _ => RewriteStepKeepsSound(db, op, after);
  }

  // ----- What a run leaves in the ledger -----

  /** The moves behind a step, if it is a revision. */
  ghost predicate Behind(db: Db, op: Operation, after: Db, a: Channex.Applied) {
    op.Import? ==> exists found :: Imports(db, op.revision, op.guestOk, op.id, after, found, a)
  }

  /** How far a step sets bucket k off. */
  function LeftByStep(db: Db, op: Operation, a: Channex.Applied, k: Key): int {
    if op.Import? then Channex.Left(db, a, k) else 0
  }

  lemma ImportMovesDrift(db: Db, r: Channex.Request, guestOk: bool, id: Id, after: Db, found: Option<Id>, a: Channex.Applied)
    requires Sound(db) && Imports(db, r, guestOk, id, after, found, a)
    ensures Sound(after) && forall k :: Drift(after, k) == Drift(db, k) + Channex.Left(db, a, k)
    ensures (forall k :: Channex.Left(db, a, k) == 0) <==> !Channex.Drifts(db, r, found, guestOk)
  {
    Channex.RevisionMovesDrift(db, r, found, guestOk, id, a);
    Channex.RaisedMovesNothing(db, r, found, guestOk, id, a);
  }

  /** From any sound state a step leaves a sound state, and moves drift by just what a revision left. */
  lemma StepMovesDrift(db: Db, op: Operation, after: Db, a: Channex.Applied)
    requires Sound(db) && Step(db, op, after) && Behind(db, op, after, a)
    ensures Sound(after) && forall k :: Drift(after, k) == Drift(db, k) + LeftByStep(db, op, a, k)
  {
    if op.Import? {
      var found :| Imports(db, op.revision, op.guestOk, op.id, after, found, a);
      ImportMovesDrift(db, op.revision, op.guestOk, op.id, after, found, a);
    } else {
      StepKeepsSound(db, op, after);
    }
  }

  /** A run, and the moves behind each of its revisions. */
  ghost predicate RunWith(dbs: seq<Db>, ops: seq<Operation>, moves: seq<Channex.Applied>) {
    Run(dbs, ops) && |moves| == |ops| && forall i :: 0 <= i < |ops| ==> BehindAt(dbs, ops, moves, i)
  }

  ghost predicate BehindAt(dbs: seq<Db>, ops: seq<Operation>, moves: seq<Channex.Applied>, i: nat)
    requires i < |ops| == |moves| && |dbs| == |ops| + 1
  {
    Behind(dbs[i], ops[i], dbs[i + 1], moves[i])
  }

  lemma SomeMoves(db: Db, op: Operation, after: Db) returns (a: Channex.Applied)
    requires Step(db, op, after)
    ensures Behind(db, op, after, a)
  {
    if op.Import? {
      var found, b :| Imports(db, op.revision, op.guestOk, op.id, after, found, b);
      a := b;
    } else {
      a := Channex.ROLLED_BACK;
    }
  }

  lemma StepBefore(dbs: seq<Db>, ops: seq<Operation>, n: nat)
    requires Run(dbs, ops) && n <= |ops|
    ensures Run(dbs[..n + 1], ops[..n])
  {
    var fewer, first := dbs[..n + 1], ops[..n];
    forall i | 0 <= i < n ensures StepAt(fewer, first, i) {
      assert StepAt(dbs, ops, i);
    }
  }

  /** Every run has such moves. */
  lemma {:induction false} RunHasMoves(dbs: seq<Db>, ops: seq<Operation>) returns (moves: seq<Channex.Applied>)
    requires Run(dbs, ops)
    ensures RunWith(dbs, ops, moves)
  {
    moves := [];
    if ops != [] {
      var n := |ops| - 1;
      StepBefore(dbs, ops, n);
      var before := RunHasMoves(dbs[..n + 1], ops[..n]);
      assert StepAt(dbs, ops, n);
      var last := SomeMoves(dbs[n], ops[n], dbs[n + 1]);
      moves := before + [last];
      forall i | 0 <= i < |ops| ensures BehindAt(dbs, ops, moves, i) {
        if i < n {
          assert BehindAt(dbs[..n + 1], ops[..n], before, i);
        }
      }
    }
  }

  /** What the revisions among the first n steps left in bucket k, together. */
  function LeftByRun(dbs: seq<Db>, ops: seq<Operation>, moves: seq<Channex.Applied>, n: nat, k: Key): int
    requires n <= |ops| == |moves| && |dbs| == |ops| + 1
  {
    if n == 0 then 0
    else LeftByRun(dbs, ops, moves, n - 1, k) + LeftByStep(dbs[n - 1], ops[n - 1], moves[n - 1], k)
  }

  /** After n steps each bucket is off by what it was off at the start and what the revisions left. */
  ghost predicate OffByRun(dbs: seq<Db>, ops: seq<Operation>, moves: seq<Channex.Applied>, n: nat)
    requires n <= |ops| == |moves| && |dbs| == |ops| + 1
  {
    forall k :: Drift(dbs[n], k) == Drift(dbs[0], k) + LeftByRun(dbs, ops, moves, n, k)
  }

  lemma OffByOneMore(dbs: seq<Db>, ops: seq<Operation>, moves: seq<Channex.Applied>, n: nat)
    requires 0 < n <= |ops| == |moves| && |dbs| == |ops| + 1 && OffByRun(dbs, ops, moves, n - 1)
    requires forall k :: Drift(dbs[n], k) == Drift(dbs[n - 1], k) + LeftByStep(dbs[n - 1], ops[n - 1], moves[n - 1], k)
    ensures OffByRun(dbs, ops, moves, n)
  {
    forall k ensures Drift(dbs[n], k) == Drift(dbs[0], k) + LeftByRun(dbs, ops, moves, n, k) {
      assert Drift(dbs[n - 1], k) == Drift(dbs[0], k) + LeftByRun(dbs, ops, moves, n - 1, k);
    }
  }

  lemma NextMovesDrift(dbs: seq<Db>, ops: seq<Operation>, moves: seq<Channex.Applied>, n: nat)
    requires RunWith(dbs, ops, moves) && 0 < n < |dbs| && Sound(dbs[n - 1]) && OffByRun(dbs, ops, moves, n - 1)
    ensures Sound(dbs[n]) && OffByRun(dbs, ops, moves, n)
  {
    assert StepAt(dbs, ops, n - 1) && BehindAt(dbs, ops, moves, n - 1);
    StepMovesDrift(dbs[n - 1], ops[n - 1], dbs[n], moves[n - 1]);
    OffByOneMore(dbs, ops, moves, n);
  }

  /**
   In every run each bucket is off by what it was off at the start and what the revisions since then left, one by one;
   nothing else moves its drift.
   */
  lemma {:induction false} RunMovesDrift(dbs: seq<Db>, ops: seq<Operation>, moves: seq<Channex.Applied>, n: nat)
    requires RunWith(dbs, ops, moves) && n < |dbs| && Sound(dbs[0])
    ensures Sound(dbs[n]) && OffByRun(dbs, ops, moves, n)
  {
    if n > 0 {
      RunMovesDrift(dbs, ops, moves, n - 1);
      NextMovesDrift(dbs, ops, moves, n);
    }
  }

  /**
   In every state of every run, whatever revisions arrive: no room is claimed twice on a night, every booking is one
   stay whose total is the sum of its nights, and external ids are unique.
   */
  lemma RunKeepsSound(dbs: seq<Db>, ops: seq<Operation>, n: nat)
    requires Run(dbs, ops) && n < |dbs| && Sound(dbs[0])
    ensures Sound(dbs[n])
  {
    var moves := RunHasMoves(dbs, ops);
    RunMovesDrift(dbs, ops, moves, n);
  }

  lemma NothingElseDrifts(dbs: seq<Db>, ops: seq<Operation>, moves: seq<Channex.Applied>, n: nat, k: Key)
    requires n <= |ops| == |moves| && |dbs| == |ops| + 1 && Agreement(dbs[0]) && OffByRun(dbs, ops, moves, n)
    ensures Drift(dbs[n], k) == LeftByRun(dbs, ops, moves, n, k)
  {
    ExactWithoutDrift(dbs[0]);
    assert Drift(dbs[0], k) == 0;
  }

  lemma ExactWhenNothingLeft(dbs: seq<Db>, ops: seq<Operation>, moves: seq<Channex.Applied>, n: nat)
    requires n <= |ops| == |moves| && |dbs| == |ops| + 1
    requires forall k :: Drift(dbs[n], k) == LeftByRun(dbs, ops, moves, n, k)
    ensures Agreement(dbs[n]) <==> NothingLeft(dbs, ops, moves, n)
  {
    ExactWithoutDrift(dbs[n]);
    forall k ensures Drift(dbs[n], k) == 0 <==> LeftByRun(dbs, ops, moves, n, k) == 0 {
    }
  }

  /** What the revisions left cancels out in every bucket. */
  ghost predicate NothingLeft(dbs: seq<Db>, ops: seq<Operation>, moves: seq<Channex.Applied>, n: nat)
    requires n <= |ops| == |moves| && |dbs| == |ops| + 1
  {
    forall k :: LeftByRun(dbs, ops, moves, n, k) == 0
  }

  /** And from an exact ledger it is exact again if and only if what the revisions left cancels out in every bucket. */
  lemma RunIsExactExactlyWhen(dbs: seq<Db>, ops: seq<Operation>, moves: seq<Channex.Applied>, n: nat)
    requires RunWith(dbs, ops, moves) && n < |dbs| && Valid(dbs[0])
    ensures Sound(dbs[n]) && (Agreement(dbs[n]) <==> NothingLeft(dbs, ops, moves, n))
  {
    RunMovesDrift(dbs, ops, moves, n);
    forall k ensures Drift(dbs[n], k) == LeftByRun(dbs, ops, moves, n, k) {
      NothingElseDrifts(dbs, ops, moves, n, k);
    }
    ExactWhenNothingLeft(dbs, ops, moves, n);
  }

  lemma BenignLeavesNothing(db: Db, op: Operation, after: Db, a: Channex.Applied, k: Key)
    requires Sound(db) && Benign(db, op) && Behind(db, op, after, a)
    ensures LeftByStep(db, op, a, k) == 0
  {
    if op.Import? {
      var found :| Imports(db, op.revision, op.guestOk, op.id, after, found, a);
      ImportMovesDrift(db, op.revision, op.guestOk, op.id, after, found, a);
    }
  }

  lemma BenignAddsNothing(dbs: seq<Db>, ops: seq<Operation>, moves: seq<Channex.Applied>, n: nat, k: Key)
    requires RunWith(dbs, ops, moves) && 0 < n < |dbs| && Sound(dbs[n - 1]) && Benign(dbs[n - 1], ops[n - 1])
    ensures LeftByRun(dbs, ops, moves, n, k) == LeftByRun(dbs, ops, moves, n - 1, k)
  {
    assert BehindAt(dbs, ops, moves, n - 1);
    BenignLeavesNothing(dbs[n - 1], ops[n - 1], dbs[n], moves[n - 1], k);
  }

  lemma {:induction false} BenignRunLeavesNothing(dbs: seq<Db>, ops: seq<Operation>, moves: seq<Channex.Applied>, n: nat, k: Key)
    requires RunWith(dbs, ops, moves) && n < |dbs| && Sound(dbs[0])
    requires forall i :: 0 <= i < n ==> Benign(dbs[i], ops[i])
    ensures LeftByRun(dbs, ops, moves, n, k) == 0
  {
    if n > 0 {
      BenignRunLeavesNothing(dbs, ops, moves, n - 1, k);
      RunMovesDrift(dbs, ops, moves, n - 1);
      BenignAddsNothing(dbs, ops, moves, n, k);
    }
  }

  /** As long as no revision drifts, each ledger row counts exactly the lines of occupying bookings on its night. */
  lemma RunKeepsValid(dbs: seq<Db>, ops: seq<Operation>, n: nat)
    requires Run(dbs, ops) && n < |dbs| && Valid(dbs[0])
    requires forall i :: 0 <= i < n ==> Benign(dbs[i], ops[i])
    ensures Valid(dbs[n])
  {
    var moves := RunHasMoves(dbs, ops);
    RunIsExactExactlyWhen(dbs, ops, moves, n);
    forall k ensures LeftByRun(dbs, ops, moves, n, k) == 0 {
      BenignRunLeavesNothing(dbs, ops, moves, n, k);
    }
  }

  lemma StepKeepsValid(db: Db, op: Operation, after: Db)
    requires Valid(db) && Step(db, op, after) && Benign(db, op)
    ensures Valid(after)
  {
    assert StepAt([db, after], [op], 0);
    RunKeepsValid([db, after], [op], 1);
  }
}
