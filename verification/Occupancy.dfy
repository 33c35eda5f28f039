/** The dashboard and the occupancy report over runs. */
module Occupancy {
  import opened Base
  import opened BookingStatus
  import opened Inventory
  import opened BookingRules
  import opened Operations
  import Channex = ChannexRules
  import Dashboard
  import Seed = LedgerSeed
  import opened Stays

  /** Revisions name a category and a booking of the property they come from. */
  ghost predicate OwnCategories(db: Db, op: Operation) {
    op.Import? ==>
      && op.revision.roomType in Dashboard.TypesOf(db, op.revision.property)
      && forall x :: x in db.bookings && db.bookings[x].external == Some(op.revision.external) ==>
           db.bookings[x].property == op.revision.property
  }

  /** No stage of a patch moves an occupying booking to another property's category. */
  lemma StageKeepsOwnProperty(db: Db, id: Id, after: Db)
    requires Dashboard.OwnProperty(db) && id in db.bookings && id in after.bookings
    requires after.roomTypes == db.roomTypes && after.bookings == db.bookings[id := after.bookings[id]]
    requires
      var b, c := db.bookings[id], after.bookings[id];
      c.Active() ==> b.Active() && c.property == b.property && (c.lines == b.lines || (OneCategory(b.lines) && SameCategory(b.lines[0], c.lines)))
    ensures Dashboard.OwnProperty(after)
  {
    assert db.bookings[id].Active() ==> Dashboard.Housed(db.roomTypes, db.bookings[id]);
    Dashboard.PutKeepsOwnProperty(db, id, after.bookings[id], after);
  }

  ghost predicate SameCategory(model: Line, lines: seq<Line>) {
    forall i :: 0 <= i < |lines| ==> lines[i].roomType == model.roomType
  }

  lemma RebookKeepsOwnProperty(db: Db, id: Id, checkIn: Date, checkOut: Date, room: Option<Id>, after: Db)
    requires Dashboard.OwnProperty(db) && id in db.bookings && db.bookings[id].Active()
    requires checkIn <= checkOut && Rebooked(db, id, checkIn, checkOut, room) == Some(after)
    ensures Dashboard.OwnProperty(after) && id in after.bookings
  {
    var moved := Moved(db, id, checkIn, checkOut);
    StageKeepsOwnProperty(db, id, moved);
    if room.Some? {
      StageKeepsOwnProperty(moved, id, after);
    }
  }

  lemma PatchKeepsOwnProperty(db: Db, id: Id, p: BookingRules.Patch, formOk: bool, after: Db)
    requires Dashboard.OwnProperty(db) && PatchBooking(db, id, p, formOk) == Some(after)
    ensures Dashboard.OwnProperty(after)
  {
    if p == BookingRules.Patch(None, None, None, None) {
    } else if p.status == Some(To(Cancelled)) {
      if db.bookings[id].status != Cancelled {
        StageKeepsOwnProperty(db, id, after);
      }
    } else {
      var dated, roomed := PatchGoesInStages(db, id, p, formOk, after);
      StagesKeepOwnProperty(db, id, p, formOk, dated, roomed, after);
    }
  }

  lemma StagesKeepOwnProperty(db: Db, id: Id, p: BookingRules.Patch, formOk: bool, dated: Db, roomed: Db, after: Db)
    requires Dashboard.OwnProperty(db) && Staged(db, id, p, formOk, dated, roomed, after)
    ensures Dashboard.OwnProperty(after)
  {
    if p.checkIn.Some? || p.checkOut.Some? {
      ChangeDatesKeepsOwnProperty(db, id, p.checkIn, p.checkOut, p.room.None?, dated);
    }
    if p.room.Some? {
      AssignKeepsOwnProperty(dated, id, p.room.value, roomed);
    }
    if p.status.Some? {
      ChangeStatusKeepsOwnProperty(roomed, id, p.status.value, formOk, after);
    }
  }

  lemma ChangeDatesKeepsOwnProperty(db: Db, id: Id, newIn: Option<Date>, newOut: Option<Date>, keepRoom: bool, after: Db)
    requires Dashboard.OwnProperty(db) && id in db.bookings && db.bookings[id].Active()
    requires ChangeDates(db, id, newIn, newOut, keepRoom) == Some(after)
    ensures Dashboard.OwnProperty(after)
  {
    if after != db {
      var checkIn, checkOut, room := ChangeDatesRebooks(db, id, newIn, newOut, keepRoom, after);
      RebookKeepsOwnProperty(db, id, checkIn, checkOut, room, after);
    }
  }

  lemma AssignKeepsOwnProperty(db: Db, id: Id, room: Option<Id>, after: Db)
    requires Dashboard.OwnProperty(db) && AssignRoom(db, id, room) == Some(after)
    ensures Dashboard.OwnProperty(after)
  {
    StageKeepsOwnProperty(db, id, after);
  }

  lemma ChangeStatusKeepsOwnProperty(db: Db, id: Id, request: StatusRequest, formOk: bool, after: Db)
    requires Dashboard.OwnProperty(db) && id in db.bookings && ChangeStatus(db, id, request, formOk) == Some(after)
    ensures Dashboard.OwnProperty(after)
  {
    StageKeepsOwnProperty(db, id, after);
  }

  lemma ImportKeepsOwnProperty(db: Db, r: Channex.Request, guestOk: bool, id: Id, after: Db)
    requires Dashboard.OwnProperty(db) && Step(db, Import(r, guestOk, id), after) && OwnCategories(db, Import(r, guestOk, id))
    ensures Dashboard.OwnProperty(after)
  {
    var found, a :| Imports(db, r, guestOk, id, after, found, a);
    if a.outcome != Channex.Raised && a.put.Some? {
      var x, b := a.put.value.0, a.put.value.1;
      assert b.Active() ==> Dashboard.Housed(db.roomTypes, b);
      Dashboard.PutKeepsOwnProperty(db, x, b, after);
    }
  }

  lemma StepKeepsOwnProperty(db: Db, op: Operation, after: Db)
    requires Dashboard.OwnProperty(db) && Step(db, op, after) && OwnCategories(db, op)
    ensures Dashboard.OwnProperty(after)
  {
    match op
    case Create(r, id) =>
      if CanCreate(db, r) {
        Dashboard.PutKeepsOwnProperty(db, id, after.bookings[id], after);
      }
    case Patch(id, p, formOk) => if PatchBooking(db, id, p, formOk).Some? { PatchKeepsOwnProperty(db, id, p, formOk, after); }
    case Import(r, guestOk, id) => ImportKeepsOwnProperty(db, r, guestOk, id, after);
    case _ => RestKeepsOwnProperty(db, op, after);
  }

  lemma NewCategoryKeepsOwnProperty(db: Db, id: Id, property: Id)
    requires Dashboard.OwnProperty(db) && id !in db.roomTypes
    ensures Dashboard.OwnProperty(Seed.WithRoomType(db, id, property))
  {
    forall x | x in db.bookings && db.bookings[x].Active()
      ensures Dashboard.Housed(Seed.WithRoomType(db, id, property).roomTypes, db.bookings[x])
    {
      assert Dashboard.Housed(db.roomTypes, db.bookings[x]);
    }
  }

  /** A deleted category still belongs to its property, and bookings in it still count there. */
  lemma DeletedCategoryKeepsOwnProperty(db: Db, id: Id, after: Db)
    requires Dashboard.OwnProperty(db) && Step(db, RemoveRoomType(id), after)
    ensures Dashboard.OwnProperty(after)
  {
    forall x | x in db.bookings && db.bookings[x].Active() ensures Dashboard.Housed(after.roomTypes, db.bookings[x]) {
      assert Dashboard.Housed(db.roomTypes, db.bookings[x]);
    }
  }

  lemma SweepKeepsOwnProperty(db: Db, property: Id, day: Date, after: Db)
    requires Dashboard.OwnProperty(db) && Step(db, Sweep(property, day), after)
    ensures Dashboard.OwnProperty(after)
  {
    SweepStep(db, property, day, after);
    forall x | x in after.bookings && after.bookings[x].Active() ensures Dashboard.Housed(after.roomTypes, after.bookings[x]) {
      assert Dashboard.Housed(db.roomTypes, db.bookings[x]);
    }
  }

  lemma RestKeepsOwnProperty(db: Db, op: Operation, after: Db)
    requires Dashboard.OwnProperty(db) && Step(db, op, after) && !op.Create? && !op.Patch? && !op.Import?
    ensures Dashboard.OwnProperty(after)
  {
    if op.Sweep? {
      SweepKeepsOwnProperty(db, op.property, op.localDay, after);
    } else if ActsOnRooms(op) {
      RoomsOnlyTotals(db, op, after);
    } else if !op.Delete? {
      TableStepKeepsOwnProperty(db, op, after);
    }
  }

  lemma TableStepKeepsOwnProperty(db: Db, op: Operation, after: Db)
    requires Dashboard.OwnProperty(db) && !ActsOnBookings(op) && !ActsOnRooms(op) && TableStep(db, op, after)
    ensures Dashboard.OwnProperty(after)
  {
    match op
    case AddRoomType(id, property) => NewCategoryKeepsOwnProperty(db, id, property);
    case RemoveRoomType(id) => DeletedCategoryKeepsOwnProperty(db, id, after);
    case _ =>
  }

  lemma NextKeepsOwnProperty(dbs: seq<Db>, ops: seq<Operation>, n: nat)
    requires Run(dbs, ops) && 0 < n < |dbs| && Dashboard.OwnProperty(dbs[n - 1]) && OwnCategories(dbs[n - 1], ops[n - 1])
    ensures Dashboard.OwnProperty(dbs[n])
  {
    assert StepAt(dbs, ops, n - 1);
    StepKeepsOwnProperty(dbs[n - 1], ops[n - 1], dbs[n]);
  }

  lemma {:induction false} RunKeepsOwnProperty(dbs: seq<Db>, ops: seq<Operation>, n: nat)
    requires Run(dbs, ops) && n < |dbs| && Dashboard.OwnProperty(dbs[0])
    requires forall i :: 0 <= i < n ==> OwnCategories(dbs[i], ops[i])
    ensures Dashboard.OwnProperty(dbs[n])
  {
    if n > 0 {
      RunKeepsOwnProperty(dbs, ops, n - 1);
      NextKeepsOwnProperty(dbs, ops, n);
    }
  }

  /**
   In every state of every run the dashboard's occupied count is the occupancy report's plus the drift of the property's
   buckets, which only revisions move.
   */
  lemma RunKeepsDashboard(dbs: seq<Db>, ops: seq<Operation>, n: nat, property: Id, day: Date)
    requires Run(dbs, ops) && n < |dbs| && Dashboard.OwnProperty(dbs[0])
    requires forall i :: 0 <= i < n ==> OwnCategories(dbs[i], ops[i])
    ensures
      var types := Dashboard.TypesOf(dbs[n], property);
      && Dashboard.OccupiedByLedger(dbs[n], types, day) == |Dashboard.ReportLines(dbs[n], property, day)| + Dashboard.DriftOver(dbs[n], types, day)
      && (Valid(dbs[0]) && (forall i :: 0 <= i < n ==> Benign(dbs[i], ops[i])) ==> Dashboard.DriftOver(dbs[n], types, day) == 0)
  {
    RunKeepsOwnProperty(dbs, ops, n);
    Dashboard.DashboardIsOffByDrift(dbs[n], property, day);
    if Valid(dbs[0]) && forall i :: 0 <= i < n ==> Benign(dbs[i], ops[i]) {
      RunKeepsValid(dbs, ops, n);
      Dashboard.NoDriftOver(dbs[n], Dashboard.TypesOf(dbs[n], property), day);
    }
  }
}
