/** Two independent answers to "how many rooms are occupied": the ledger's and the report's. */
module Dashboard {
  import opened Base
  import opened Inventory

  /** Room categories of a property, deleted ones included. */
  function TypesOf(db: Db, property: Id): set<Id> {
    set t | t in db.roomTypes && db.roomTypes[t].property == property
  }

  /** The dashboard's figure: booked_rooms summed over the property's ledger rows of the day. */
  ghost function OccupiedByLedger(db: Db, types: set<Id>, day: Date): int {
    if types == {} then 0 else
    var t :| t in types;
    BookedRooms(db.ledger, Key(t, day)) + OccupiedByLedger(db, types - {t}, day)
  }

  /** The report's figure: lines of the property's occupying bookings on the day. */
  ghost function ReportLines(db: Db, property: Id, day: Date): set<(Id, int)> {
    set x, i | x in db.bookings && db.bookings[x].property == property && db.bookings[x].Active()
               && 0 <= i < |db.bookings[x].lines| && db.bookings[x].lines[i].night == day :: (x, i)
  }

  /** Lines of occupying bookings on the day in some of the categories. */
  ghost function LinesIn(db: Db, types: set<Id>, day: Date): set<(Id, int)> {
    set x, i | x in db.bookings && db.bookings[x].Active() && 0 <= i < |db.bookings[x].lines|
               && db.bookings[x].lines[i].night == day && db.bookings[x].lines[i].roomType in types :: (x, i)
  }

  /** The lines of a booking are in categories of its own property. */
  predicate Housed(roomTypes: map<Id, RoomType>, b: Booking) {
    forall i :: 0 <= i < |b.lines| ==>
      b.lines[i].roomType in roomTypes && roomTypes[b.lines[i].roomType].property == b.property
  }

  /** Every occupying booking is in categories of its own property. */
  ghost predicate OwnProperty(db: Db) {
    forall x :: x in db.bookings && db.bookings[x].Active() ==> Housed(db.roomTypes, db.bookings[x])
  }

  lemma PutKeepsOwnProperty(db: Db, id: Id, b: Booking, after: Db)
    requires OwnProperty(db) && after.roomTypes == db.roomTypes && after.bookings == db.bookings[id := b]
    requires b.Active() ==> Housed(db.roomTypes, b)
    ensures OwnProperty(after)
  {
  }

  /** The drift of some categories on the day, together. */
  ghost function DriftOver(db: Db, types: set<Id>, day: Date): int {
    if types == {} then 0 else
    var t :| t in types;
    Drift(db, Key(t, day)) + DriftOver(db, types - {t}, day)
  }

  /** In whatever order they are added up. */
  lemma {:induction false} DriftOverAny(db: Db, types: set<Id>, t: Id, day: Date)
    requires t in types
    ensures DriftOver(db, types, day) == Drift(db, Key(t, day)) + DriftOver(db, types - {t}, day)
    decreases types
  {
    var u :| u in types && DriftOver(db, types, day) == Drift(db, Key(u, day)) + DriftOver(db, types - {u}, day);
    if u != t {
      var rest := types - {u} - {t};
      assert types - {t} - {u} == rest;
      DriftOverAny(db, types - {u}, t, day);
      DriftOverAny(db, types - {t}, u, day);
      assert DriftOver(db, types - {t}, day) == Drift(db, Key(u, day)) + DriftOver(db, rest, day);
    }
  }

  /** The sum of counters is the number of occupying lines and what has drifted. */
  lemma {:induction false} LedgerCountsLines(db: Db, types: set<Id>, day: Date)
    ensures OccupiedByLedger(db, types, day) == |LinesIn(db, types, day)| + DriftOver(db, types, day)
  {
    if types == {} {
      assert LinesIn(db, types, day) == {};
    } else {
      var t :| t in types && OccupiedByLedger(db, types, day) == BookedRooms(db.ledger, Key(t, day)) + OccupiedByLedger(db, types - {t}, day);
      LedgerCountsLines(db, types - {t}, day);
      DriftOverAny(db, types, t, day);
      LinesSplit(db, types, t, day);
    }
  }

  lemma {:induction false} NoDriftOver(db: Db, types: set<Id>, day: Date)
    requires Agreement(db)
    ensures DriftOver(db, types, day) == 0
  {
    if types == {} {
      assert DriftOver(db, types, day) == 0;
    } else {
      var t :| t in types;
      DriftOverAny(db, types, t, day);
      ExactWithoutDrift(db);
      assert Drift(db, Key(t, day)) == 0;
      NoDriftOver(db, types - {t}, day);
    }
  }

  lemma LinesSplit(db: Db, types: set<Id>, t: Id, day: Date)
    requires t in types
    ensures LinesIn(db, types, day) == LinesIn(db, types - {t}, day) + ActiveLines(db.bookings, Key(t, day))
    ensures LinesIn(db, types - {t}, day) !! ActiveLines(db.bookings, Key(t, day))
  {
  }

  /** The dashboard exceeds the occupancy report by exactly what the property's buckets of the day have drifted. */
  lemma DashboardIsOffByDrift(db: Db, property: Id, day: Date)
    requires OwnProperty(db)
    ensures
      var types := TypesOf(db, property);
      OccupiedByLedger(db, types, day) == |ReportLines(db, property, day)| + DriftOver(db, types, day)
  {
    LedgerCountsLines(db, TypesOf(db, property), day);
    assert ReportLines(db, property, day) == LinesIn(db, TypesOf(db, property), day) by {
      forall p ensures p in ReportLines(db, property, day) <==> p in LinesIn(db, TypesOf(db, property), day) {
        if p in LinesIn(db, TypesOf(db, property), day) {
          assert Housed(db.roomTypes, db.bookings[p.0]);
        }
      }
    }
  }

  /** On any day and for any property, the dashboard and the occupancy report give the same number. */
  lemma DashboardMatchesReport(db: Db, property: Id, day: Date)
    requires Agreement(db) && OwnProperty(db)
    ensures OccupiedByLedger(db, TypesOf(db, property), day) == |ReportLines(db, property, day)|
  {
    DashboardIsOffByDrift(db, property, day);
    NoDriftOver(db, TypesOf(db, property), day);
  }
}
