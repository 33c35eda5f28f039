/**
 Every booking transaction keeps bookings sound and physical rooms exclusive, and no bucket drifts any further, even on
 a ledger that a failed revision left wrong.
 */
module BookingSafety {
  import opened Base
  import opened BookingStatus
  import opened Inventory
  import opened StayDates
  import opened Stays
  import opened BookingRules

  /** The external id of b is used by no other booking. */
  ghost predicate ExternalUnused(db: Db, id: Id, external: Option<Id>) {
    external.Some? ==> forall x :: x in db.bookings && x != id ==> db.bookings[x].external != external
  }

  /** The bookings stay sound and no bucket's drift moves. */
  ghost predicate Keeps(db: Db, after: Db) {
    Sound(after) && SameDrift(db, after)
  }

  lemma KeepsMeansValid(db: Db, after: Db)
    requires Valid(db) && Keeps(db, after)
    ensures Valid(after)
  {
    SameDriftKeepsAgreement(db, after);
  }

  lemma KeepsTwice(db: Db, mid: Db, after: Db)
    requires Keeps(db, mid) && Keeps(mid, after)
    ensures Keeps(db, after)
  {
    SameDriftTwice(db, mid, after);
  }

  lemma KeepsItself(db: Db)
    requires Sound(db)
    ensures Keeps(db, db)
  {
  }

  /** Its room was free, or was already its own on the same nights. */
  ghost predicate Undisputed(bookings: Bookings, id: Id, b: Booking)
    requires b.lines != []
  {
    b.Active() ==>
      || b.lines[0].room.None?
      || Free(bookings, b.lines[0].room.value, NightsOf(b.lines), id)
      || (id in bookings && bookings[id].Active() && bookings[id].lines == b.lines)
  }

  /** Putting one well-formed booking in place keeps bookings sound, whatever the ledger does. */
  lemma PutKeepsSound(db: Db, id: Id, b: Booking, ledger: Ledger)
    requires Sound(db) && WellFormed(b) && ExternalUnused(db, id, b.external) && Undisputed(db.bookings, id, b)
    ensures Sound(db.(ledger := ledger, bookings := db.bookings[id := b]))
  {
    var after := db.bookings[id := b];
    forall y | y in after && y != id && b.Active() && after[y].Active()
      ensures !Clash(b, after[y]) && !Clash(after[y], b)
    {
      if !(id in db.bookings && db.bookings[id].Active() && db.bookings[id].lines == b.lines) {
        FreeMeansNoClash(db.bookings, id, b, y);
      } else {
        assert !Clash(db.bookings[id], db.bookings[y]) && !Clash(db.bookings[y], db.bookings[id]);
      }
    }
  }

  /** And when the ledger moves with the buckets it holds, nothing drifts. */
  lemma PutKeeps(db: Db, id: Id, b: Booking, release: set<Key>, book: set<Key>)
    requires Sound(db) && WellFormed(b) && ExternalUnused(db, id, b.external) && Undisputed(db.bookings, id, b)
    requires release <= db.ledger.Keys && book <= db.ledger.Keys
    requires forall k :: In(k, book) - In(k, release) == In(k, Held(b)) - In(k, HeldBy(db.bookings, id))
    ensures Keeps(db, db.(ledger := Shift(db.ledger, release, book), bookings := db.bookings[id := b]))
  {
    var after := db.(ledger := Shift(db.ledger, release, book), bookings := db.bookings[id := b]);
    PutKeepsSound(db, id, b, after.ledger);
    forall k ensures Drift(after, k) == Drift(db, k) {
      PutMovesDrift(db, id, b, release, book, k);
    }
  }

  lemma ShiftNothing(ledger: Ledger)
    ensures Shift(ledger, {}, {}) == ledger
  {
  }

  /** A well-formed booking releases exactly its own buckets. */
  lemma ReleasedIsHeld(b: Booking)
    requires WellFormed(b)
    ensures OneCategory(b.lines) && ReleasedKeys(b.lines) == KeysOf(b.lines)
    ensures b.Active() ==> Held(b) == ReleasedKeys(b.lines)
  {
  }

  lemma CreateKeepsSound(db: Db, r: CreateRequest, id: Id, room: Option<Id>)
    requires Sound(db) && CanCreate(db, r) && id !in db.bookings
    requires FirstFree(db, r.roomType, r.property, StayNights(r.checkIn, r.checkOut), id, room)
    ensures Keeps(db, AfterCreate(db, r, id, room))
  {
    var prices := NightlyRates(db, r.roomType, r.ratePlan, r.checkIn, r.checkOut);
    var b := AfterCreate(db, r, id, room).bookings[id];
    StayLinesShape(r.roomType, r.checkIn, prices, room);
    assert NightsOf(b.lines) <= StayNights(r.checkIn, r.checkOut) by {
      forall i | 0 <= i < |b.lines| ensures b.lines[i].night in Nights(r.checkIn, r.checkOut) {
        assert b.lines[i].night == Nights(r.checkIn, r.checkOut)[i];
      }
    }
    if room.Some? {
      FewerNightsStayFree(db.bookings, room.value, StayNights(r.checkIn, r.checkOut), NightsOf(b.lines), id);
    }
    PutKeeps(db, id, b, {}, StayKeys(r.roomType, r.checkIn, r.checkOut));
  }

  lemma FewerNightsStayFree(bookings: Bookings, room: Id, nights: set<Date>, fewer: set<Date>, except: Id)
    requires Free(bookings, room, nights, except) && fewer <= nights
    ensures Free(bookings, room, fewer, except)
  {
    forall x | x in bookings && x != except && bookings[x].Active() ensures Avoids(bookings[x].lines, room, fewer) {
      assert Avoids(bookings[x].lines, room, nights);
    }
  }

  lemma AssignKeepsSound(db: Db, id: Id, room: Option<Id>)
    requires Sound(db) && CanAssign(db, id, room)
    ensures Keeps(db, AssignRoom(db, id, room).value)
  {
    var b := db.bookings[id];
    WithRoomShape(b.lines, room);
    ShiftNothing(db.ledger);
    PutKeeps(db, id, b.(lines := WithRoom(b.lines, room)), {}, {});
  }

  lemma ReleaseKeepsSound(db: Db, id: Id, status: Status)
    requires Sound(db) && id in db.bookings && db.bookings[id].Active() && !Occupies(status)
    requires ReleaseInto(db, id, status).Some?
    ensures Keeps(db, ReleaseInto(db, id, status).value)
  {
    var b := db.bookings[id];
    ReleasedIsHeld(b);
    PutKeeps(db, id, b.(status := status), ReleasedKeys(b.lines), {});
  }

  lemma MoveKeepsSound(db: Db, id: Id, checkIn: Date, checkOut: Date)
    requires Sound(db) && id in db.bookings && db.bookings[id].Active()
    requires checkIn < checkOut && CanMove(db, id, checkIn, checkOut)
    ensures Keeps(db, Moved(db, id, checkIn, checkOut))
  {
    var b := db.bookings[id];
    var prices := NightlyRates(db, b.lines[0].roomType, b.ratePlan.value, checkIn, checkOut);
    StayLinesShape(b.lines[0].roomType, checkIn, prices, None);
    PutKeeps(db, id, Moved(db, id, checkIn, checkOut).bookings[id], KeysOf(b.lines),
                  StayKeys(b.lines[0].roomType, checkIn, checkOut));
  }

  lemma RebookKeepsSound(db: Db, id: Id, checkIn: Date, checkOut: Date, room: Option<Id>)
    requires Sound(db) && id in db.bookings && db.bookings[id].Active() && checkIn < checkOut
    requires Rebooked(db, id, checkIn, checkOut, room).Some?
    ensures Keeps(db, Rebooked(db, id, checkIn, checkOut, room).value)
  {
    var moved := Moved(db, id, checkIn, checkOut);
    MoveKeepsSound(db, id, checkIn, checkOut);
    if room.Some? {
      AssignKeepsSound(moved, id, room);
      KeepsTwice(db, moved, AssignRoom(moved, id, room).value);
    }
  }

  lemma ChangeDatesKeepsSound(db: Db, id: Id, newIn: Option<Date>, newOut: Option<Date>, keepRoom: bool, after: Db)
    requires Sound(db) && id in db.bookings && db.bookings[id].Active()
    requires ChangeDates(db, id, newIn, newOut, keepRoom) == Some(after)
    ensures Keeps(db, after)
  {
    if after != db {
      var checkIn, checkOut, room := ChangeDatesRebooks(db, id, newIn, newOut, keepRoom, after);
      RebookKeepsSound(db, id, checkIn, checkOut, room);
    }
  }

  lemma ChangeStatusKeepsSound(db: Db, id: Id, request: StatusRequest, formOk: bool)
    requires Sound(db) && id in db.bookings && request != To(Cancelled)
    requires ChangeStatus(db, id, request, formOk).Some?
    ensures Keeps(db, ChangeStatus(db, id, request, formOk).value)
  {
    var b := db.bookings[id];
    if request.status == NoShow && b.status == Confirmed {
      ReleaseKeepsSound(db, id, NoShow);
    } else {
      // Only the status moves, and no accepted change revives or retires the booking here.
      ShiftNothing(db.ledger);
      PutKeeps(db, id, b.(status := request.status), {}, {});
    }
  }

  lemma StagesKeepSound(db: Db, id: Id, p: Patch, formOk: bool, dated: Db, roomed: Db, after: Db)
    requires Sound(db) && Staged(db, id, p, formOk, dated, roomed, after) && p.status != Some(To(Cancelled))
    ensures Keeps(db, after)
  {
    if p.checkIn.Some? || p.checkOut.Some? {
      ChangeDatesKeepsSound(db, id, p.checkIn, p.checkOut, p.room.None?, dated);
    }
    if p.room.Some? {
      AssignKeepsSound(dated, id, p.room.value);
      KeepsTwice(db, dated, roomed);
    }
    if p.status.Some? {
      ChangeStatusKeepsSound(roomed, id, p.status.value, formOk);
      KeepsTwice(db, roomed, after);
    }
  }

  lemma CancelKeepsSound(db: Db, id: Id)
    requires Sound(db) && id in db.bookings && Cancel(db, id).Some?
    ensures Keeps(db, Cancel(db, id).value)
  {
    if db.bookings[id].status != Cancelled {
      ReleaseKeepsSound(db, id, Cancelled);
    }
  }

  lemma PatchKeepsSound(db: Db, id: Id, p: Patch, formOk: bool, after: Db)
    requires Sound(db) && PatchBooking(db, id, p, formOk) == Some(after)
    ensures Keeps(db, after)
  {
    if p == Patch(None, None, None, None) {
    } else if p.status == Some(To(Cancelled)) {
      CancelKeepsSound(db, id);
    } else {
      var dated, roomed := PatchGoesInStages(db, id, p, formOk, after);
      StagesKeepSound(db, id, p, formOk, dated, roomed, after);
    }
  }

  lemma DeleteKeepsSound(db: Db, id: Id)
    requires Sound(db) && DeleteBooking(db, id).Some?
    ensures Keeps(db, DeleteBooking(db, id).value)
  {
    var after := DeleteBooking(db, id).value;
    var release := if db.bookings[id].Active() then ReleasedKeys(db.bookings[id].lines) else {};
    ReleasedIsHeld(db.bookings[id]);
    ShiftNothing(db.ledger);
    forall k ensures Drift(after, k) == Drift(db, k) {
      DeleteMovesDrift(db, id, release, k);
    }
  }
}
