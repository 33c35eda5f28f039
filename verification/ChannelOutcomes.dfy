/** What a number shown on the channel is worth, and which buckets a push that goes through writes. */
module ChannelOutcomes {
  import opened Base
  import opened Inventory
  import opened BookingOutcomes
  import opened BookingRules
  import opened ChannelPush
  import opened Operations

  // ----- The number -----

  /** A request for the one night of a bucket that lacks nothing but, perhaps, a room. */
  predicate AsksFor(db: Db, r: CreateRequest, k: Key) {
    && r.checkIn == k.night && r.checkOut == k.night + 1 && r.roomType == k.roomType
    && r.external.None? && r.guestOk
    && r.roomType in db.roomTypes && db.roomTypes[r.roomType].live && db.roomTypes[r.roomType].property == r.property
    && r.ratePlan in db.ratePlans && db.ratePlans[r.ratePlan] == r.property
    && RateKey(r.roomType, r.ratePlan, k.night) in db.rates
  }

  ghost predicate AllAskFor(db: Db, ops: seq<Operation>, k: Key) {
    forall i :: 0 <= i < |ops| ==> ops[i].Create? && AsksFor(db, ops[i].request, k)
  }

  lemma AskedIsBookable(db: Db, r: CreateRequest, k: Key)
    requires AsksFor(db, r, k)
    ensures Bookable(db, r) <==> Image(db.ledger, k) > 0
  {
    assert InStay(k, r.roomType, r.checkIn, r.checkOut);
    forall x | InStay(x, r.roomType, r.checkIn, r.checkOut) ensures x == k {
    }
  }

  /** One request more: while a room is left it is booked, and one room less is shown. */
  lemma OneMoreAsks(db: Db, r: CreateRequest, id: Id, after: Db, k: Key)
    requires AsksFor(db, r, k) && Step(db, Create(r, id), after)
    ensures after == db.(ledger := after.ledger, bookings := after.bookings)
    ensures Image(db.ledger, k) > 0 ==> |after.bookings| == |db.bookings| + 1 && Image(after.ledger, k) == Image(db.ledger, k) - 1
    ensures Image(db.ledger, k) == 0 ==> after == db
  {
    CreateOutcome(db, r, id, after);
    AskedIsBookable(db, r, k);
    if Bookable(db, r) {
      OneMoreBooked(db, r, id, after, k);
    }
  }

  lemma OneMoreBooked(db: Db, r: CreateRequest, id: Id, after: Db, k: Key)
    requires AsksFor(db, r, k) && Booked(db, r, id, after) && Image(db.ledger, k) > 0
    ensures |after.bookings| == |db.bookings| + 1 && Image(after.ledger, k) == Image(db.ledger, k) - 1
  {
    var lines := after.bookings[id].lines;
    assert after.bookings.Keys == db.bookings.Keys + {id};
    assert lines[0].roomType == k.roomType && lines[0].night == k.night;
    assert OnLine(lines, k) && !OnLine([], k);
  }

  /** The number shown is how many more single nights can be booked: of any requests for that night, that many go through. */
  lemma {:induction false} ShownCanBeBooked(dbs: seq<Db>, ops: seq<Operation>, k: Key, m: nat)
    requires Run(dbs, ops) && AllAskFor(dbs[0], ops, k) && m <= |ops|
    ensures
      var n := Image(dbs[0].ledger, k);
      && dbs[m] == dbs[0].(ledger := dbs[m].ledger, bookings := dbs[m].bookings)
      && |dbs[m].bookings| == |dbs[0].bookings| + Min(m, n) && Image(dbs[m].ledger, k) == n - Min(m, n)
  {
    if m > 0 {
      ShownCanBeBooked(dbs, ops, k, m - 1);
      assert StepAt(dbs, ops, m - 1);
      OneMoreAsks(dbs[m - 1], ops[m - 1].request, ops[m - 1].id, dbs[m], k);
    }
  }

  // ----- The buckets -----

  predicate Writes(updates: seq<Update>, k: Key) {
    exists i :: 0 <= i < |updates| && updates[i].key == k
  }

  predicate Truthful(updates: seq<Update>, ledger: Ledger) {
    forall i :: 0 <= i < |updates| ==> updates[i].available == Image(ledger, updates[i].key)
  }

  /** Updates read from one ledger show its image on every bucket they name and leave every other bucket alone. */
  lemma {:induction false} ShownOn(mirror: Mirror, updates: seq<Update>, ledger: Ledger, k: Key)
    requires Truthful(updates, ledger)
    ensures
      var after := Shown(mirror, updates);
      if Writes(updates, k) then k in after && after[k] == Image(ledger, k)
      else (k in after <==> k in mirror) && (k in mirror ==> after[k] == mirror[k])
  {
    if updates != [] {
      var n := |updates| - 1;
      ShownOn(mirror, updates[..n], ledger, k);
      if i :| 0 <= i < n && updates[..n][i].key == k {
        assert updates[i].key == k;
      }
      if i :| 0 <= i < n && updates[i].key == k {
        assert updates[..n][i].key == k;
      }
    }
  }

  /** A push shows the image on every date asked for and leaves all other buckets alone. */
  lemma PushShows(mirror: Mirror, ledger: Ledger, roomType: Id, asked: seq<Date>, k: Key)
    ensures
      var after := Shown(mirror, Values(ledger, roomType, SortedDates(asked)));
      if k.roomType == roomType && k.night in asked then k in after && after[k] == Image(ledger, k)
      else (k in after <==> k in mirror) && (k in mirror ==> after[k] == mirror[k])
  {
    var dates := SortedDates(asked);
    SortedDatesShape(asked);
    if k.roomType == roomType && k.night in asked {
      var i :| 0 <= i < |dates| && dates[i] == k.night;
      assert Values(ledger, roomType, dates)[i].key == k;
    }
    ShownOn(mirror, Values(ledger, roomType, dates), ledger, k);
  }

  lemma {:induction false} FullWrites(ledger: Ledger, roomTypes: seq<Id>, start: Date, k: Key)
    ensures Truthful(FullValues(ledger, roomTypes, start), ledger)
    ensures Writes(FullValues(ledger, roomTypes, start), k) <==> k.roomType in roomTypes && start <= k.night < start + 365
  {
    if roomTypes != [] {
      var n := |roomTypes| - 1;
      var rest, last := FullValues(ledger, roomTypes[..n], start), Values(ledger, roomTypes[n], Days(start, SYNC_DAYS));
      FullWrites(ledger, roomTypes[..n], start, k);
      WritesEither(rest, last, k);
      if k.roomType == roomTypes[n] && start <= k.night < start + 365 {
        assert last[k.night - start].key == k;
      }
      assert roomTypes == roomTypes[..n] + [roomTypes[n]];
    }
  }

  lemma WritesEither(a: seq<Update>, b: seq<Update>, k: Key)
    ensures Writes(a + b, k) <==> Writes(a, k) || Writes(b, k)
  {
    if i :| 0 <= i < |a| && a[i].key == k {
      assert (a + b)[i].key == k;
    }
    if i :| 0 <= i < |b| && b[i].key == k {
      assert (a + b)[|a| + i].key == k;
    }
  }

  /** A full sync shows the image of every mapped category on each of 365 days and leaves all other buckets alone. */
  lemma FullSyncShows(mirror: Mirror, ledger: Ledger, roomTypes: seq<Id>, start: Date, k: Key)
    ensures
      var after := Shown(mirror, FullValues(ledger, roomTypes, start));
      if k.roomType in roomTypes && start <= k.night < start + 365 then k in after && after[k] == Image(ledger, k)
      else (k in after <==> k in mirror) && (k in mirror ==> after[k] == mirror[k])
  {
    FullWrites(ledger, roomTypes, start, k);
    ShownOn(mirror, FullValues(ledger, roomTypes, start), ledger, k);
  }
}
