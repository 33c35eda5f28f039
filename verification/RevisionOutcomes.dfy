/** What an OTA revision leaves, told from its payload: which booking it means, and what becomes of it. */
module RevisionOutcomes {
  import opened Base
  import opened BookingStatus
  import opened Inventory
  import opened Stays
  import opened BookingRules
  import opened BookingOutcomes
  import opened ChannexInbox
  import opened NightlySplit
  import BookingSafety
  import Rules = ChannexRules

  /** The external id of the booking a payload is about: the booking it names, or else the revision itself. */
  function Reference(p: Payload): Id
    requires p.Payload? && p.id.Some?
  {
    match p.booking
    case Some(b) => b
    case None => p.id.value
  }

  predicate Means(b: Booking, p: Payload)
    requires p.Payload? && p.id.Some?
  {
    b.external == Some(Reference(p))
  }

  ghost predicate NobodyMeant(db: Db, p: Payload)
    requires p.Payload? && p.id.Some?
  {
    forall x :: x in db.bookings ==> !Means(db.bookings[x], p)
  }

  /** The room and the plan are mapped, and the dates are a stay of 1 to 365 nights. */
  predicate Usable(link: Link, p: Payload) {
    && p.Payload? && p.id.Some?
    && p.room.Some? && p.room.value.0 in link.roomTypes && p.room.value in link.ratePlans
    && p.checkIn.Some? && p.checkOut.Some? && 1 <= p.checkOut.value - p.checkIn.value <= 365
  }

  function CategoryOf(link: Link, p: Payload): Id
    requires Usable(link, p)
  {
    link.roomTypes[p.room.value.0]
  }

  /** Not done already, and not in progress. */
  predicate Fresh(x: State, p: Payload)
    requires p.Payload? && p.id.Some?
  {
    p.id.value in x.revisions ==> x.revisions[p.id.value].status == Errored
  }

  /** The moves behind an ingest that got as far as the tables. */
  lemma Behind(x: State, link: Link, p: Payload, guestOk: bool, newId: Id, out: Result, y: State)
    returns (found: Option<Id>, a: Rules.Applied)
    requires Usable(link, p) && Fresh(x, p) && Ingested(x, link, p, guestOk, newId, out, y)
    ensures
      var r := Rules.Request(p.kind, link.property, Reference(p), CategoryOf(link, p), link.ratePlans[p.room.value],
                             p.checkIn.value, p.checkOut.value, p.amount);
      && Rules.FoundBy(x.db, r.external, found) && Rules.Effect(x.db, r, found, guestOk, newId, a) && Committed(x, p, a, out, y)
  {
    var r := Resolve(link, p).request;
    found, a :| Rules.FoundBy(x.db, r.external, found) && Rules.Effect(x.db, r, found, guestOk, newId, a) && Committed(x, p, a, out, y);
  }

  /** A revision is skipped exactly when it was done before or is in progress, and one that cannot be used never takes effect. */
  lemma IngestIsSkippedExactlyWhen(x: State, link: Link, p: Payload, guestOk: bool, newId: Id, out: Result, y: State)
    requires Ingested(x, link, p, guestOk, newId, out, y)
    ensures out == Skipped <==> p.Payload? && p.id.Some? && !Fresh(x, p)
    ensures !Usable(link, p) || !Fresh(x, p) ==> y.db == x.db && out != Success
    ensures out == Success ==> y.revisions == x.revisions[p.id.value := Revision(Finished, p)]
    ensures out in {Skipped, Exception} ==> y == x
    ensures out == Failure && p.Payload? && p.id.Some? ==> y.revisions == x.revisions[p.id.value := Revision(Errored, p)]
  {
  }

  /** What becomes of a payload that cannot be used: only a stay too long, or one without an id, leaves no row to retry. */
  lemma UnusableOutcome(x: State, link: Link, p: Payload, guestOk: bool, newId: Id, out: Result, y: State)
    requires !Usable(link, p) && Ingested(x, link, p, guestOk, newId, out, y)
    ensures
      if !p.Payload? || p.id.None? then out == Failure && y == x
      else if !Fresh(x, p) then out == Skipped && y == x
      else if p.room.Some? && p.room.value.0 in link.roomTypes && p.room.value in link.ratePlans
        && p.checkIn.Some? && p.checkOut.Some? && p.checkOut.value - p.checkIn.value > 365 then out == Exception && y == x
      else out == Failure && y == x.(revisions := x.revisions[p.id.value := Revision(Errored, p)])
  {
  }

  // ----- What an imported stay costs -----

  /** The amount is shared out over the nights: all but the last alike, and the last takes what is left, less than a cent a night more. */
  predicate SharedOut(lines: seq<Line>, amount: Cents) {
    && lines != [] && Sum(Prices(lines)) == amount
    && forall i :: 0 <= i < |lines| - 1 ==>
         var rest := lines[|lines| - 1].price - lines[i].price;
         && lines[i].price == lines[0].price
         && (amount >= 0 ==> 0 <= rest < |lines|) && (amount <= 0 ==> 0 <= -rest < |lines|)
  }

  lemma StayIsSharedOut(roomType: Id, checkIn: Date, amount: Cents, n: nat, room: Option<Id>)
    requires n >= 1
    ensures SharedOut(StayLines(roomType, checkIn, Split(amount, n), room), amount)
  {
    var lines := StayLines(roomType, checkIn, Split(amount, n), room);
    StayLinesShape(roomType, checkIn, Split(amount, n), room);
    SplitSumsToTotal(amount, n);
    forall i | 0 <= i < n - 1
      ensures
        var rest := lines[n - 1].price - lines[i].price;
        lines[i].price == lines[0].price && (amount >= 0 ==> 0 <= rest < n) && (amount <= 0 ==> 0 <= -rest < n)
    {
      SplitIsEven(amount, n, i);
    }
  }

  // ----- Cancellation -----

  /** The booking is cancelled, and its nights are given back unless it was cancelled before. */
  ghost predicate CancelledBy(db: Db, id: Id, after: Db)
    requires id in db.bookings
  {
    var b := db.bookings[id];
    && after == db.(ledger := after.ledger, bookings := db.bookings[id := b.(status := Cancelled)])
    && CountersMove(db.ledger, after.ledger, if b.status == Cancelled then [] else b.lines, [])
  }

  lemma CancelsExactly(db: Db, id: Id, a: Rules.Applied)
    requires Sound(db) && id in db.bookings && Rules.Cancels(db, id, a)
    ensures a.outcome == Rules.Done <==> db.bookings[id].status == Cancelled || CanGiveBack(db.ledger, db.bookings[id].lines)
    ensures a.outcome != Rules.Raised
    ensures a.outcome == Rules.Done ==> CancelledBy(db, id, Rules.Apply(db, a))
  {
    var b := db.bookings[id];
    BookingSafety.ReleasedIsHeld(b);
    BookingSafety.ShiftNothing(db.ledger);
    GiveBackIsReleasable(db.ledger, b.lines);
    ShiftMoves(db.ledger, b.lines, []);
    assert KeysOf([]) == {};
    NothingMoves(db.ledger);
    assert b.status == Cancelled ==> db.bookings[id := b.(status := Cancelled)] == db.bookings;
  }

  lemma FoundIsMeant(db: Db, p: Payload, found: Option<Id>, id: Id)
    requires UniqueExternal(db) && p.Payload? && p.id.Some? && Rules.FoundBy(db, Reference(p), found)
    requires id in db.bookings && Means(db.bookings[id], p)
    ensures found == Some(id)
  {
  }

  /** A cancellation cancels the booking it means if that is cancelled already or its nights can be given back, and fails otherwise. */
  lemma CancellationOutcome(x: State, link: Link, p: Payload, guestOk: bool, newId: Id, out: Result, y: State, id: Id)
    requires Sound(x.db) && Usable(link, p) && Fresh(x, p) && p.kind == Rules.Cancellation && Ingested(x, link, p, guestOk, newId, out, y)
    requires id in x.db.bookings && Means(x.db.bookings[id], p)
    ensures
      if x.db.bookings[id].status == Cancelled || CanGiveBack(x.db.ledger, x.db.bookings[id].lines)
      then out == Success && CancelledBy(x.db, id, y.db)
      else out == Failure
  {
    var found, a := Behind(x, link, p, guestOk, newId, out, y);
    FoundIsMeant(x.db, p, found, id);
    CancelsExactly(x.db, id, a);
  }

  /** A cancellation or a modification that means no booking fails and changes no table. */
  lemma NobodyIsMeant(x: State, link: Link, p: Payload, guestOk: bool, newId: Id, out: Result, y: State)
    requires Usable(link, p) && Fresh(x, p) && p.kind != Rules.New && Ingested(x, link, p, guestOk, newId, out, y)
    requires NobodyMeant(x.db, p)
    ensures out == Failure && y.db == x.db
  {
    var found, a := Behind(x, link, p, guestOk, newId, out, y);
    BookingSafety.ShiftNothing(x.db.ledger);
  }

  // ----- Modification -----

  /** The booking is on the payload's nights, in the mapped category and no room, on the mapped plan and at the payload's amount. */
  ghost predicate RewrittenBy(db: Db, link: Link, p: Payload, id: Id, after: Db)
    requires Usable(link, p) && id in db.bookings
  {
    && id in after.bookings && after == db.(ledger := after.ledger, bookings := db.bookings[id := after.bookings[id]])
    && (var b, c := db.bookings[id], after.bookings[id];
        && c == b.(ratePlan := Some(link.ratePlans[p.room.value]), total := p.amount, lines := c.lines) && SharedOut(c.lines, p.amount)
        && LinesAre(c.lines, CategoryOf(link, p), p.checkIn.value, p.checkOut.value, None)
        && CountersMove(db.ledger, after.ledger, b.lines, c.lines))
  }

  /** Each night of the payload has a room left once the old nights are given back. */
  ghost predicate NightsFit(db: Db, link: Link, p: Payload, before: seq<Line>)
    requires Usable(link, p)
  {
    forall k :: InStay(k, CategoryOf(link, p), p.checkIn.value, p.checkOut.value) ==>
      k in db.ledger && db.ledger[k].booked + db.ledger[k].blocked - (if OnLine(before, k) then 1 else 0) < db.ledger[k].total
  }

  lemma FitsExactly(db: Db, roomType: Id, checkIn: Date, checkOut: Date, lines: seq<Line>)
    ensures
      Covers(Shift(db.ledger, KeysOf(lines), {}), StayKeys(roomType, checkIn, checkOut), 1) <==>
      forall k :: InStay(k, roomType, checkIn, checkOut) ==>
        k in db.ledger && db.ledger[k].booked + db.ledger[k].blocked - (if OnLine(lines, k) then 1 else 0) < db.ledger[k].total
  {
    forall k ensures (OnLine(lines, k) <==> k in KeysOf(lines)) && (InStay(k, roomType, checkIn, checkOut) <==> k in StayKeys(roomType, checkIn, checkOut)) {
      OnLineIsKey(lines, k);
      assert k == Key(k.roomType, k.night);
    }
  }

  lemma RewrittenLines(b: Booking, r: Rules.Request)
    requires r.checkIn < r.checkOut
    ensures
      var c := Rules.Rewritten(b, r);
      && c == b.(ratePlan := Some(r.ratePlan), total := r.amount, lines := c.lines) && SharedOut(c.lines, r.amount)
      && LinesAre(c.lines, r.roomType, r.checkIn, r.checkOut, None) && KeysOf(c.lines) == r.Keys()
  {
    Rules.RewrittenShape(b, r);
    StayIsSharedOut(r.roomType, r.checkIn, r.amount, r.checkOut - r.checkIn, None);
  }

  lemma ModifiesExactly(db: Db, id: Id, r: Rules.Request, a: Rules.Applied)
    requires Sound(db) && id in db.bookings && r.checkIn < r.checkOut && Rules.Modifies(db, id, r, a)
    ensures
      var lines := db.bookings[id].lines;
      a.outcome == Rules.Done <==> CanGiveBack(db.ledger, lines) && Covers(Shift(db.ledger, KeysOf(lines), {}), r.Keys(), 1)
    ensures a.outcome != Rules.Raised
    ensures
      a.outcome == Rules.Done ==>
        && Rules.Apply(db, a) == db.(ledger := Rules.Apply(db, a).ledger, bookings := db.bookings[id := Rules.Rewritten(db.bookings[id], r)])
        && CountersMove(db.ledger, Rules.Apply(db, a).ledger, db.bookings[id].lines, Rules.Rewritten(db.bookings[id], r).lines)
  {
    var b := db.bookings[id];
    BookingSafety.ReleasedIsHeld(b);
    GiveBackIsReleasable(db.ledger, b.lines);
    RewrittenLines(b, r);
    ShiftMoves(db.ledger, b.lines, Rules.Rewritten(b, r).lines);
  }

  /** A modification rewrites the booking it means if its nights can be given back and the new ones fit, and fails otherwise. */
  lemma ModificationOutcome(x: State, link: Link, p: Payload, guestOk: bool, newId: Id, out: Result, y: State, id: Id)
    requires Sound(x.db) && Usable(link, p) && Fresh(x, p) && p.kind == Rules.Modified && Ingested(x, link, p, guestOk, newId, out, y)
    requires id in x.db.bookings && Means(x.db.bookings[id], p)
    ensures
      if CanGiveBack(x.db.ledger, x.db.bookings[id].lines) && NightsFit(x.db, link, p, x.db.bookings[id].lines)
      then out == Success && RewrittenBy(x.db, link, p, id, y.db)
      else out == Failure
  {
    var r := Rules.Request(p.kind, link.property, Reference(p), CategoryOf(link, p), link.ratePlans[p.room.value],
                           p.checkIn.value, p.checkOut.value, p.amount);
    var found, a := Behind(x, link, p, guestOk, newId, out, y);
    FoundIsMeant(x.db, p, found, id);
    ModifiesExactly(x.db, id, r, a);
    FitsExactly(x.db, r.roomType, r.checkIn, r.checkOut, x.db.bookings[id].lines);
    RewrittenLines(x.db.bookings[id], r);
  }

  // ----- New bookings -----

  /** A confirmed booking of the payload's nights in the mapped category and the first vacant room, at the payload's amount. */
  ghost predicate StoredBy(db: Db, link: Link, p: Payload, id: Id, after: Db)
    requires Usable(link, p)
  {
    && id in after.bookings && after == db.(ledger := after.ledger, bookings := db.bookings[id := after.bookings[id]])
    && (var b := after.bookings[id];
        && b.status == Confirmed && b.property == link.property && b.external == Some(Reference(p))
        && b.ratePlan == Some(link.ratePlans[p.room.value]) && b.total == p.amount && SharedOut(b.lines, p.amount)
        && LinesAre(b.lines, CategoryOf(link, p), p.checkIn.value, p.checkOut.value, b.lines[0].room)
        && FirstVacant(db, CategoryOf(link, p), link.property, p.checkIn.value, p.checkOut.value, id, b.lines[0].room)
        && CountersMove(db.ledger, after.ledger, [], b.lines))
  }

  lemma ImportedLines(r: Rules.Request, room: Option<Id>)
    requires r.checkIn < r.checkOut
    ensures
      var b := Rules.Imported(r, room);
      && b.status == Confirmed && b.property == r.property && b.external == Some(r.external) && b.ratePlan == Some(r.ratePlan)
      && b.total == r.amount && SharedOut(b.lines, r.amount)
      && LinesAre(b.lines, r.roomType, r.checkIn, r.checkOut, room) && KeysOf(b.lines) == r.Keys()
  {
    Rules.ImportedShape(r, room);
    StayIsSharedOut(r.roomType, r.checkIn, r.amount, r.checkOut - r.checkIn, room);
  }

  lemma CreatesStores(db: Db, r: Rules.Request, guestOk: bool, id: Id, a: Rules.Applied) returns (room: Option<Id>)
    requires r.checkIn < r.checkOut && Rules.Creates(db, r, guestOk, id, a) && a.outcome == Rules.Done
    ensures FirstVacant(db, r.roomType, r.property, r.checkIn, r.checkOut, id, room)
    ensures a == Rules.Applied(Rules.Done, {}, r.Keys(), Some((id, Rules.Imported(r, room))))
    ensures CountersMove(db.ledger, Shift(db.ledger, {}, r.Keys()), [], Rules.Imported(r, room).lines)
  {
    room :| FirstFree(db, r.roomType, r.property, StayNights(r.checkIn, r.checkOut), id, room)
      && a == if room.Some? && !db.roomTypes[r.roomType].live then Rules.ROLLED_BACK
              else Rules.Applied(Rules.Done, {}, r.Keys(), Some((id, Rules.Imported(r, room))));
    FirstFreeIsVacant(db, r.roomType, r.property, r.checkIn, r.checkOut, id, room);
    ImportedLines(r, room);
    ShiftMoves(db.ledger, [], Rules.Imported(r, room).lines);
    assert KeysOf([]) == {};
  }

  /** A new booking whose reference is already taken changes nothing and counts as done. */
  lemma AlreadyStored(x: State, link: Link, p: Payload, guestOk: bool, newId: Id, out: Result, y: State, id: Id)
    requires Usable(link, p) && Fresh(x, p) && p.kind == Rules.New && Ingested(x, link, p, guestOk, newId, out, y)
    requires id in x.db.bookings && Means(x.db.bookings[id], p)
    ensures out == Success && y.db == x.db
  {
    var found, a := Behind(x, link, p, guestOk, newId, out, y);
    BookingSafety.ShiftNothing(x.db.ledger);
  }

  /** One whose reference is new is stored when its nights fit, its guest can be found or made, and its category can still be assigned to. */
  lemma NewBookingOutcome(x: State, link: Link, p: Payload, guestOk: bool, newId: Id, out: Result, y: State)
    requires Usable(link, p) && Fresh(x, p) && p.kind == Rules.New && Ingested(x, link, p, guestOk, newId, out, y)
    requires NobodyMeant(x.db, p)
    ensures out == Success ==> StoredBy(x.db, link, p, newId, y.db)
    ensures out == Success || out == Exception ==> NightsFit(x.db, link, p, []) && guestOk
    ensures
      NightsFit(x.db, link, p, []) && guestOk ==>
        if CategoryOf(link, p) in x.db.roomTypes && x.db.roomTypes[CategoryOf(link, p)].live then out == Success else out in {Success, Exception}
  {
    var r := Rules.Request(p.kind, link.property, Reference(p), CategoryOf(link, p), link.ratePlans[p.room.value],
                           p.checkIn.value, p.checkOut.value, p.amount);
    var found, a := Behind(x, link, p, guestOk, newId, out, y);
    FitsExactly(x.db, r.roomType, r.checkIn, r.checkOut, []);
    assert KeysOf([]) == {};
    BookingSafety.ShiftNothing(x.db.ledger);
    if a.outcome == Rules.Done {
      var room := CreatesStores(x.db, r, guestOk, newId, a);
      ImportedLines(r, room);
    }
  }

  // ----- A revision after another -----

  /**
   A booking stored by one revision is found by a later one, with any revision id of its own, that names the same
   booking; when that is a cancellation, the booking is cancelled and every ledger row is as it was before the first.
   */
  lemma NewThenCancelled(x: State, first: Link, p: Payload, guestOk: bool, newId: Id, y: State,
                         second: Link, q: Payload, later: bool, otherId: Id, out: Result, z: State)
    requires Valid(x.db) && newId !in x.db.bookings
    requires Usable(first, p) && Fresh(x, p) && p.kind == Rules.New && NobodyMeant(x.db, p) && Ingested(x, first, p, guestOk, newId, Success, y)
    requires Usable(second, q) && Fresh(y, q) && q.kind == Rules.Cancellation && Ingested(y, second, q, later, otherId, out, z)
    requires Reference(q) == Reference(p)
    ensures out == Success && newId in z.db.bookings && z.db.bookings[newId].status == Cancelled && z.db.ledger == x.db.ledger
  {
    NewBookingOutcome(x, first, p, guestOk, newId, Success, y);
    StoredIsSound(x, first, p, guestOk, newId, y);
    StoredCanBeGivenBack(x.db, first, p, newId, y.db);
    CancellationOutcome(y, second, q, later, otherId, out, z, newId);
    MovedBack(x.db.ledger, y.db.ledger, z.db.ledger, y.db.bookings[newId].lines);
  }

  lemma StoredCanBeGivenBack(db: Db, link: Link, p: Payload, id: Id, after: Db)
    requires Valid(db) && Usable(link, p) && NightsFit(db, link, p, []) && StoredBy(db, link, p, id, after)
    ensures CanGiveBack(after.ledger, after.bookings[id].lines)
  {
    var lines := after.bookings[id].lines;
    forall k | OnLine(lines, k)
      ensures k in after.ledger && after.ledger[k].booked + after.ledger[k].blocked <= after.ledger[k].total && after.ledger[k].booked >= 1
    {
      OnItsNight(lines, CategoryOf(link, p), p.checkIn.value, p.checkOut.value, k);
      assert BookedRooms(db.ledger, k) == Count(db.bookings, k);
    }
  }

  /** When the later revision is a modification that succeeds, it is that booking that is rewritten. */
  lemma NewThenModified(x: State, first: Link, p: Payload, guestOk: bool, newId: Id, y: State,
                        second: Link, q: Payload, later: bool, otherId: Id, z: State)
    requires Sound(x.db) && newId !in x.db.bookings
    requires Usable(first, p) && Fresh(x, p) && p.kind == Rules.New && NobodyMeant(x.db, p) && Ingested(x, first, p, guestOk, newId, Success, y)
    requires Usable(second, q) && Fresh(y, q) && q.kind == Rules.Modified && Ingested(y, second, q, later, otherId, Success, z)
    requires Reference(q) == Reference(p)
    ensures newId in y.db.bookings && RewrittenBy(y.db, second, q, newId, z.db) && z.db.bookings[newId].external == Some(Reference(p))
  {
    NewBookingOutcome(x, first, p, guestOk, newId, Success, y);
    StoredIsSound(x, first, p, guestOk, newId, y);
    ModificationOutcome(y, second, q, later, otherId, Success, z, newId);
  }

  /** A delivery that commits and whose acknowledgement arrives leaves the revision acknowledged if it is done; a lost one leaves nothing. */
  lemma DoneIsAcknowledged(x: State, rev: Id, p: Payload, env: Surroundings, y: State)
    requires Good(x) && p.Payload? && p.id == Some(rev) && Step(x, Delivery(rev, Some(p), env), y)
    ensures env.commits && env.ackArrives && rev in y.revisions && y.revisions[rev].status == Finished ==> rev in y.acknowledged
    ensures !env.commits ==> y == x
  {
    var out, mid :| IngestedAndSettled(x, rev, p, env, out, mid, y);
    IngestIsSkippedExactlyWhen(x, env.link, p, env.guestOk, env.newId, out, mid);
  }

  lemma OnItsNight(lines: seq<Line>, roomType: Id, checkIn: Date, checkOut: Date, k: Key)
    requires lines != [] && LinesAre(lines, roomType, checkIn, checkOut, lines[0].room) && OnLine(lines, k)
    ensures InStay(k, roomType, checkIn, checkOut)
  {
  }

  lemma StoredIsSound(x: State, link: Link, p: Payload, guestOk: bool, newId: Id, y: State)
    requires Sound(x.db) && newId !in x.db.bookings && Usable(link, p) && Fresh(x, p) && Ingested(x, link, p, guestOk, newId, Success, y)
    ensures Sound(y.db)
  {
    var r := Rules.Request(p.kind, link.property, Reference(p), CategoryOf(link, p), link.ratePlans[p.room.value],
                           p.checkIn.value, p.checkOut.value, p.amount);
    var found, a := Behind(x, link, p, guestOk, newId, Success, y);
    Rules.RevisionMovesDrift(x.db, r, found, guestOk, newId, a);
  }

  lemma MovedBack(one: Ledger, two: Ledger, three: Ledger, lines: seq<Line>)
    requires CountersMove(one, two, [], lines) && CountersMove(two, three, lines, [])
    ensures three == one
  {
    forall k | k in one ensures three[k] == one[k] {
      assert !OnLine([], k);
    }
  }
}
