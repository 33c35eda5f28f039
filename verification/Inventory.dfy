/**
 The tables of one tenant, and what it means for the availability ledger to agree with the
 bookings it caches.
 */
module Inventory {
  import opened Base
  import opened BookingStatus

  /** One bucket of the ledger: a room category on one night. */
  datatype Key = Key(roomType: Id, night: Date)

  datatype Row = Row(total: int, booked: int, blocked: int) {
    function Available(): int { total - booked - blocked }
  }

  type Ledger = map<Key, Row>

  /** One night of a booking. */
  datatype Line = Line(roomType: Id, night: Date, room: Option<Id>, price: Cents) {
    function Bucket(): Key { Key(roomType, night) }
  }

  datatype Booking = Booking(
    status: Status,
    property: Id,
    ratePlan: Option<Id>,
    external: Option<Id>,
    total: Cents,
    lines: seq<Line>)
  {
    predicate Active() { Occupies(status) }
  }

  type Bookings = map<Id, Booking>

  datatype RoomType = RoomType(property: Id, live: bool)

  /** `InService` is the status `available`. */
  datatype RoomStatus = InService | Maintenance | OutOfOrder

  /** A physical room; `name` is the rank of its name in the order used by ORDER BY. */
  datatype Room = Room(roomType: Id, name: nat, live: bool, status: RoomStatus)

  datatype RateKey = RateKey(roomType: Id, ratePlan: Id, night: Date)

  /** What a rate row holds besides its key. */
  datatype Rate = Rate(price: Cents, stopSell: bool, minStayArrival: Option<nat>, maxStay: Option<nat>)

  type Rates = map<RateKey, Rate>

  /** A snapshot of the tables. */
  datatype Db = Db(
    ledger: Ledger,
    bookings: Bookings,
    roomTypes: map<Id, RoomType>,
    ratePlans: map<Id, Id>,
    rates: Rates,
    rooms: map<Id, Room>,
    today: Date)

  /** A database session: the working copy that service functions update in place. */
  class Session {
    var ledger: Ledger
    var bookings: Bookings
    var roomTypes: map<Id, RoomType>
    var ratePlans: map<Id, Id>
    var rates: Rates
    var rooms: map<Id, Room>
    var today: Date

    constructor (db: Db)
      ensures Tables() == db
    {
      ledger, bookings, roomTypes := db.ledger, db.bookings, db.roomTypes;
      ratePlans, rates, rooms, today := db.ratePlans, db.rates, db.rooms, db.today;
    }

    function Tables(): Db
      reads this
    {
      Db(ledger, bookings, roomTypes, ratePlans, rates, rooms, today)
    }

    /** What the request scope does when an exception leaves a service. */
    method Rollback(committed: Db)
      modifies this
      ensures Tables() == committed
    {
      ledger, bookings, roomTypes := committed.ledger, committed.bookings, committed.roomTypes;
      ratePlans, rates, rooms, today := committed.ratePlans, committed.rates, committed.rooms, committed.today;
    }
  }

  // ----- Keys held by bookings -----

  function KeysOf(lines: seq<Line>): set<Key> {
    set i | 0 <= i < |lines| :: lines[i].Bucket()
  }

  /** The buckets a booking occupies: none once it is cancelled or a no-show. */
  function Held(b: Booking): set<Key> {
    if b.Active() then KeysOf(b.lines) else {}
  }

  function HeldBy(bookings: Bookings, id: Id): set<Key> {
    if id in bookings then Held(bookings[id]) else {}
  }

  function StayKeys(roomType: Id, checkIn: Date, checkOut: Date): set<Key> {
    set d | checkIn <= d < checkOut :: Key(roomType, d)
  }

  /** Every line of an occupying booking on bucket k, as (booking, line number). */
  ghost function ActiveLines(bookings: Bookings, k: Key): set<(Id, int)> {
    set id, i | id in bookings && bookings[id].Active() && 0 <= i < |bookings[id].lines|
                && bookings[id].lines[i].Bucket() == k :: (id, i)
  }

  /** The number of lines on bucket k of bookings that occupy inventory. */
  ghost function Count(bookings: Bookings, k: Key): nat {
    |ActiveLines(bookings, k)|
  }

  function BookedRooms(ledger: Ledger, k: Key): int {
    if k in ledger then ledger[k].booked else 0
  }

  /** The counter cache is exact, and nothing is booked on a bucket without a row. */
  ghost predicate Agreement(db: Db) {
    forall k: Key :: BookedRooms(db.ledger, k) == Count(db.bookings, k)
  }

  // ----- Shape of bookings -----

  function Prices(lines: seq<Line>): seq<Cents> {
    seq(|lines|, i requires 0 <= i < |lines| => lines[i].price)
  }

  /** A contiguous stay in one category and in one room, or in none. */
  ghost predicate OneStay(lines: seq<Line>) {
    && lines != []
    && forall i :: 0 <= i < |lines| ==>
         && lines[i].night == lines[0].night + i
         && lines[i].roomType == lines[0].roomType
         && lines[i].room == lines[0].room
  }

  ghost predicate WellFormed(b: Booking) {
    OneStay(b.lines) && b.total == Sum(Prices(b.lines))
  }

  ghost predicate AllWellFormed(db: Db) {
    forall id :: id in db.bookings ==> WellFormed(db.bookings[id])
  }

  /** Two bookings claim one physical room on one night. */
  ghost predicate Clash(a: Booking, b: Booking) {
    exists i, j :: 0 <= i < |a.lines| && 0 <= j < |b.lines| && a.lines[i].room.Some?
      && a.lines[i].room == b.lines[j].room && a.lines[i].night == b.lines[j].night
  }

  /** No room is on lines of two occupying bookings on one night. */
  ghost predicate Exclusive(db: Db) {
    forall x, y :: x in db.bookings && y in db.bookings && x != y && db.bookings[x].Active() && db.bookings[y].Active()
                   ==> !Clash(db.bookings[x], db.bookings[y])
  }

  ghost predicate UniqueExternal(db: Db) {
    forall x, y :: x in db.bookings && y in db.bookings && x != y && db.bookings[x].external.Some?
                   ==> db.bookings[x].external != db.bookings[y].external
  }

  /** What holds of the bookings in every state the services reach, whatever the ledger counts. */
  ghost predicate Sound(db: Db) {
    AllWellFormed(db) && Exclusive(db) && UniqueExternal(db)
  }

  /** Sound, and the ledger is exact. */
  ghost predicate Valid(db: Db) {
    Agreement(db) && Sound(db)
  }

  // ----- Drift -----

  /** By how many rooms a bucket counts more than the bookings hold. */
  ghost function Drift(db: Db, k: Key): int {
    BookedRooms(db.ledger, k) - Count(db.bookings, k)
  }

  ghost predicate SameDrift(before: Db, after: Db) {
    forall k :: Drift(after, k) == Drift(before, k)
  }

  /** The ledger is exact where nothing drifts. */
  lemma ExactWithoutDrift(db: Db)
    ensures Agreement(db) <==> forall k :: Drift(db, k) == 0
  {
    if Agreement(db) {
      forall k ensures Drift(db, k) == 0 {
        assert BookedRooms(db.ledger, k) == Count(db.bookings, k);
      }
    }
    if forall k :: Drift(db, k) == 0 {
      forall k: Key ensures BookedRooms(db.ledger, k) == Count(db.bookings, k) {
        assert Drift(db, k) == 0;
      }
    }
  }

  lemma SameDriftKeepsAgreement(before: Db, after: Db)
    requires SameDrift(before, after)
    ensures Agreement(after) <==> Agreement(before)
  {
    ExactWithoutDrift(before);
    ExactWithoutDrift(after);
    if Agreement(before) {
      forall k ensures Drift(after, k) == 0 {
        assert Drift(after, k) == Drift(before, k);
      }
    }
    if Agreement(after) {
      forall k ensures Drift(before, k) == 0 {
        assert Drift(after, k) == Drift(before, k);
      }
    }
  }

  lemma ExactStaysExactly(before: Db, after: Db)
    requires Agreement(before)
    ensures Agreement(after) <==> SameDrift(before, after)
  {
    ExactWithoutDrift(before);
    ExactWithoutDrift(after);
  }

  lemma SameDriftTwice(one: Db, two: Db, three: Db)
    requires SameDrift(one, two) && SameDrift(two, three)
    ensures SameDrift(one, three)
  {
    forall k ensures Drift(three, k) == Drift(one, k) {
      assert Drift(three, k) == Drift(two, k) && Drift(two, k) == Drift(one, k);
    }
  }

  // ----- The ledger under release and booking -----

  /** One room fewer booked on each bucket of `release`, one more on each of `book`. */
  function Shift(ledger: Ledger, release: set<Key>, book: set<Key>): Ledger {
    map k | k in ledger ::
      ledger[k].(booked := ledger[k].booked - (if k in release then 1 else 0) + (if k in book then 1 else 0))
  }

  /** Every bucket is seeded and has at least n rooms left. */
  predicate Covers(ledger: Ledger, keys: set<Key>, n: int) {
    forall k :: k in keys ==> k in ledger && ledger[k].Available() >= n
  }

  /** Every bucket can give one room back. */
  predicate Releasable(ledger: Ledger, keys: set<Key>) {
    Covers(ledger, keys, 0) && forall k :: k in keys ==> ledger[k].booked >= 1
  }

  /** A move of dates is a release followed by a booking. */
  lemma ShiftIsReleaseThenBook(ledger: Ledger, release: set<Key>, book: set<Key>)
    ensures Shift(Shift(ledger, release, {}), {}, book) == Shift(ledger, release, book)
  {
  }

  // ----- Counting -----

  /** The lines of one booking on bucket k, as they appear in ActiveLines. */
  ghost function OwnLines(id: Id, b: Booking, k: Key): set<(Id, int)> {
    set i | 0 <= i < |b.lines| && b.Active() && b.lines[i].Bucket() == k :: (id, i)
  }

  lemma ActiveLinesSplit(bookings: Bookings, id: Id, b: Booking, k: Key)
    ensures ActiveLines(bookings[id := b], k) == ActiveLines(bookings - {id}, k) + OwnLines(id, b, k)
  {
    var after, others := bookings[id := b], bookings - {id};
    forall p
      ensures p in ActiveLines(after, k) <==> p in ActiveLines(others, k) + OwnLines(id, b, k)
    {
      if p.0 != id {
        assert p.0 in after <==> p.0 in others;
      }
    }
  }

  lemma OwnLinesCount(id: Id, b: Booking, k: Key)
    requires OneStay(b.lines)
    ensures |OwnLines(id, b, k)| == if k in Held(b) then 1 else 0
  {
    if k in Held(b) {
      var i :| 0 <= i < |b.lines| && b.lines[i].Bucket() == k;
      assert OwnLines(id, b, k) == {(id, i)};
    } else {
      assert OwnLines(id, b, k) == {};
    }
  }

  lemma CountUpdate(bookings: Bookings, id: Id, b: Booking, k: Key)
    requires OneStay(b.lines)
    ensures Count(bookings[id := b], k) == Count(bookings - {id}, k) + (if k in Held(b) then 1 else 0)
  {
    ActiveLinesSplit(bookings, id, b, k);
    OwnLinesCount(id, b, k);
    assert ActiveLines(bookings - {id}, k) !! OwnLines(id, b, k);
  }

  lemma CountRemove(db: Db, id: Id, k: Key)
    requires AllWellFormed(db)
    ensures Count(db.bookings, k) == Count(db.bookings - {id}, k) + (if k in HeldBy(db.bookings, id) then 1 else 0)
  {
    if id in db.bookings {
      assert db.bookings == db.bookings[id := db.bookings[id]];
      CountUpdate(db.bookings, id, db.bookings[id], k);
    } else {
      assert db.bookings == db.bookings - {id};
    }
  }

  /** A bucket held by a booking has a row that counts at least one room. */
  lemma HeldIsBooked(db: Db, id: Id)
    requires Agreement(db) && AllWellFormed(db)
    ensures forall k :: k in HeldBy(db.bookings, id) ==> k in db.ledger && db.ledger[k].booked >= 1
  {
    forall k | k in HeldBy(db.bookings, id) ensures k in db.ledger && db.ledger[k].booked >= 1 {
      CountRemove(db, id, k);
      assert BookedRooms(db.ledger, k) == Count(db.bookings, k) >= 1;
    }
  }

  /** 1 for a member, 0 otherwise. */
  function In(k: Key, keys: set<Key>): int {
    if k in keys then 1 else 0
  }

  /** Putting one booking in place of another (or of none) moves drift by what the counters and the held buckets move apart. */
  lemma PutMovesDrift(db: Db, id: Id, b: Booking, release: set<Key>, book: set<Key>, k: Key)
    requires AllWellFormed(db) && OneStay(b.lines) && release <= db.ledger.Keys && book <= db.ledger.Keys
    ensures
      Drift(db.(ledger := Shift(db.ledger, release, book), bookings := db.bookings[id := b]), k)
        == Drift(db, k) + In(k, book) - In(k, release) - In(k, Held(b)) + In(k, HeldBy(db.bookings, id))
  {
    CountUpdate(db.bookings, id, b, k);
    CountRemove(db, id, k);
  }

  /** So does deleting one. */
  lemma DeleteMovesDrift(db: Db, id: Id, release: set<Key>, k: Key)
    requires AllWellFormed(db) && release <= db.ledger.Keys
    ensures
      Drift(db.(ledger := Shift(db.ledger, release, {}), bookings := db.bookings - {id}), k)
        == Drift(db, k) - In(k, release) + In(k, HeldBy(db.bookings, id))
  {
    CountRemove(db, id, k);
  }

  /**
   Putting one booking in place of another (or of none) keeps agreement exactly when the ledger
   moves, bucket by bucket, as the buckets held by that booking do.
   */
  lemma AgreementAfterPut(db: Db, id: Id, b: Booking, release: set<Key>, book: set<Key>)
    requires Agreement(db) && AllWellFormed(db) && OneStay(b.lines)
    requires release <= db.ledger.Keys && book <= db.ledger.Keys
    ensures
      var after := db.(ledger := Shift(db.ledger, release, book), bookings := db.bookings[id := b]);
      Agreement(after) <==>
      forall k :: In(k, book) - In(k, release) == In(k, Held(b)) - In(k, HeldBy(db.bookings, id))
  {
    var after := db.(ledger := Shift(db.ledger, release, book), bookings := db.bookings[id := b]);
    ExactWithoutDrift(db);
    ExactWithoutDrift(after);
    forall k
      ensures Drift(after, k) == In(k, book) - In(k, release) - In(k, Held(b)) + In(k, HeldBy(db.bookings, id))
    {
      PutMovesDrift(db, id, b, release, book, k);
    }
  }

  /** Deleting a booking keeps agreement when exactly what it held is released. */
  lemma AgreementAfterDelete(db: Db, id: Id)
    requires Agreement(db) && AllWellFormed(db)
    ensures Agreement(db.(ledger := Shift(db.ledger, HeldBy(db.bookings, id), {}), bookings := db.bookings - {id}))
  {
    var after := db.(ledger := Shift(db.ledger, HeldBy(db.bookings, id), {}), bookings := db.bookings - {id});
    HeldIsBooked(db, id);
    forall k ensures Drift(after, k) == Drift(db, k) {
      DeleteMovesDrift(db, id, HeldBy(db.bookings, id), k);
    }
    SameDriftKeepsAgreement(db, after);
  }

  /** Rows may be added empty and totals or blocks rewritten without touching agreement. */
  ghost predicate SameBooked(before: Ledger, after: Ledger) {
    forall k: Key :: BookedRooms(before, k) == BookedRooms(after, k)
  }

  lemma RewriteKeepsDrift(db: Db, after: Db)
    requires after.bookings == db.bookings && SameBooked(db.ledger, after.ledger)
    ensures SameDrift(db, after)
  {
    forall k ensures Drift(after, k) == Drift(db, k) {
      assert BookedRooms(db.ledger, k) == BookedRooms(after.ledger, k);
    }
  }

  lemma AgreementAfterRewrite(db: Db, ledger: Ledger)
    requires Agreement(db) && SameBooked(db.ledger, ledger)
    ensures Agreement(db.(ledger := ledger))
  {
    RewriteKeepsDrift(db, db.(ledger := ledger));
    SameDriftKeepsAgreement(db, db.(ledger := ledger));
  }

  // ----- Capacity -----

  /** No bucket is committed beyond its rooms. */
  ghost predicate WithinCapacity(ledger: Ledger) {
    forall k :: k in ledger ==> ledger[k].Available() >= 0
  }

  /** Rooms of a category that have not been deleted. */
  function LiveRooms(rooms: map<Id, Room>, roomType: Id): (ids: set<Id>) {
    set r | r in rooms && rooms[r].live && rooms[r].roomType == roomType
  }

  /** From today on, the cached total of every row is the number of live rooms of its category. */
  ghost predicate CapacityCached(db: Db) {
    forall k :: k in db.ledger && k.night >= db.today ==> db.ledger[k].total == |LiveRooms(db.rooms, k.roomType)|
  }
}
