/** Adding rows to the ledger, and refreshing their totals. */
module LedgerSeed {
  import opened Base
  import opened Inventory
  import opened Spans
  import opened Upsert

  /** Inclusive dates. */
  datatype Segment = Segment(roomType: Id, start: Date, end: Date)

  /** An empty row with the live room count for every day of the segment. */
  function SeedSpan(db: Db, g: Segment): Span<Key, Row> {
    var total := |LiveRooms(db.rooms, g.roomType)|;
    Span(g.start, g.end, d => (Key(g.roomType, d), Row(total, 0, 0)))
  }

  function SeedSpans(db: Db, segments: seq<Segment>): seq<Span<Key, Row>> {
    seq(|segments|, i requires 0 <= i < |segments| => SeedSpan(db, segments[i]))
  }

  /** The rows of all segments, in order. */
  function SeedRows(db: Db, segments: seq<Segment>): seq<(Key, Row)> {
    AllRows(SeedSpans(db, segments))
  }

  lemma SeedRowsGrow(db: Db, segments: seq<Segment>, n: nat)
    requires n < |segments|
    ensures SeedRows(db, segments[..n + 1]) == SeedRows(db, segments[..n]) + DayRows(SeedSpan(db, segments[n]), segments[n].end + 1)
  {
    var spans := SeedSpans(db, segments[..n + 1]);
    assert spans[..n] == SeedSpans(db, segments[..n]) && spans[n] == SeedSpan(db, segments[n]);
  }

  /** ON CONFLICT: only the total is refreshed. */
  function RefreshTotal(existing: Row, excluded: Row): Row {
    existing.(total := excluded.total)
  }

  predicate KnownTypes(db: Db, segments: seq<Segment>) {
    forall i :: 0 <= i < |segments| ==> segments[i].roomType in db.roomTypes
  }

  /** The ledger after seeding the segments' rows one at a time. */
  function Seeded(db: Db, segments: seq<Segment>): Db {
    db.(ledger := UpsertEach(db.ledger, SeedRows(db, segments), RefreshTotal))
  }

  /** Every row a seed writes is empty and carries the live room count of its category. */
  lemma {:induction false} SeedRowsAreLive(db: Db, segments: seq<Segment>)
    ensures forall i :: 0 <= i < |SeedRows(db, segments)| ==>
              SeedRows(db, segments)[i].1 == Row(|LiveRooms(db.rooms, SeedRows(db, segments)[i].0.roomType)|, 0, 0)
  {
    if segments != [] {
      var n := |segments| - 1;
      SeedRowsAreLive(db, segments[..n]);
      SeedRowsGrow(db, segments, n);
      assert segments[..n + 1] == segments;
    }
  }

  method BulkSeed(s: Session, segments: seq<Segment>) returns (ok: bool, count: nat)
    modifies s`ledger
    ensures ok == KnownTypes(old(s.Tables()), segments)
    ensures s.Tables() == if ok then Seeded(old(s.Tables()), segments) else old(s.Tables())
    ensures ok ==> count == |set i | 0 <= i < |SeedRows(old(s.Tables()), segments)| :: SeedRows(old(s.Tables()), segments)[i].0|
  {
    ghost var db := s.Tables();
    var byKey;
    ok, byKey := CollectRows(s, segments);
    if !ok {
      return false, 0;
    }
    SeededAtOnce(db, segments);
    count := |byKey|;
    if count != 0 {
      s.ledger := UpsertAll(s.ledger, byKey, RefreshTotal);
    }
  }

  method CollectRows(s: Session, segments: seq<Segment>) returns (ok: bool, byKey: map<Key, Row>)
    ensures ok == KnownTypes(s.Tables(), segments)
    ensures ok ==> byKey == LastWins(SeedRows(s.Tables(), segments))
  {
    var dict: Dict<Key, Row> := Dict([], map[]);
    for n := 0 to |segments|
      invariant KnownTypes(s.Tables(), segments[..n])
      invariant dict == DictOf(SeedRows(s.Tables(), segments[..n]))
    {
      var g := segments[n];
      if g.roomType !in s.roomTypes {
        return false, map[];
      }
      dict := AddSpan(dict, SeedRows(s.Tables(), segments[..n]), SeedSpan(s.Tables(), g));
      SeedRowsGrow(s.Tables(), segments, n);
    }
    assert segments[..|segments|] == segments;
    return true, dict.rows;
  }

  lemma SeededAtOnce(db: Db, segments: seq<Segment>)
    ensures
      var dict := LastWins(SeedRows(db, segments));
      && (if |dict| == 0 then db.ledger else UpsertAll(db.ledger, dict, RefreshTotal)) == Seeded(db, segments).ledger
      && dict.Keys == set i | 0 <= i < |SeedRows(db, segments)| :: SeedRows(db, segments)[i].0
  {
    SeedRowsAreLive(db, segments);
    BatchEqualsEach(db.ledger, SeedRows(db, segments), RefreshTotal);
    LastWinsKeys(SeedRows(db, segments));
  }

  /** Seeding keeps every counter and every block; on the rows it touches the totals become the live counts. */
  lemma SeedKeepsCounters(db: Db, segments: seq<Segment>)
    ensures SameBooked(db.ledger, Seeded(db, segments).ledger)
    ensures forall k :: k in db.ledger ==>
              k in Seeded(db, segments).ledger && Seeded(db, segments).ledger[k].blocked == db.ledger[k].blocked
    ensures CapacityCached(db) ==> CapacityCached(Seeded(db, segments))
  {
    SeedRowsAreLive(db, segments);
    EachKeepsCounters(db, SeedRows(db, segments));
  }

  lemma {:induction false} EachKeepsCounters(db: Db, rows: seq<(Key, Row)>)
    requires forall i :: 0 <= i < |rows| ==> rows[i].1 == Row(|LiveRooms(db.rooms, rows[i].0.roomType)|, 0, 0)
    ensures
      var after := UpsertEach(db.ledger, rows, RefreshTotal);
      && SameBooked(db.ledger, after)
      && (forall k :: k in db.ledger ==> k in after && after[k].blocked == db.ledger[k].blocked)
      && (CapacityCached(db) ==> CapacityCached(db.(ledger := after)))
  {
    if rows != [] {
      EachKeepsCounters(db, rows[..|rows| - 1]);
    }
  }

  /** Some segment covers the bucket. */
  predicate Seeds(segments: seq<Segment>, k: Key) {
    exists i :: 0 <= i < |segments| && CoversKey(segments[i], k)
  }

  predicate CoversKey(g: Segment, k: Key) {
    k.roomType == g.roomType && g.start <= k.night <= g.end
  }

  /** A row after a seed: refreshed or new if the seed covers it, as it was otherwise. */
  ghost predicate SeededRow(before: Ledger, after: Ledger, k: Key, covered: bool, live: nat) {
    && (k in after <==> k in before || covered)
    && (k in after ==> after[k] == if k !in before then Row(live, 0, 0) else if covered then before[k].(total := live) else before[k])
  }

  lemma {:induction false} SpanSeedsRow(db: Db, ledger: Ledger, g: Segment, stop: Date, k: Key)
    ensures
      var after := UpsertEach(ledger, DayRows(SeedSpan(db, g), stop), RefreshTotal);
      SeededRow(ledger, after, k, k.roomType == g.roomType && g.start <= k.night < stop, |LiveRooms(db.rooms, k.roomType)|)
    decreases stop - g.start
  {
    if g.start < stop {
      SpanSeedsRow(db, ledger, g, stop - 1, k);
      assert DayRows(SeedSpan(db, g), stop)[..stop - 1 - g.start] == DayRows(SeedSpan(db, g), stop - 1);
    }
  }

  /** A seed refreshes the totals of just the rows its segments cover, and adds just the rows missing there. */
  lemma {:induction false} SeedRefreshesRow(db: Db, segments: seq<Segment>, k: Key)
    ensures SeededRow(db.ledger, Seeded(db, segments).ledger, k, Seeds(segments, k), |LiveRooms(db.rooms, k.roomType)|)
  {
    if segments != [] {
      var n := |segments| - 1;
      SeedRefreshesRow(db, segments[..n], k);
      SeedRowsGrow(db, segments, n);
      assert segments[..n + 1] == segments;
      UpsertConcat(db.ledger, SeedRows(db, segments[..n]), DayRows(SeedSpan(db, segments[n]), segments[n].end + 1), RefreshTotal);
      SpanSeedsRow(db, Seeded(db, segments[..n]).ledger, segments[n], segments[n].end + 1, k);
      SeedsOneMore(segments, k);
    }
  }

  lemma SeedsOneMore(segments: seq<Segment>, k: Key)
    requires segments != []
    ensures Seeds(segments, k) <==> Seeds(segments[..|segments| - 1], k) || CoversKey(segments[|segments| - 1], k)
  {
    var n := |segments| - 1;
    if Seeds(segments[..n], k) {
      var i :| 0 <= i < n && CoversKey(segments[..n][i], k);
      assert CoversKey(segments[i], k);
    }
    if Seeds(segments, k) && !CoversKey(segments[n], k) {
      var i :| 0 <= i < |segments| && CoversKey(segments[i], k);
      assert CoversKey(segments[..n][i], k);
    }
  }

  // ----- New categories -----

  const HORIZON_DAYS := 365

  /** A new category with an empty row for every day of the horizon. */
  function WithRoomType(db: Db, id: Id, property: Id): Db {
    var days := StayKeys(id, db.today, db.today + HORIZON_DAYS);
    db.(roomTypes := db.roomTypes[id := RoomType(property, true)],
        ledger := map k | k in db.ledger.Keys + days :: if k in db.ledger then db.ledger[k] else Row(|LiveRooms(db.rooms, id)|, 0, 0))
  }

  method CreateRoomType(s: Session, id: Id, property: Id)
    requires id !in s.roomTypes && forall k :: k in s.ledger ==> k.roomType != id
    modifies s
    ensures s.Tables() == WithRoomType(old(s.Tables()), id, property)
  {
    s.roomTypes := s.roomTypes[id := RoomType(property, true)];
    SeedYearForward(s, id, |LiveRooms(s.rooms, id)|, s.today, HORIZON_DAYS);
    assert s.ledger == WithRoomType(old(s.Tables()), id, property).ledger;
  }

  /** A deleted category keeps its rooms, its rows and its bookings; it is only no longer live. */
  function WithoutRoomType(db: Db, id: Id): Option<Db> {
    if id !in db.roomTypes || !db.roomTypes[id].live then None
    else Some(db.(roomTypes := db.roomTypes[id := db.roomTypes[id].(live := false)]))
  }

  method SoftDeleteRoomType(s: Session, id: Id) returns (ok: bool)
    modifies s`roomTypes
    ensures ok == WithoutRoomType(old(s.Tables()), id).Some?
    ensures s.Tables() == Or(WithoutRoomType(old(s.Tables()), id), old(s.Tables()))
  {
    if id !in s.roomTypes || !s.roomTypes[id].live {
      return false;
    }
    s.roomTypes := s.roomTypes[id := s.roomTypes[id].(live := false)];
    return true;
  }

  method SeedYearForward(s: Session, roomType: Id, total: int, start: Date, days: nat)
    requires forall k :: k in s.ledger ==> k.roomType != roomType
    modifies s`ledger
    ensures s.ledger.Keys == old(s.ledger).Keys + StayKeys(roomType, start, start + days)
    ensures forall k :: k in s.ledger ==> s.ledger[k] == if k in old(s.ledger) then old(s.ledger)[k] else Row(total, 0, 0)
  {
    for i := 0 to days
      invariant s.ledger.Keys == old(s.ledger).Keys + StayKeys(roomType, start, start + i)
      invariant forall k :: k in s.ledger ==> s.ledger[k] == if k in old(s.ledger) then old(s.ledger)[k] else Row(total, 0, 0)
    {
      s.ledger := s.ledger[Key(roomType, start + i) := Row(total, 0, 0)];
    }
  }

  lemma RoomTypeKeepsCounters(db: Db, id: Id, property: Id)
    ensures SameBooked(db.ledger, WithRoomType(db, id, property).ledger)
    ensures CapacityCached(db) ==> CapacityCached(WithRoomType(db, id, property))
    ensures WithinCapacity(db.ledger) ==> WithinCapacity(WithRoomType(db, id, property).ledger)
  {
  }

  // ----- Extension -----

  /** The last seeded night of a category. */
  ghost predicate LastSeeded(ledger: Ledger, roomType: Id, day: Date) {
    Key(roomType, day) in ledger && forall k :: k in ledger && k.roomType == roomType ==> k.night <= day
  }

  /** A category gets `extra` empty rows after its last night, or from today on if it has none. */
  ghost predicate ExtendedType(before: Db, after: Ledger, roomType: Id, extra: nat) {
    exists start :: ExtendedFrom(before, after, roomType, extra, start)
  }

  ghost predicate ExtendedFrom(before: Db, after: Ledger, roomType: Id, extra: nat, start: Date) {
    && (LastSeeded(before.ledger, roomType, start - 1)
        || (start == before.today && forall k :: k in before.ledger ==> k.roomType != roomType))
    && forall d :: Key(roomType, d) in after <==> Key(roomType, d) in before.ledger || start <= d < start + extra
  }

  /** Old rows stay; every new row is empty and carries the live room count. */
  ghost predicate GrownBy(before: Db, after: Ledger) {
    && (forall k :: k in before.ledger ==> k in after && after[k] == before.ledger[k])
    && forall k :: k in after && k !in before.ledger ==> after[k] == Row(|LiveRooms(before.rooms, k.roomType)|, 0, 0)
  }

  ghost predicate Extended(before: Db, after: Ledger, extra: nat) {
    && GrownBy(before, after)
    && (forall t :: t in before.roomTypes ==> ExtendedType(before, after, t, extra))
    && forall k :: k in after && k !in before.ledger ==> k.roomType in before.roomTypes
  }

  /** MAX(date) of a category. */
  method LastNight(ledger: Ledger, roomType: Id) returns (last: Option<Date>)
    ensures last.None? ==> forall k :: k in ledger ==> k.roomType != roomType
    ensures last.Some? ==> LastSeeded(ledger, roomType, last.value)
  {
    last := None;
    var left := ledger.Keys;
    while left != {}
      invariant left <= ledger.Keys
      invariant last.None? ==> forall k :: k in ledger.Keys - left ==> k.roomType != roomType
      invariant last.Some? ==> Key(roomType, last.value) in ledger && forall k :: k in ledger.Keys - left && k.roomType == roomType ==> k.night <= last.value
    {
      var k :| k in left;
      if k.roomType == roomType && (last.None? || last.value < k.night) {
        last := Some(k.night);
      }
      left := left - {k};
    }
  }

  method ExtendLedgerDays(s: Session, extra: nat) returns (inserted: nat)
    requires extra >= 1
    modifies s`ledger
    ensures Extended(old(s.Tables()), s.ledger, extra)
    ensures inserted == |s.roomTypes| * extra
  {
    ghost var db := s.Tables();
    inserted := 0;
    var left := s.roomTypes.Keys;
    ghost var finished: nat := 0;
    while left != {}
      invariant left <= s.roomTypes.Keys && finished + |left| == |s.roomTypes.Keys| && inserted == finished * extra
      invariant GrownBy(db, s.ledger)
      invariant forall k :: k in s.ledger && k !in db.ledger ==> k.roomType in s.roomTypes.Keys - left
      invariant forall t :: t in s.roomTypes.Keys - left ==> ExtendedType(db, s.ledger, t, extra)
    {
      var t :| t in left;
      ghost var before, done := s.ledger, s.roomTypes.Keys - left;
      var start := ExtendOneType(s, t, extra);
      inserted := inserted + extra;
      finished, left := finished + 1, left - {t};
      assert ExtendedFrom(db, s.ledger, t, extra, start);
      forall u | u in done ensures ExtendedType(db, s.ledger, u, extra) {
        var from :| ExtendedFrom(db, before, u, extra, from);
        assert ExtendedFrom(db, s.ledger, u, extra, from);
      }
    }
  }

  method ExtendOneType(s: Session, roomType: Id, extra: nat) returns (start: Date)
    modifies s`ledger
    ensures ExtendedFrom(old(s.Tables()), s.ledger, roomType, extra, start)
    ensures GrownBy(old(s.Tables()), s.ledger)
    ensures forall k :: k in s.ledger && k !in old(s.ledger) ==> k.roomType == roomType
  {
    var last := LastNight(s.ledger, roomType);
    start := if last.Some? then last.value + 1 else s.today;
    var total := |LiveRooms(s.rooms, roomType)|;
    for i := 0 to extra
      invariant GrownBy(old(s.Tables()), s.ledger)
      invariant forall k :: k in s.ledger <==> k in old(s.ledger) || (k.roomType == roomType && start <= k.night < start + i)
    {
      if Key(roomType, start + i) !in s.ledger {
        s.ledger := s.ledger[Key(roomType, start + i) := Row(total, 0, 0)];
      }
    }
  }

  lemma ExtensionKeepsCounters(db: Db, after: Ledger, extra: nat)
    requires Extended(db, after, extra)
    ensures SameBooked(db.ledger, after)
    ensures CapacityCached(db) ==> CapacityCached(db.(ledger := after))
    ensures WithinCapacity(db.ledger) ==> WithinCapacity(after)
  {
    forall k | k in after ensures k in db.ledger || after[k] == Row(|LiveRooms(db.rooms, k.roomType)|, 0, 0) {}
  }
}
