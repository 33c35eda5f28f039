/** What the room and ledger transactions leave, told row by row: which requests are accepted and which rows change. */
module TableOutcomes {
  import opened Base
  import opened BookingStatus
  import opened Inventory
  import opened Operations
  import Override = AvailabilityOverride
  import Rooms = RoomService
  import Seed = LedgerSeed

  predicate IsLive(db: Db, roomType: Id) {
    roomType in db.roomTypes && db.roomTypes[roomType].live
  }

  /** How many rooms of the category are not deleted. */
  function RoomCount(rooms: map<Id, Room>, roomType: Id): nat {
    |set r | r in rooms && rooms[r].live && rooms[r].roomType == roomType|
  }

  lemma CountsLiveRooms(rooms: map<Id, Room>)
    ensures forall t :: |LiveRooms(rooms, t)| == RoomCount(rooms, t)
  {
    forall t ensures |LiveRooms(rooms, t)| == RoomCount(rooms, t) {
      assert LiveRooms(rooms, t) == set r | r in rooms && rooms[r].live && rooms[r].roomType == t;
    }
  }

  /** Rooms and ledger rows may have changed, and nothing else. */
  predicate OnlyRooms(db: Db, after: Db) {
    after == db.(rooms := after.rooms, ledger := after.ledger)
  }

  /** From today on the totals of these categories are their room counts; the rest of the ledger is as it was. */
  ghost predicate TotalsFollow(db: Db, after: Db, types: set<Id>) {
    && after.ledger.Keys == db.ledger.Keys
    && forall k :: k in db.ledger ==>
         after.ledger[k] == Row(
           if k.roomType in types && k.night >= db.today then RoomCount(after.rooms, k.roomType) else db.ledger[k].total,
           db.ledger[k].booked, db.ledger[k].blocked)
  }

  lemma RecalculatedFollows(db: Db, rooms: map<Id, Room>, roomType: Id)
    ensures TotalsFollow(db, Rooms.Recalculated(db.(rooms := rooms), roomType), {roomType})
  {
    CountsLiveRooms(rooms);
  }

  lemma BothFollow(db: Db, rooms: map<Id, Room>, one: Id, two: Id)
    requires one != two
    ensures TotalsFollow(db, Rooms.Recalculated(Rooms.Recalculated(db.(rooms := rooms), one), two), {two, one})
  {
    CountsLiveRooms(rooms);
  }

  // ----- Rooms -----

  /** A room is added exactly when its category is live and its status is one of the three; the totals follow. */
  lemma AddRoomOutcome(db: Db, id: Id, roomType: Id, item: Rooms.Item, after: Db)
    requires Step(db, AddRoom(id, roomType, item), after)
    ensures
      if IsLive(db, roomType) && item.status.As? then
        && OnlyRooms(db, after) && id !in db.rooms
        && after.rooms == db.rooms[id := Room(roomType, item.name, true, item.status.status)]
        && TotalsFollow(db, after, {roomType})
      else after == db
  {
    if IsLive(db, roomType) && item.status.As? {
      RecalculatedFollows(db, db.rooms[id := Room(roomType, item.name, true, item.status.status)], roomType);
    }
  }

  /** Changing a room is refused for a deleted room, a deleted new category and an unknown status. */
  predicate Editable(db: Db, id: Id, p: Rooms.RoomPatch) {
    && id in db.rooms && db.rooms[id].live && p.status != Some(Rooms.NoSuchStatus)
    && (p.newType.Some? && p.newType.value != db.rooms[id].roomType ==> IsLive(db, p.newType.value))
  }

  /** A change writes the fields it names; both totals follow a room that changes its category. */
  lemma EditRoomOutcome(db: Db, id: Id, p: Rooms.RoomPatch, after: Db)
    requires Step(db, EditRoom(id, p), after)
    ensures if Editable(db, id, p) then OnlyRooms(db, after) && IsEdited(db, id, p, after) else after == db
  {
    if Editable(db, id, p) {
      EditedOutcome(db, id, p);
    }
  }

  ghost predicate IsEdited(db: Db, id: Id, p: Rooms.RoomPatch, after: Db)
    requires id in db.rooms
  {
    && id in after.rooms && after.rooms == db.rooms[id := after.rooms[id]]
    && var room, was := after.rooms[id], db.rooms[id];
    && room.live
    && room.roomType == (if p.newType.Some? then p.newType.value else was.roomType)
    && room.name == (if p.name.Some? then p.name.value else was.name)
    && (if p.status.Some? then p.status.value == Rooms.As(room.status) else room.status == was.status)
    && TotalsFollow(db, after, if room.roomType == was.roomType then {} else {room.roomType, was.roomType})
  }

  lemma EditedOutcome(db: Db, id: Id, p: Rooms.RoomPatch)
    requires Editable(db, id, p)
    ensures
      var after := Rooms.PatchRoom(db, id, p);
      after.Some? && OnlyRooms(db, after.value) && IsEdited(db, id, p, after.value)
  {
    var was, room := db.rooms[id], Rooms.Edited(db.rooms[id], p);
    var rooms := db.rooms[id := room];
    if room.roomType != was.roomType {
      BothFollow(db, rooms, was.roomType, room.roomType);
    }
  }

  /** Some booking still to be stayed, or being stayed, has the room on a night from today on. */
  predicate StillNeeded(db: Db, room: Id) {
    exists x, i ::
      && x in db.bookings && db.bookings[x].status in {Pending, Confirmed, CheckedIn} && 0 <= i < |db.bookings[x].lines|
      && db.bookings[x].lines[i].room == Some(room) && db.bookings[x].lines[i].night >= db.today
  }

  lemma NeededIsStillNeeded(db: Db, room: Id)
    ensures Rooms.NeededFromToday(db, room) <==> StillNeeded(db, room)
  {
    if Rooms.NeededFromToday(db, room) {
      var x :| x in db.bookings && db.bookings[x].status in {Pending, Confirmed, CheckedIn} && Rooms.UsesRoomFrom(db.bookings[x].lines, room, db.today);
      var i :| 0 <= i < |db.bookings[x].lines| && db.bookings[x].lines[i].room == Some(room) && db.bookings[x].lines[i].night >= db.today;
    }
    if StillNeeded(db, room) {
      var x, i :|
        && x in db.bookings && db.bookings[x].status in {Pending, Confirmed, CheckedIn} && 0 <= i < |db.bookings[x].lines|
        && db.bookings[x].lines[i].room == Some(room) && db.bookings[x].lines[i].night >= db.today;
      assert Rooms.UsesRoomFrom(db.bookings[x].lines, room, db.today);
    }
  }

  /** A room is deleted exactly when nobody needs it any more; it stays on the books, and the totals follow. */
  lemma RemoveRoomOutcome(db: Db, id: Id, after: Db)
    requires Step(db, RemoveRoom(id), after)
    ensures
      if id in db.rooms && db.rooms[id].live && !StillNeeded(db, id) then
        && OnlyRooms(db, after) && after.rooms == db.rooms[id := db.rooms[id].(live := false)]
        && TotalsFollow(db, after, {db.rooms[id].roomType})
      else after == db
  {
    NeededIsStillNeeded(db, id);
    if id in db.rooms {
      RecalculatedFollows(db, db.rooms[id := db.rooms[id].(live := false)], db.rooms[id].roomType);
    }
  }

  /** A room of the category that is not deleted has the name. */
  predicate NameTaken(db: Db, roomType: Id, name: nat) {
    exists r :: r in db.rooms && db.rooms[r].live && db.rooms[r].roomType == roomType && db.rooms[r].name == name
  }

  lemma TakenIsInUse(db: Db, roomType: Id, name: nat)
    ensures NameTaken(db, roomType, name) <==> name in Rooms.NamesInUse(db.rooms, roomType)
  {
    if NameTaken(db, roomType, name) {
      var r :| r in db.rooms && db.rooms[r].live && db.rooms[r].roomType == roomType && db.rooms[r].name == name;
      assert r in LiveRooms(db.rooms, roomType);
    }
  }

  /** A batch is accepted as a whole: different names, statuses that exist, and new names unless told to skip. */
  predicate BatchAccepted(db: Db, roomType: Id, items: seq<Rooms.Item>, skip: bool) {
    && IsLive(db, roomType)
    && (forall i, j :: 0 <= i < j < |items| ==> items[i].name != items[j].name)
    && (forall i :: 0 <= i < |items| ==> items[i].status.As?)
    && (skip || forall i :: 0 <= i < |items| ==> !NameTaken(db, roomType, items[i].name))
  }

  lemma AcceptedIsCanCreate(db: Db, roomType: Id, items: seq<Rooms.Item>, skip: bool)
    ensures BatchAccepted(db, roomType, items, skip) <==> Rooms.CanCreateBulk(db, roomType, items, skip)
  {
    var names := Rooms.Names(items);
    forall i | 0 <= i < |items|
      ensures names[i] == items[i].name && (NameTaken(db, roomType, items[i].name) <==> items[i].name in Rooms.NamesInUse(db.rooms, roomType))
    {
      TakenIsInUse(db, roomType, items[i].name);
    }
    if Distinct(names) {
      forall i, j | 0 <= i < j < |items| ensures items[i].name != items[j].name {
        assert names[i] != names[j];
      }
    }
  }

  /** The row is the new room of some item. */
  predicate RoomOf(rooms: map<Id, Room>, r: Id, roomType: Id, item: Rooms.Item) {
    r in rooms && item.status.As? && rooms[r] == Room(roomType, item.name, true, item.status.status)
  }

  predicate NewRoomOf(db: Db, rooms: map<Id, Room>, r: Id, roomType: Id, item: Rooms.Item) {
    r !in db.rooms && RoomOf(rooms, r, roomType, item) && !NameTaken(db, roomType, item.name)
  }

  /** One new room for each item whose name was not taken, and no other. */
  ghost predicate RoomsOfBatch(db: Db, rooms: map<Id, Room>, roomType: Id, items: seq<Rooms.Item>) {
    && (forall r :: r in db.rooms ==> r in rooms && rooms[r] == db.rooms[r])
    && (forall item :: item in items && !NameTaken(db, roomType, item.name) ==> exists r :: NewRoomOf(db, rooms, r, roomType, item))
    && (forall r :: r in rooms && r !in db.rooms ==> exists item :: item in items && NewRoomOf(db, rooms, r, roomType, item))
    && (forall r, q, item :: NewRoomOf(db, rooms, r, roomType, item) && NewRoomOf(db, rooms, q, roomType, item) ==> r == q)
  }

  lemma {:induction false} AddedAt(before: map<Id, Room>, ids: seq<Id>, roomType: Id, items: seq<Rooms.Item>, i: nat)
    requires i < |items| <= |ids| && Distinct(ids) && Rooms.KnownStatuses(items)
    ensures RoomOf(Rooms.AddRooms(before, ids, roomType, items), ids[i], roomType, items[i])
  {
    var n := |items| - 1;
    if i < n {
      AddedAt(before, ids, roomType, items[..n], i);
      assert ids[i] != ids[n];
    }
  }

  lemma {:induction false} FilteredMembers(items: seq<Rooms.Item>, used: set<nat>, item: Rooms.Item)
    ensures item in Rooms.Filtered(items, used, false) <==> item in items && item.name !in used
  {
    if items != [] {
      var n := |items| - 1;
      FilteredMembers(items[..n], used, item);
      assert items == items[..n] + [items[n]];
    }
  }

  lemma {:induction false} FilteredNamesDiffer(items: seq<Rooms.Item>, used: set<nat>)
    requires forall i, j :: 0 <= i < j < |items| ==> items[i].name != items[j].name
    ensures
      var added := Rooms.Filtered(items, used, false);
      forall i, j :: 0 <= i < j < |added| ==> added[i].name != added[j].name
  {
    if items != [] {
      var n := |items| - 1;
      FilteredNamesDiffer(items[..n], used);
      var rest := Rooms.Filtered(items[..n], used, false);
      forall i | 0 <= i < |rest| ensures rest[i].name != items[n].name {
        FilteredMembers(items[..n], used, rest[i]);
      }
    }
  }

  /** The new room is that of item j among those added, which is an item of the batch whose name was not taken. */
  lemma AddedRoomOf(db: Db, ids: seq<Id>, roomType: Id, items: seq<Rooms.Item>, added: seq<Rooms.Item>, r: Id) returns (j: nat)
    requires |added| <= |ids| && Distinct(ids) && Rooms.KnownStatuses(added)
    requires added == Rooms.Filtered(items, Rooms.NamesInUse(db.rooms, roomType), false)
    requires r in Rooms.AddRooms(db.rooms, ids, roomType, added) && r !in db.rooms && forall i :: 0 <= i < |ids| ==> ids[i] !in db.rooms
    ensures j < |added| && r == ids[j] && added[j] in items && NewRoomOf(db, Rooms.AddRooms(db.rooms, ids, roomType, added), r, roomType, added[j])
  {
    Rooms.AddRoomsTouchesOneType(db.rooms, ids, roomType, added, roomType + 1);
    j :| 0 <= j < |added| && r == ids[j];
    AddedAt(db.rooms, ids, roomType, added, j);
    FilteredMembers(items, Rooms.NamesInUse(db.rooms, roomType), added[j]);
    TakenIsInUse(db, roomType, added[j].name);
  }

  lemma ItemIsAdded(db: Db, ids: seq<Id>, roomType: Id, items: seq<Rooms.Item>, added: seq<Rooms.Item>, item: Rooms.Item) returns (r: Id)
    requires |added| <= |ids| && Distinct(ids) && Rooms.KnownStatuses(added)
    requires added == Rooms.Filtered(items, Rooms.NamesInUse(db.rooms, roomType), false)
    requires item in items && !NameTaken(db, roomType, item.name) && forall j :: 0 <= j < |ids| ==> ids[j] !in db.rooms
    ensures NewRoomOf(db, Rooms.AddRooms(db.rooms, ids, roomType, added), r, roomType, item)
  {
    TakenIsInUse(db, roomType, item.name);
    FilteredMembers(items, Rooms.NamesInUse(db.rooms, roomType), item);
    var j :| 0 <= j < |added| && added[j] == item;
    AddedAt(db.rooms, ids, roomType, added, j);
    r := ids[j];
  }

  lemma SameItemSameRoom(db: Db, ids: seq<Id>, roomType: Id, items: seq<Rooms.Item>, added: seq<Rooms.Item>, r: Id, q: Id, item: Rooms.Item)
    requires |added| <= |ids| && Distinct(ids) && Rooms.KnownStatuses(added) && forall i :: 0 <= i < |ids| ==> ids[i] !in db.rooms
    requires added == Rooms.Filtered(items, Rooms.NamesInUse(db.rooms, roomType), false)
    requires forall i, j :: 0 <= i < j < |added| ==> added[i].name != added[j].name
    requires
      var rooms := Rooms.AddRooms(db.rooms, ids, roomType, added);
      NewRoomOf(db, rooms, r, roomType, item) && NewRoomOf(db, rooms, q, roomType, item)
    ensures r == q
  {
    var j := AddedRoomOf(db, ids, roomType, items, added, r);
    var m := AddedRoomOf(db, ids, roomType, items, added, q);
    assert added[j].name == added[m].name;
  }

  lemma BatchRooms(db: Db, ids: seq<Id>, roomType: Id, items: seq<Rooms.Item>, added: seq<Rooms.Item>)
    requires |added| <= |ids| && Distinct(ids) && Rooms.KnownStatuses(added) && forall i :: 0 <= i < |ids| ==> ids[i] !in db.rooms
    requires added == Rooms.Filtered(items, Rooms.NamesInUse(db.rooms, roomType), false)
    requires forall i, j :: 0 <= i < j < |items| ==> items[i].name != items[j].name
    ensures RoomsOfBatch(db, Rooms.AddRooms(db.rooms, ids, roomType, added), roomType, items)
  {
    var rooms := Rooms.AddRooms(db.rooms, ids, roomType, added);
    Rooms.AddRoomsTouchesOneType(db.rooms, ids, roomType, added, roomType + 1);
    FilteredNamesDiffer(items, Rooms.NamesInUse(db.rooms, roomType));
    forall item | item in items && !NameTaken(db, roomType, item.name) ensures exists r :: NewRoomOf(db, rooms, r, roomType, item) {
      var r := ItemIsAdded(db, ids, roomType, items, added, item);
    }
    forall r | r in rooms && r !in db.rooms ensures exists item :: item in items && NewRoomOf(db, rooms, r, roomType, item) {
      var j := AddedRoomOf(db, ids, roomType, items, added, r);
    }
    forall r, q, item | NewRoomOf(db, rooms, r, roomType, item) && NewRoomOf(db, rooms, q, roomType, item) ensures r == q {
      SameItemSameRoom(db, ids, roomType, items, added, r, q, item);
    }
  }

  /** A batch is added exactly when it is accepted: one room for each name not taken, and the totals follow. */
  lemma AddRoomsOutcome(db: Db, ids: seq<Id>, roomType: Id, items: seq<Rooms.Item>, skip: bool, after: Db)
    requires Step(db, AddRooms(ids, roomType, items, skip), after) && Distinct(ids)
    ensures
      if BatchAccepted(db, roomType, items, skip) then
        && OnlyRooms(db, after) && RoomsOfBatch(db, after.rooms, roomType, items)
        && TotalsFollow(db, after, if after.rooms == db.rooms then {} else {roomType})
      else after == db
  {
    AcceptedIsCanCreate(db, roomType, items, skip);
    if BatchAccepted(db, roomType, items, skip) {
      var added := Rooms.Filtered(items, Rooms.NamesInUse(db.rooms, roomType), false);
      Rooms.FilteredIsPart(items, Rooms.NamesInUse(db.rooms, roomType), false);
      BatchRooms(db, ids, roomType, items, added);
      BatchTotals(db, ids, roomType, items, added);
    }
  }

  lemma BatchTotals(db: Db, ids: seq<Id>, roomType: Id, items: seq<Rooms.Item>, added: seq<Rooms.Item>)
    requires |added| <= |items| <= |ids| && Rooms.KnownStatuses(items) && forall i :: 0 <= i < |ids| ==> ids[i] !in db.rooms
    requires Rooms.KnownStatuses(added) && added == Rooms.Filtered(items, Rooms.NamesInUse(db.rooms, roomType), false)
    ensures
      var after := Rooms.CreatedInBulk(db, ids, roomType, items);
      && OnlyRooms(db, after) && after.rooms == Rooms.AddRooms(db.rooms, ids, roomType, added)
      && TotalsFollow(db, after, if after.rooms == db.rooms then {} else {roomType})
  {
    if added != [] {
      var rooms := Rooms.AddRooms(db.rooms, ids, roomType, added);
      assert ids[|added| - 1] in rooms;
      RecalculatedFollows(db, rooms, roomType);
    }
  }

  // ----- Blocks -----

  /** A block is set on every night of the inclusive range, exactly when all of them have a row with that many rooms beside their bookings. */
  lemma BlockOutcome(db: Db, roomType: Id, start: Date, end: Date, rooms: nat, after: Db)
    requires Step(db, Block(roomType, start, end, rooms), after)
    ensures
      if forall d :: start <= d <= end ==> Key(roomType, d) in db.ledger && db.ledger[Key(roomType, d)].booked + rooms <= db.ledger[Key(roomType, d)].total then
        && after == db.(ledger := after.ledger) && after.ledger.Keys == db.ledger.Keys
        && forall k :: k in db.ledger ==>
             after.ledger[k] == db.ledger[k].(blocked := if k.roomType == roomType && start <= k.night <= end then rooms else db.ledger[k].blocked)
      else after == db
  {
    var keys := Override.RangeKeys(roomType, start, end);
    forall k ensures k in keys <==> k.roomType == roomType && start <= k.night <= end {
      if k.roomType == roomType && start <= k.night <= end {
        assert k == Key(roomType, k.night);
      }
    }
    if Override.CanBlock(db.ledger, keys, rooms) {
      forall d | start <= d <= end
        ensures Key(roomType, d) in db.ledger && db.ledger[Key(roomType, d)].booked + rooms <= db.ledger[Key(roomType, d)].total
      {
        assert Key(roomType, d) in keys;
      }
    }
  }

  // ----- Ledger rows -----

  /** Some segment names the category and has the night within its inclusive dates. */
  predicate InSegments(segments: seq<Seed.Segment>, k: Key) {
    exists i :: 0 <= i < |segments| && segments[i].roomType == k.roomType && segments[i].start <= k.night <= segments[i].end
  }

  lemma InSegmentsIsSeeds(segments: seq<Seed.Segment>, k: Key)
    ensures InSegments(segments, k) <==> Seed.Seeds(segments, k)
  {
    if InSegments(segments, k) {
      var i :| 0 <= i < |segments| && segments[i].roomType == k.roomType && segments[i].start <= k.night <= segments[i].end;
      assert Seed.CoversKey(segments[i], k);
    }
    if Seed.Seeds(segments, k) {
      var i :| 0 <= i < |segments| && Seed.CoversKey(segments[i], k);
    }
  }

  /** A seed refreshes or adds just the rows in its segments, provided every category exists, deleted or not. */
  lemma SeedOutcome(db: Db, segments: seq<Seed.Segment>, after: Db, k: Key)
    requires Step(db, SeedBulk(segments), after)
    ensures
      if forall i :: 0 <= i < |segments| ==> segments[i].roomType in db.roomTypes then
        && after == db.(ledger := after.ledger)
        && (k in after.ledger <==> k in db.ledger || InSegments(segments, k))
        && (k in db.ledger ==>
              after.ledger[k] == db.ledger[k].(total := if InSegments(segments, k) then RoomCount(db.rooms, k.roomType) else db.ledger[k].total))
        && (k in after.ledger && k !in db.ledger ==> after.ledger[k] == Row(RoomCount(db.rooms, k.roomType), 0, 0))
      else after == db
  {
    InSegmentsIsSeeds(segments, k);
    Seed.SeedRefreshesRow(db, segments, k);
    CountsLiveRooms(db.rooms);
  }

  /** A new category gets an empty row for each of 365 days from today on. */
  lemma AddRoomTypeOutcome(db: Db, id: Id, property: Id, after: Db, k: Key)
    requires Step(db, AddRoomType(id, property), after)
    ensures after == db.(roomTypes := db.roomTypes[id := RoomType(property, true)], ledger := after.ledger)
    ensures k in after.ledger <==> k in db.ledger || (k.roomType == id && db.today <= k.night < db.today + 365)
    ensures k in db.ledger ==> after.ledger[k] == db.ledger[k]
    ensures k in after.ledger && k !in db.ledger ==> after.ledger[k] == Row(RoomCount(db.rooms, id), 0, 0)
  {
    CountsLiveRooms(db.rooms);
    assert k == Key(k.roomType, k.night);
  }

  /** A deleted category keeps everything else. */
  lemma RemoveRoomTypeOutcome(db: Db, id: Id, after: Db)
    requires Step(db, RemoveRoomType(id), after)
    ensures after == if IsLive(db, id) then db.(roomTypes := db.roomTypes[id := RoomType(db.roomTypes[id].property, false)]) else db
  {
  }

  /** An extension adds `extra` nights behind the last one of each category, empty, and touches nothing else. */
  lemma ExtendOutcome(db: Db, extra: nat, after: Db, roomType: Id, last: Date, k: Key)
    requires Step(db, Extend(extra), after) && roomType in db.roomTypes
    requires Key(roomType, last) in db.ledger && forall d :: Key(roomType, d) in db.ledger ==> d <= last
    ensures after == db.(ledger := after.ledger)
    ensures k in db.ledger ==> k in after.ledger && after.ledger[k] == db.ledger[k]
    ensures k.roomType == roomType && k !in db.ledger ==> (k in after.ledger <==> last < k.night <= last + extra)
    ensures k in after.ledger && k !in db.ledger ==> k.roomType in db.roomTypes && after.ledger[k] == Row(RoomCount(db.rooms, k.roomType), 0, 0)
  {
    CountsLiveRooms(db.rooms);
    if k.roomType == roomType {
      ExtendedBehind(db, after.ledger, extra, roomType, last, k);
    }
  }

  lemma ExtendedBehind(db: Db, after: Ledger, extra: nat, roomType: Id, last: Date, k: Key)
    requires Seed.Extended(db, after, extra) && roomType in db.roomTypes && k.roomType == roomType
    requires Key(roomType, last) in db.ledger && forall d :: Key(roomType, d) in db.ledger ==> d <= last
    ensures k !in db.ledger ==> (k in after <==> last < k.night <= last + extra)
  {
    assert Seed.ExtendedType(db, after, roomType, extra);
    var start :| Seed.ExtendedFrom(db, after, roomType, extra, start);
    assert start == last + 1;
    assert k == Key(roomType, k.night);
  }
}
