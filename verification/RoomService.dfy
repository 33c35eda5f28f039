/** Physical rooms, and the cached room totals of the ledger. */
module RoomService {
  import opened Base
  import opened BookingStatus
  import opened Inventory

  /** A requested room status after trimming and lower-casing: one of the three names, or some other text. */
  datatype StatusText = As(status: RoomStatus) | NoSuchStatus

  /** One room of a bulk request. */
  datatype Item = Item(name: nat, status: StatusText)

  // ----- What each operation does to the tables -----

  /** Rows of one category from today on take the number of live rooms as their total. */
  function Recalculated(db: Db, roomType: Id): Db {
    db.(ledger := map k | k in db.ledger ::
          if k.roomType == roomType && k.night >= db.today
          then db.ledger[k].(total := |LiveRooms(db.rooms, roomType)|) else db.ledger[k])
  }

  predicate LiveType(db: Db, roomType: Id) {
    roomType in db.roomTypes && db.roomTypes[roomType].live
  }

  function CreateRoom(db: Db, id: Id, roomType: Id, item: Item): Option<Db> {
    if item.status.NoSuchStatus? || !LiveType(db, roomType) then None
    else Some(Recalculated(db.(rooms := db.rooms[id := NewRoom(roomType, item)]), roomType))
  }

  function NewRoom(roomType: Id, item: Item): Room
    requires item.status.As?
  {
    Room(roomType, item.name, true, item.status.status)
  }

  /** What a patch asks for; None leaves a field as it is. */
  datatype RoomPatch = RoomPatch(name: Option<nat>, newType: Option<Id>, status: Option<StatusText>)

  /** The room with the fields of the patch. */
  function Edited(room: Room, p: RoomPatch): Room
    requires p.status != Some(NoSuchStatus)
  {
    Room(Or(p.newType, room.roomType), Or(p.name, room.name), room.live, if p.status.Some? then p.status.value.status else room.status)
  }

  function PatchRoom(db: Db, id: Id, p: RoomPatch): Option<Db> {
    if id !in db.rooms || !db.rooms[id].live then None else
    var room := db.rooms[id];
    var target := Or(p.newType, room.roomType);
    if (target != room.roomType && !LiveType(db, target)) || p.status == Some(NoSuchStatus) then None else
    var edited := db.(rooms := db.rooms[id := Edited(room, p)]);
    Some(if target != room.roomType then Recalculated(Recalculated(edited, room.roomType), target) else edited)
  }

  /** A line of a booking that is still to be stayed, or being stayed, in the room from today on. */
  predicate NeededFromToday(db: Db, room: Id) {
    exists x :: x in db.bookings && db.bookings[x].status in {Pending, Confirmed, CheckedIn} && UsesRoomFrom(db.bookings[x].lines, room, db.today)
  }

  predicate UsesRoomFrom(lines: seq<Line>, room: Id, day: Date) {
    exists i :: 0 <= i < |lines| && lines[i].room == Some(room) && lines[i].night >= day
  }

  function SoftDeleteRoom(db: Db, id: Id): Option<Db> {
    if id !in db.rooms || !db.rooms[id].live || NeededFromToday(db, id) then None
    else Some(Recalculated(db.(rooms := db.rooms[id := db.rooms[id].(live := false)]), db.rooms[id].roomType))
  }

  /** Names already used by live rooms of the category. */
  function NamesInUse(rooms: map<Id, Room>, roomType: Id): set<nat> {
    set r | r in LiveRooms(rooms, roomType) :: rooms[r].name
  }

  /** The items of a batch whose names are new, or are not, in batch order. */
  function Filtered(items: seq<Item>, used: set<nat>, keepUsed: bool): seq<Item> {
    if items == [] then [] else
    var last := items[|items| - 1];
    Filtered(items[..|items| - 1], used, keepUsed) + if (last.name in used) == keepUsed then [last] else []
  }

  function Names(items: seq<Item>): seq<nat> {
    seq(|items|, i requires 0 <= i < |items| => items[i].name)
  }

  predicate NoneUsed(items: seq<Item>, used: set<nat>) {
    forall i :: 0 <= i < |items| ==> items[i].name !in used
  }

  predicate KnownStatuses(items: seq<Item>) {
    forall i :: 0 <= i < |items| ==> items[i].status.As?
  }

  /** Rooms with the ids, names and statuses given, all live and of one category. */
  function AddRooms(rooms: map<Id, Room>, ids: seq<Id>, roomType: Id, items: seq<Item>): map<Id, Room>
    requires |items| <= |ids| && KnownStatuses(items)
  {
    if items == [] then rooms
    else AddRooms(rooms, ids, roomType, items[..|items| - 1])[ids[|items| - 1] := NewRoom(roomType, items[|items| - 1])]
  }

  predicate CanCreateBulk(db: Db, roomType: Id, items: seq<Item>, skip: bool) {
    && LiveType(db, roomType) && Distinct(Names(items)) && KnownStatuses(items)
    && (skip || NoneUsed(items, NamesInUse(db.rooms, roomType)))
  }

  function CreatedInBulk(db: Db, ids: seq<Id>, roomType: Id, items: seq<Item>): Db
    requires |items| <= |ids| && KnownStatuses(items)
  {
    var added := Filtered(items, NamesInUse(db.rooms, roomType), false);
    FilteredIsPart(items, NamesInUse(db.rooms, roomType), false);
    if added == [] then db else Recalculated(db.(rooms := AddRooms(db.rooms, ids, roomType, added)), roomType)
  }

  lemma FilteredIsPart(items: seq<Item>, used: set<nat>, keepUsed: bool)
    ensures |Filtered(items, used, keepUsed)| <= |items|
    ensures KnownStatuses(items) ==> KnownStatuses(Filtered(items, used, keepUsed))
  {
  }

  lemma FilteredStep(items: seq<Item>, i: nat, used: set<nat>, keepUsed: bool)
    requires i < |items|
    ensures Filtered(items[..i + 1], used, keepUsed) ==
            Filtered(items[..i], used, keepUsed) + if (items[i].name in used) == keepUsed then [items[i]] else []
  {
    assert items[..i + 1][..i] == items[..i];
  }

  lemma AddRoomsStep(rooms: map<Id, Room>, ids: seq<Id>, roomType: Id, items: seq<Item>, item: Item)
    requires |items| < |ids| && KnownStatuses(items) && item.status.As?
    ensures AddRooms(rooms, ids, roomType, items + [item]) ==
            AddRooms(rooms, ids, roomType, items)[ids[|items|] := NewRoom(roomType, item)]
  {
    assert (items + [item])[..|items|] == items;
  }

  // ----- The operations, step by step -----

  method RecalculateLedgerTotalRooms(s: Session, roomType: Id)
    modifies s`ledger
    ensures s.Tables() == Recalculated(old(s.Tables()), roomType)
  {
    var total := |LiveRooms(s.rooms, roomType)|;
    var left := set k | k in s.ledger && k.roomType == roomType && k.night >= s.today;
    ghost var targets := left;
    while left != {}
      invariant left <= targets && s.ledger.Keys == old(s.ledger).Keys
      invariant forall k :: k in s.ledger ==>
                  s.ledger[k] == if k in targets - left then old(s.ledger)[k].(total := total) else old(s.ledger)[k]
    {
      var k :| k in left;
      s.ledger := s.ledger[k := s.ledger[k].(total := total)];
      left := left - {k};
    }
  }

  method CreateOneRoom(s: Session, id: Id, roomType: Id, item: Item) returns (ok: bool)
    requires id !in s.rooms
    modifies s
    ensures ok == CreateRoom(old(s.Tables()), id, roomType, item).Some?
    ensures s.Tables() == Or(CreateRoom(old(s.Tables()), id, roomType, item), old(s.Tables()))
  {
    if item.status.NoSuchStatus? {
      return false;
    }
    if roomType !in s.roomTypes || !s.roomTypes[roomType].live {
      return false;
    }
    s.rooms := s.rooms[id := NewRoom(roomType, item)];
    RecalculateLedgerTotalRooms(s, roomType);
    return true;
  }

  /** The status is checked last, when category and name are already set; the request then rolls back. */
  method PatchOneRoom(s: Session, id: Id, p: RoomPatch) returns (ok: bool)
    modifies s
    ensures ok == PatchRoom(old(s.Tables()), id, p).Some?
    ensures s.Tables() == Or(PatchRoom(old(s.Tables()), id, p), old(s.Tables()))
  {
    var committed := s.Tables();
    if id !in s.rooms || !s.rooms[id].live {
      return false;
    }
    var oldType := s.rooms[id].roomType;
    var target := if p.newType.Some? then p.newType.value else oldType;
    if target != oldType {
      if target !in s.roomTypes || !s.roomTypes[target].live {
        return false;
      }
      s.rooms := s.rooms[id := s.rooms[id].(roomType := target)];
    }
    if p.name.Some? {
      s.rooms := s.rooms[id := s.rooms[id].(name := p.name.value)];
    }
    if p.status.Some? {
      if p.status.value.NoSuchStatus? {
        s.Rollback(committed);
        return false;
      }
      s.rooms := s.rooms[id := s.rooms[id].(status := p.status.value.status)];
    }
    assert s.rooms == committed.rooms[id := Edited(committed.rooms[id], p)];
    if target != oldType {
      RecalculateLedgerTotalRooms(s, oldType);
      RecalculateLedgerTotalRooms(s, target);
    }
    return true;
  }

  method SoftDeleteOneRoom(s: Session, id: Id) returns (ok: bool)
    modifies s
    ensures ok == SoftDeleteRoom(old(s.Tables()), id).Some?
    ensures s.Tables() == if ok then SoftDeleteRoom(old(s.Tables()), id).value else old(s.Tables())
  {
    if id !in s.rooms || !s.rooms[id].live || NeededFromToday(s.Tables(), id) {
      return false;
    }
    s.rooms := s.rooms[id := s.rooms[id].(live := false)];
    RecalculateLedgerTotalRooms(s, s.rooms[id].roomType);
    return true;
  }

  /** Many rooms of one category, the totals recalculated once; `ids` are unused keys for the new rooms. */
  method CreateRoomsBulk(s: Session, ids: seq<Id>, roomType: Id, items: seq<Item>, skip: bool)
    returns (ok: bool, skipped: seq<nat>)
    requires |items| <= |ids| && Distinct(ids) && forall i :: 0 <= i < |ids| ==> ids[i] !in s.rooms
    modifies s
    ensures ok == CanCreateBulk(old(s.Tables()), roomType, items, skip)
    ensures s.Tables() == if ok then CreatedInBulk(old(s.Tables()), ids, roomType, items) else old(s.Tables())
    ensures ok ==> skipped == Names(Filtered(items, NamesInUse(old(s.rooms), roomType), true))
  {
    var committed := s.Tables();
    if roomType !in s.roomTypes || !s.roomTypes[roomType].live {
      return false, [];
    }
    var fine := CheckItems(items);
    if !fine {
      return false, [];
    }
    var created;
    ok, created, skipped := AddNewNames(s, ids, roomType, items, skip);
    if !ok {
      s.Rollback(committed);
      return false, [];
    }
    if created != [] {
      RecalculateLedgerTotalRooms(s, roomType);
    }
    return true, skipped;
  }

  /** Refuses a name that comes twice in the batch and a status that does not exist. */
  method CheckItems(items: seq<Item>) returns (ok: bool)
    ensures ok <==> Distinct(Names(items)) && KnownStatuses(items)
  {
    var seen: set<nat> := {};
    for i := 0 to |items|
      invariant forall m :: m in seen <==> m in Names(items)[..i]
      invariant Distinct(Names(items)[..i]) && KnownStatuses(items[..i])
    {
      assert Names(items)[..i + 1] == Names(items)[..i] + [items[i].name];
      if items[i].name in seen {
        var j :| 0 <= j < i && Names(items)[j] == items[i].name;
        assert Names(items)[i] == Names(items)[j];
        return false;
      }
      seen := seen + {items[i].name};
      if items[i].status.NoSuchStatus? {
        return false;
      }
    }
    assert items[..|items|] == items && Names(items)[..|items|] == Names(items);
    return true;
  }

  /** The names taken once the first i items have been handled. */
  ghost predicate Taken(items: seq<Item>, i: nat, used: set<nat>, seen: set<nat>)
    requires i <= |items|
  {
    used <= seen && forall m :: m in seen ==> m in used || m in Names(items)[..i]
  }

  lemma TakenMeansUsed(items: seq<Item>, i: nat, used: set<nat>, seen: set<nat>)
    requires i < |items| && Distinct(Names(items)) && Taken(items, i, used, seen)
    ensures items[i].name in seen <==> items[i].name in used
    ensures Taken(items, i + 1, used, seen) && Taken(items, i + 1, used, seen + {items[i].name})
  {
    assert Names(items)[i] == items[i].name && Names(items)[i] !in Names(items)[..i];
    assert Names(items)[..i + 1] == Names(items)[..i] + [items[i].name];
  }

  /** The tables and lists after the first i items. */
  ghost predicate Handled(before: map<Id, Room>, rooms: map<Id, Room>, ids: seq<Id>, roomType: Id, items: seq<Item>, i: nat,
                          used: set<nat>, seen: set<nat>, created: seq<Item>, skipped: seq<nat>)
    requires i <= |items| <= |ids|
  {
    && Taken(items, i, used, seen)
    && created == Filtered(items[..i], used, false) && |created| <= i && KnownStatuses(created)
    && skipped == Names(Filtered(items[..i], used, true))
    && rooms == AddRooms(before, ids, roomType, created)
  }

  lemma HandleUsed(before: map<Id, Room>, rooms: map<Id, Room>, ids: seq<Id>, roomType: Id, items: seq<Item>, i: nat,
                   used: set<nat>, seen: set<nat>, created: seq<Item>, skipped: seq<nat>)
    requires i < |items| <= |ids| && Distinct(Names(items)) && items[i].name in seen
    requires Handled(before, rooms, ids, roomType, items, i, used, seen, created, skipped)
    ensures Handled(before, rooms, ids, roomType, items, i + 1, used, seen, created, skipped + [items[i].name])
  {
    TakenMeansUsed(items, i, used, seen);
    FilteredStep(items, i, used, false);
    FilteredStep(items, i, used, true);
    assert Names(Filtered(items[..i], used, true) + [items[i]]) == skipped + [items[i].name];
  }

  lemma HandleNew(before: map<Id, Room>, rooms: map<Id, Room>, ids: seq<Id>, roomType: Id, items: seq<Item>, i: nat,
                  used: set<nat>, seen: set<nat>, created: seq<Item>, skipped: seq<nat>)
    requires i < |items| <= |ids| && Distinct(Names(items)) && items[i].status.As? && items[i].name !in seen
    requires Handled(before, rooms, ids, roomType, items, i, used, seen, created, skipped)
    ensures Handled(before, rooms[ids[|created|] := NewRoom(roomType, items[i])], ids, roomType, items, i + 1, used,
                    seen + {items[i].name}, created + [items[i]], skipped)
  {
    TakenMeansUsed(items, i, used, seen);
    FilteredStep(items, i, used, false);
    FilteredStep(items, i, used, true);
    AddRoomsStep(before, ids, roomType, created, items[i]);
  }

  /** Adds a room for every name not in use; stops with the session dirty at the first one in use unless told to skip. */
  method AddNewNames(s: Session, ids: seq<Id>, roomType: Id, items: seq<Item>, skip: bool)
    returns (ok: bool, created: seq<Item>, skipped: seq<nat>)
    requires |items| <= |ids| && Distinct(Names(items)) && KnownStatuses(items)
    modifies s`rooms
    ensures ok == (skip || NoneUsed(items, NamesInUse(old(s.rooms), roomType)))
    ensures ok ==> created == Filtered(items, NamesInUse(old(s.rooms), roomType), false) && |created| <= |items| && KnownStatuses(created)
    ensures ok ==> s.rooms == AddRooms(old(s.rooms), ids, roomType, created)
    ensures ok ==> skipped == Names(Filtered(items, NamesInUse(old(s.rooms), roomType), true))
  {
    ghost var before := s.rooms;
    var used := NamesInUse(s.rooms, roomType);
    var seen := used;
    created, skipped := [], [];
    for i := 0 to |items|
      invariant Handled(before, s.rooms, ids, roomType, items, i, used, seen, created, skipped)
      invariant skip || NoneUsed(items[..i], used)
    {
      TakenMeansUsed(items, i, used, seen);
      if items[i].name in seen {
        if !skip {
          return false, [], [];
        }
        HandleUsed(before, s.rooms, ids, roomType, items, i, used, seen, created, skipped);
        skipped := skipped + [items[i].name];
      } else {
        HandleNew(before, s.rooms, ids, roomType, items, i, used, seen, created, skipped);
        s.rooms := s.rooms[ids[|created|] := NewRoom(roomType, items[i])];
        created := created + [items[i]];
        seen := seen + {items[i].name};
      }
    }
    assert items[..|items|] == items;
    ok := true;
  }

  // ----- The cache is exact -----

  /** Recalculating repairs one category and leaves the others as they were. */
  lemma RecalculatedIsCached(db: Db, roomType: Id)
    requires forall k :: k in db.ledger && k.night >= db.today && k.roomType != roomType ==>
               db.ledger[k].total == |LiveRooms(db.rooms, k.roomType)|
    ensures CapacityCached(Recalculated(db, roomType))
  {
  }

  lemma CreateRoomKeepsCache(db: Db, id: Id, roomType: Id, item: Item)
    requires CapacityCached(db) && id !in db.rooms && CreateRoom(db, id, roomType, item).Some?
    ensures CapacityCached(CreateRoom(db, id, roomType, item).value)
    ensures LiveRooms(CreateRoom(db, id, roomType, item).value.rooms, roomType) == LiveRooms(db.rooms, roomType) + {id}
  {
    var rooms := db.rooms[id := NewRoom(roomType, item)];
    forall t | t != roomType ensures LiveRooms(rooms, t) == LiveRooms(db.rooms, t) {}
    RecalculatedIsCached(db.(rooms := rooms), roomType);
  }

  lemma PatchRoomKeepsCache(db: Db, id: Id, p: RoomPatch)
    requires CapacityCached(db) && PatchRoom(db, id, p).Some?
    ensures CapacityCached(PatchRoom(db, id, p).value)
  {
    var room, after := db.rooms[id], PatchRoom(db, id, p).value;
    forall t | t != room.roomType && t != after.rooms[id].roomType ensures LiveRooms(after.rooms, t) == LiveRooms(db.rooms, t) {}
    if after.rooms[id].roomType == room.roomType {
      assert LiveRooms(after.rooms, room.roomType) == LiveRooms(db.rooms, room.roomType);
    }
  }

  lemma SoftDeleteKeepsCache(db: Db, id: Id)
    requires CapacityCached(db) && SoftDeleteRoom(db, id).Some?
    ensures CapacityCached(SoftDeleteRoom(db, id).value)
  {
    var rooms := db.rooms[id := db.rooms[id].(live := false)];
    forall t | t != db.rooms[id].roomType ensures LiveRooms(rooms, t) == LiveRooms(db.rooms, t) {}
    RecalculatedIsCached(db.(rooms := rooms), db.rooms[id].roomType);
  }

  lemma {:induction false} AddRoomsTouchesOneType(rooms: map<Id, Room>, ids: seq<Id>, roomType: Id, items: seq<Item>, t: Id)
    requires |items| <= |ids| && KnownStatuses(items) && t != roomType && forall i :: 0 <= i < |ids| ==> ids[i] !in rooms
    ensures LiveRooms(AddRooms(rooms, ids, roomType, items), t) == LiveRooms(rooms, t)
    ensures AddRooms(rooms, ids, roomType, items).Keys == rooms.Keys + set i | 0 <= i < |items| :: ids[i]
    ensures forall r :: r in rooms ==> AddRooms(rooms, ids, roomType, items)[r] == rooms[r]
  {
    if items != [] {
      AddRoomsTouchesOneType(rooms, ids, roomType, items[..|items| - 1], t);
    }
  }

  lemma BulkCreateKeepsCache(db: Db, ids: seq<Id>, roomType: Id, items: seq<Item>)
    requires CapacityCached(db) && |items| <= |ids| && KnownStatuses(items) && forall i :: 0 <= i < |ids| ==> ids[i] !in db.rooms
    ensures CapacityCached(CreatedInBulk(db, ids, roomType, items))
  {
    var added := Filtered(items, NamesInUse(db.rooms, roomType), false);
    FilteredIsPart(items, NamesInUse(db.rooms, roomType), false);
    if added != [] {
      forall t | t != roomType ensures LiveRooms(AddRooms(db.rooms, ids, roomType, added), t) == LiveRooms(db.rooms, t) {
        AddRoomsTouchesOneType(db.rooms, ids, roomType, added, t);
      }
      RecalculatedIsCached(db.(rooms := AddRooms(db.rooms, ids, roomType, added)), roomType);
    }
  }

  /** A recalculation leaves no bucket over-committed exactly when the live rooms cover what its rows are committed to. */
  lemma RecalculateOvercommits(db: Db, roomType: Id)
    requires WithinCapacity(db.ledger)
    ensures WithinCapacity(Recalculated(db, roomType).ledger) <==>
            forall k :: k in db.ledger && k.roomType == roomType && k.night >= db.today ==>
              db.ledger[k].booked + db.ledger[k].blocked <= |LiveRooms(db.rooms, roomType)|
  {
    var after := Recalculated(db, roomType).ledger;
    assert forall k :: k in after <==> k in db.ledger;
  }
}
