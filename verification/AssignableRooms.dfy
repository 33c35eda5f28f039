/** The rooms offered for a stay before any booking claims one. */
module AssignableRooms {
  import opened Base
  import opened BookingRules
  import opened Inventory
  import opened StayDates
  import opened Stays

  /** Live rooms of the category in status `available`. */
  function ReadyRooms(db: Db, roomType: Id): set<Id> {
    set r | r in LiveRooms(db.rooms, roomType) && db.rooms[r].status == InService
  }

  /** Rooms some occupying booking uses on one of the nights. */
  function Busy(bookings: Bookings, rooms: set<Id>, nights: set<Date>): set<Id> {
    set r | r in rooms && exists x :: x in bookings && bookings[x].Active() && !Avoids(bookings[x].lines, r, nights)
  }

  /** The rooms to list; None when the category is not a live one of the property. */
  function Listed(db: Db, property: Id, roomType: Id, checkIn: Date, checkOut: Date): Option<set<Id>>
    requires checkIn <= checkOut
  {
    if roomType !in db.roomTypes || db.roomTypes[roomType] != RoomType(property, true) then None
    else
      var rooms := ReadyRooms(db, roomType);
      Some(rooms - Busy(db.bookings, rooms, StayNights(checkIn, checkOut)))
  }

  /** Each room of the set once, ascending by name. */
  ghost predicate SortedByName(rooms: map<Id, Room>, ids: set<Id>, sorted: seq<Id>)
    requires ids <= rooms.Keys
  {
    && Distinct(sorted) && (forall r :: r in sorted <==> r in ids)
    && forall i, j :: 0 <= i < j < |sorted| ==> rooms[sorted[i]].name <= rooms[sorted[j]].name
  }

  lemma SortedAppend(rooms: map<Id, Room>, ids: set<Id>, sorted: seq<Id>, room: Id)
    requires ids <= rooms.Keys && room in rooms && room !in ids && SortedByName(rooms, ids, sorted)
    requires forall r :: r in ids ==> rooms[r].name <= rooms[room].name
    ensures SortedByName(rooms, ids + {room}, sorted + [room])
  {
    forall i | 0 <= i < |sorted| ensures sorted[i] in ids {
      assert sorted[i] in sorted;
    }
  }

  /** ORDER BY name. */
  method OrderByName(rooms: map<Id, Room>, ids: set<Id>) returns (sorted: seq<Id>)
    requires ids <= rooms.Keys
    ensures SortedByName(rooms, ids, sorted)
  {
    sorted := [];
    var left := ids;
    while left != {}
      invariant left <= ids
      invariant SortedByName(rooms, ids - left, sorted)
      invariant forall x, r :: x in ids - left && r in left ==> rooms[x].name <= rooms[r].name
    {
      ghost var least := LeastByName(rooms, left);
      var room :| room in left && IsLeast(rooms, left, room);
      assert IsLeast(rooms, left, room);
      SortedAppend(rooms, ids - left, sorted, room);
      assert ids - left + {room} == ids - (left - {room});
      sorted, left := sorted + [room], left - {room};
    }
    assert ids - left == ids;
  }

  /** Those of the first n rooms that are not busy. */
  function KeptOf(ordered: seq<Id>, n: nat, busy: set<Id>): set<Id>
    requires n <= |ordered|
  {
    set r | r in ordered[..n] && r !in busy
  }

  lemma KeepNext(rooms: map<Id, Room>, ids: set<Id>, ordered: seq<Id>, i: nat, busy: set<Id>)
    requires ids <= rooms.Keys && SortedByName(rooms, ids, ordered) && i < |ordered|
    ensures KeptOf(ordered, i + 1, busy) == KeptOf(ordered, i, busy) + if ordered[i] in busy then {} else {ordered[i]}
    ensures ordered[i] in rooms && ordered[i] !in KeptOf(ordered, i, busy)
    ensures KeptOf(ordered, i + 1, busy) <= rooms.Keys
    ensures forall r :: r in KeptOf(ordered, i, busy) ==> r in rooms && rooms[r].name <= rooms[ordered[i]].name
  {
    assert ordered[..i + 1] == ordered[..i] + [ordered[i]];
    forall r | r in ordered[..i + 1] ensures r in ids {
      assert r in ordered;
    }
  }

  /** The free rooms of the stay in the order of their names. */
  method ListForStay(db: Db, property: Id, roomType: Id, checkIn: Date, checkOut: Date) returns (listed: Option<seq<Id>>)
    requires ValidStay(checkIn, checkOut)
    ensures listed.Some? <==> Listed(db, property, roomType, checkIn, checkOut).Some?
    ensures listed.Some? ==> Listed(db, property, roomType, checkIn, checkOut).value <= db.rooms.Keys
                             && SortedByName(db.rooms, Listed(db, property, roomType, checkIn, checkOut).value, listed.value)
  {
    if roomType !in db.roomTypes || db.roomTypes[roomType] != RoomType(property, true) {
      return None;
    }
    var rooms := ReadyRooms(db, roomType);
    var ordered := OrderByName(db.rooms, rooms);
    var busy := Busy(db.bookings, rooms, StayNights(checkIn, checkOut));
    var out: seq<Id> := [];
    for i := 0 to |ordered|
      invariant KeptOf(ordered, i, busy) <= db.rooms.Keys && SortedByName(db.rooms, KeptOf(ordered, i, busy), out)
    {
      KeepNext(db.rooms, rooms, ordered, i, busy);
      if ordered[i] !in busy {
        SortedAppend(db.rooms, KeptOf(ordered, i, busy), out, ordered[i]);
        out := out + [ordered[i]];
      }
    }
    assert KeptOf(ordered, |ordered|, busy) == rooms - busy;
    return Some(out);
  }

  /** The booking is for this stay. */
  ghost predicate BooksStay(db: Db, id: Id, roomType: Id, checkIn: Date, checkOut: Date)
    requires checkIn <= checkOut
  {
    && id in db.bookings && db.bookings[id].Active() && OneStay(db.bookings[id].lines)
    && db.bookings[id].lines[0].roomType == roomType && NightsOf(db.bookings[id].lines) == StayNights(checkIn, checkOut)
  }

  /**
   For a booking of the stay that is in no room yet, the rooms listed are exactly the available ones that can be
   assigned to it. Once it is in a room, that room is the only one that can be assigned and is not listed.
   */
  lemma ListedExactlyWhenAssignable(db: Db, id: Id, roomType: Id, checkIn: Date, checkOut: Date, r: Id)
    requires checkIn < checkOut && BooksStay(db, id, roomType, checkIn, checkOut)
    ensures
      var b := db.bookings[id];
      var listed := Listed(db, b.property, roomType, checkIn, checkOut);
      listed.Some? && r in listed.value <==> CanAssign(db, id, Some(r)) && db.rooms[r].status == InService && b.lines[0].room != Some(r)
  {
    assert db.bookings[id].lines[0].night in NightsOf(db.bookings[id].lines);
  }
}
