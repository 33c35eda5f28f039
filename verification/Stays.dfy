/** Lines of a stay, and which physical rooms are free for it. */
module Stays {
  import opened Base
  import opened Inventory

  /** One line per night from checkIn on, at the prices given. */
  function StayLines(roomType: Id, checkIn: Date, prices: seq<Cents>, room: Option<Id>): seq<Line> {
    seq(|prices|, i requires 0 <= i < |prices| => Line(roomType, checkIn + i, room, prices[i]))
  }

  function WithRoom(lines: seq<Line>, room: Option<Id>): seq<Line> {
    seq(|lines|, i requires 0 <= i < |lines| => lines[i].(room := room))
  }

  /** All lines are in one category (and there is at least one). */
  predicate OneCategory(lines: seq<Line>) {
    lines != [] && forall i :: 0 <= i < |lines| ==> lines[i].roomType == lines[0].roomType
  }

  function NightsOf(lines: seq<Line>): set<Date> {
    set i | 0 <= i < |lines| :: lines[i].night
  }

  /** No other occupying booking has the room on any of the nights. */
  predicate Free(bookings: Bookings, room: Id, nights: set<Date>, except: Id) {
    forall x :: x in bookings && x != except && bookings[x].Active() ==> Avoids(bookings[x].lines, room, nights)
  }

  predicate Avoids(lines: seq<Line>, room: Id, nights: set<Date>) {
    forall i :: 0 <= i < |lines| && lines[i].room == Some(room) ==> lines[i].night !in nights
  }

  predicate IsLeast(rooms: map<Id, Room>, ids: set<Id>, m: Id)
    requires ids <= rooms.Keys
  {
    m in ids && forall r :: r in ids ==> rooms[m].name <= rooms[r].name
  }

  lemma LeastByName(rooms: map<Id, Room>, ids: set<Id>) returns (m: Id)
    requires ids != {} && ids <= rooms.Keys
    ensures IsLeast(rooms, ids, m)
  {
    m :| m in ids;
    if ids != {m} {
      var other := LeastByName(rooms, ids - {m});
      assert forall r :: r in ids ==> r == m || r in ids - {m};
      if rooms[other].name <= rooms[m].name {
        m := other;
      }
    }
  }

  lemma StayLinesShape(roomType: Id, checkIn: Date, prices: seq<Cents>, room: Option<Id>)
    requires prices != []
    ensures OneStay(StayLines(roomType, checkIn, prices, room))
    ensures Prices(StayLines(roomType, checkIn, prices, room)) == prices
    ensures KeysOf(StayLines(roomType, checkIn, prices, room)) == StayKeys(roomType, checkIn, checkIn + |prices|)
  {
    var lines := StayLines(roomType, checkIn, prices, room);
    forall d | checkIn <= d < checkIn + |prices| ensures Key(roomType, d) in KeysOf(lines) {
      assert lines[d - checkIn].Bucket() == Key(roomType, d);
    }
  }

  lemma WithRoomShape(lines: seq<Line>, room: Option<Id>)
    requires OneStay(lines)
    ensures OneStay(WithRoom(lines, room))
    ensures Prices(WithRoom(lines, room)) == Prices(lines)
    ensures KeysOf(WithRoom(lines, room)) == KeysOf(lines)
    ensures NightsOf(WithRoom(lines, room)) == NightsOf(lines)
  {
    var after := WithRoom(lines, room);
    forall k ensures k in KeysOf(after) <==> k in KeysOf(lines) {
      if k in KeysOf(lines) {
        var i :| 0 <= i < |lines| && lines[i].Bucket() == k;
        assert after[i].Bucket() == k;
      }
    }
    forall d ensures d in NightsOf(after) <==> d in NightsOf(lines) {
      if d in NightsOf(lines) {
        var i :| 0 <= i < |lines| && lines[i].night == d;
        assert after[i].night == d;
      }
    }
  }

  /** A booking in no room, or in a room free for its nights, clashes with no other. */
  lemma FreeMeansNoClash(bookings: Bookings, id: Id, b: Booking, other: Id)
    requires OneStay(b.lines) && other in bookings && other != id && bookings[other].Active()
    requires b.lines[0].room.None? || Free(bookings, b.lines[0].room.value, NightsOf(b.lines), id)
    ensures !Clash(b, bookings[other]) && !Clash(bookings[other], b)
  {
    if b.lines[0].room.Some? {
      assert Avoids(bookings[other].lines, b.lines[0].room.value, NightsOf(b.lines));
    }
  }
}
