/** Pessimistic locking and counting on ledger rows. */
module AvailabilityLock {
  import opened Base
  import opened Inventory

  /** How a lock request ends: all rows locked, or one of the two errors of the source. */
  datatype Lock = Locked | NotSeeded | Insufficient

  /** The outcome of locking `keys` and asking each for n rooms. */
  function LockOutcome(ledger: Ledger, keys: set<Key>, n: int): Lock {
    if !(keys <= ledger.Keys) then NotSeeded
    else if Covers(ledger, keys, n) then Locked
    else Insufficient
  }

  /** A missing row is reported before a night that is full. */
  lemma WhyRefused(ledger: Ledger, keys: set<Key>, n: int)
    ensures LockOutcome(ledger, keys, n) == NotSeeded <==> exists k :: k in keys && k !in ledger
    ensures LockOutcome(ledger, keys, n) == Insufficient <==>
              (forall k :: k in keys ==> k in ledger) && exists k :: k in keys && ledger[k].booked + ledger[k].blocked + n > ledger[k].total
  {
    if forall k :: k in keys ==> k in ledger {
      assert keys <= ledger.Keys;
    }
  }

  method LockAndValidate(s: Session, keys: set<Key>, roomsToBook: int) returns (r: Lock)
    ensures r == LockOutcome(s.ledger, keys, roomsToBook)
  {
    var rows := set k | k in keys && k in s.ledger;
    if rows != keys {
      return NotSeeded;
    }
    var left := rows;
    while left != {}
      invariant left <= rows && Covers(s.ledger, rows - left, roomsToBook)
    {
      var k :| k in left;
      if s.ledger[k].Available() < roomsToBook {
        return Insufficient;
      }
      left := left - {k};
    }
    return Locked;
  }

  method IncrementBookedRooms(s: Session, rows: set<Key>)
    requires rows <= s.ledger.Keys
    modifies s`ledger
    ensures s.ledger == Shift(old(s.ledger), {}, rows)
  {
    var left := rows;
    while left != {}
      invariant left <= rows && s.ledger == Shift(old(s.ledger), {}, rows - left)
    {
      var k :| k in left;
      s.ledger := s.ledger[k := s.ledger[k].(booked := s.ledger[k].booked + 1)];
      left := left - {k};
    }
  }

  /** Some row visited had nothing left to give back. */
  ghost predicate StoppedEarly(ledger: Ledger, rows: set<Key>, visited: set<Key>) {
    visited <= rows && exists k :: k in visited && k in ledger && ledger[k].booked < 1
  }

  /** Fails when a counter would go negative; the rows visited up to and with that one stay changed. */
  method DecrementBookedRooms(s: Session, rows: set<Key>) returns (ok: bool, ghost visited: set<Key>)
    requires rows <= s.ledger.Keys
    modifies s`ledger
    ensures ok <==> forall k :: k in rows ==> old(s.ledger)[k].booked >= 1
    ensures s.ledger == Shift(old(s.ledger), visited, {})
    ensures if ok then visited == rows else StoppedEarly(old(s.ledger), rows, visited)
  {
    var left := rows;
    while left != {}
      invariant left <= rows && s.ledger == Shift(old(s.ledger), rows - left, {})
      invariant forall k :: k in rows - left ==> old(s.ledger)[k].booked >= 1
    {
      var k :| k in left;
      s.ledger := s.ledger[k := s.ledger[k].(booked := s.ledger[k].booked - 1)];
      left := left - {k};
      if s.ledger[k].booked < 0 {
        assert k in rows - left;
        return false, rows - left;
      }
    }
    return true, rows;
  }

  /**
   The conditional UPDATE behind a new booking: each row with a room to spare counts one more,
   and the claim stands only if that was every row.
   */
  method ClaimForNewBooking(s: Session, keys: set<Key>) returns (r: Lock)
    modifies s`ledger
    ensures r == LockOutcome(old(s.ledger), keys, 1)
    ensures r == Locked ==> s.ledger == Shift(old(s.ledger), {}, keys)
  {
    var seeded := set k | k in keys && k in s.ledger;
    SubsetOfSameSize(seeded, keys);
    if |seeded| != |keys| {
      return NotSeeded;
    }
    var count;
    ghost var updated;
    count, updated := RaiseRowsWithRoom(s, keys);
    SubsetOfSameSize(updated, keys);
    if count != |keys| {
      return Insufficient;
    }
    return Locked;
  }

  /** The conditional update: rows with a room left gain one, and the number of rows changed is returned. */
  method RaiseRowsWithRoom(s: Session, keys: set<Key>) returns (count: nat, ghost updated: set<Key>)
    requires keys <= s.ledger.Keys
    modifies s`ledger
    ensures updated <= keys && count == |updated|
    ensures forall k :: k in keys ==> (k in updated <==> old(s.ledger)[k].Available() >= 1)
    ensures s.ledger == Shift(old(s.ledger), {}, updated)
  {
    updated, count := {}, 0;
    var left := keys;
    while left != {}
      invariant left <= keys && updated <= keys - left && count == |updated|
      invariant forall k :: k in keys - left ==> (k in updated <==> old(s.ledger)[k].Available() >= 1)
      invariant s.ledger == Shift(old(s.ledger), {}, updated)
    {
      var k :| k in left;
      if s.ledger[k].booked + s.ledger[k].blocked + 1 <= s.ledger[k].total {
        s.ledger := s.ledger[k := s.ledger[k].(booked := s.ledger[k].booked + 1)];
        updated, count := updated + {k}, count + 1;
      }
      left := left - {k};
    }
  }

  lemma SubsetOfSameSize<T>(a: set<T>, b: set<T>)
    requires a <= b
    ensures |a| == |b| <==> a == b
  {
    assert b == a + (b - a);
  }
}
