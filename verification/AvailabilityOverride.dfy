/** Operator blocks on ledger rows. */
module AvailabilityOverride {
  import opened Base
  import opened Inventory

  /** The buckets of an inclusive date range. */
  function RangeKeys(roomType: Id, start: Date, end: Date): set<Key> {
    StayKeys(roomType, start, end + 1)
  }

  /** Every night is seeded and has room for the block beside its bookings. */
  predicate CanBlock(ledger: Ledger, keys: set<Key>, rooms: nat) {
    forall k :: k in keys ==> k in ledger && rooms <= ledger[k].total - ledger[k].booked
  }

  function Blocked(ledger: Ledger, keys: set<Key>, rooms: nat): Ledger {
    map k | k in ledger :: if k in keys then ledger[k].(blocked := rooms) else ledger[k]
  }

  method ApplyBlockedRooms(s: Session, roomType: Id, start: Date, end: Date, rooms: nat) returns (ok: bool)
    modifies s
    ensures ok == CanBlock(old(s.ledger), RangeKeys(roomType, start, end), rooms)
    ensures s.Tables() == if ok then old(s.Tables()).(ledger := Blocked(old(s.ledger), RangeKeys(roomType, start, end), rooms))
                          else old(s.Tables())
  {
    var committed := s.Tables();
    var keys := RangeKeys(roomType, start, end);
    if !(keys <= s.ledger.Keys) {
      return false;
    }
    var left := keys;
    while left != {}
      invariant left <= keys && CanBlock(committed.ledger, keys - left, rooms)
      invariant s.Tables() == committed.(ledger := Blocked(committed.ledger, keys - left, rooms))
    {
      var k :| k in left;
      if rooms > s.ledger[k].total - s.ledger[k].booked {
        s.Rollback(committed);
        return false;
      }
      s.ledger := s.ledger[k := s.ledger[k].(blocked := rooms)];
      left := left - {k};
    }
    return true;
  }
}
