/** Pushing availability to the channel: the update lists, and sending them in batches that may fail part-way. */
module ChannelPush {
  import opened Base
  import opened Inventory

  /** Rooms for sale in one mapped category on one date. The mapping to the channel's own ids is one to one. */
  datatype Update = Update(key: Key, available: nat)

  type Mirror = map<Key, nat>

  const BATCH: nat := 200
  const SYNC_DAYS: nat := 365

  /** What the channel should show for a bucket: what is left to sell, never negative, nothing without a ledger row. */
  function Image(ledger: Ledger, k: Key): nat {
    if k in ledger && ledger[k].Available() > 0 then ledger[k].Available() else 0
  }

  // ----- The update lists -----

  predicate StrictlyAscending(dates: seq<Date>) {
    forall i, j :: 0 <= i < j < |dates| ==> dates[i] < dates[j]
  }

  /** Sorted insertion that keeps one of each. */
  function InsertDate(d: Date, dates: seq<Date>): seq<Date> {
    if dates == [] || d < dates[0] then [d] + dates
    else if d == dates[0] then dates
    else [dates[0]] + InsertDate(d, dates[1..])
  }

  /** The dates asked for, each once, in order. */
  function SortedDates(dates: seq<Date>): seq<Date> {
    if dates == [] then [] else InsertDate(dates[0], SortedDates(dates[1..]))
  }

  function Values(ledger: Ledger, roomType: Id, dates: seq<Date>): seq<Update> {
    seq(|dates|, i requires 0 <= i < |dates| => Update(Key(roomType, dates[i]), Image(ledger, Key(roomType, dates[i]))))
  }

  function Days(start: Date, n: nat): seq<Date> {
    seq(n, i => start + i)
  }

  /** The full image: every mapped category over the sync window. */
  function FullValues(ledger: Ledger, roomTypes: seq<Id>, start: Date): seq<Update> {
    if roomTypes == [] then [] else
    var n := |roomTypes| - 1;
    FullValues(ledger, roomTypes[..n], start) + Values(ledger, roomTypes[n], Days(start, SYNC_DAYS))
  }

  /** Sending updates overwrites what the channel shows for their buckets. */
  function Shown(mirror: Mirror, updates: seq<Update>): Mirror {
    if updates == [] then mirror else
    var last := updates[|updates| - 1];
    Shown(mirror, updates[..|updates| - 1])[last.key := last.available]
  }

  lemma {:induction false} InsertDateShape(d: Date, dates: seq<Date>)
    requires StrictlyAscending(dates)
    ensures StrictlyAscending(InsertDate(d, dates))
    ensures forall x :: x in InsertDate(d, dates) <==> x == d || x in dates
  {
    if dates != [] && d > dates[0] {
      var rest := InsertDate(d, dates[1..]);
      InsertDateShape(d, dates[1..]);
      assert dates == [dates[0]] + dates[1..];
      forall i | 0 <= i < |rest| ensures dates[0] < rest[i] {
        assert rest[i] in rest;
      }
    }
  }

  lemma {:induction false} SortedDatesShape(dates: seq<Date>)
    ensures StrictlyAscending(SortedDates(dates))
    ensures forall x :: x in SortedDates(dates) <==> x in dates
  {
    if dates != [] {
      SortedDatesShape(dates[1..]);
      InsertDateShape(dates[0], SortedDates(dates[1..]));
      assert dates == [dates[0]] + dates[1..];
    }
  }

  // ----- Batches -----

  function Min(a: nat, b: nat): nat {
    if a < b then a else b
  }

  /** How many updates the first n batches carry. */
  function SentAfter(n: nat, count: nat): nat {
    Min(n * BATCH, count)
  }

  /** The n-th batch. */
  function BatchAt(updates: seq<Update>, n: nat): seq<Update> {
    updates[SentAfter(n, |updates|)..SentAfter(n + 1, |updates|)]
  }

  function Batches(updates: seq<Update>, n: nat): seq<Update> {
    if n == 0 then [] else Batches(updates, n - 1) + BatchAt(updates, n - 1)
  }

  /** The first n batches together are the first updates in order: nothing is skipped, sent twice or reordered. */
  lemma {:induction false} BatchesCover(updates: seq<Update>, n: nat)
    ensures Batches(updates, n) == updates[..SentAfter(n, |updates|)]
    ensures n * BATCH >= |updates| ==> Batches(updates, n) == updates
    ensures forall i :: 0 <= i < n ==> |BatchAt(updates, i)| <= BATCH
  {
    if n > 0 {
      BatchesCover(updates, n - 1);
      OneMoreBatch(updates, SentAfter(n - 1, |updates|), SentAfter(n, |updates|));
    }
  }

  lemma OneMoreBatch(updates: seq<Update>, i: nat, j: nat)
    requires i <= j <= |updates|
    ensures updates[..i] + updates[i..j] == updates[..j]
  {
  }

  /** Whether each call to the channel goes through. */
  type Calls = seq<bool>

  class Link {
    /** What the channel shows. */
    var mirror: Mirror
    var failed: bool

    constructor ()
      ensures mirror == map[] && !failed
    {
      mirror, failed := map[], false;
    }

    method PushBatch(batch: seq<Update>)
      modifies this
      ensures mirror == Shown(old(mirror), batch) && failed == old(failed)
    {
      for i := 0 to |batch|
        invariant mirror == Shown(old(mirror), batch[..i]) && failed == old(failed)
      {
        assert batch[..i + 1][..i] == batch[..i];
        mirror := mirror[batch[i].key := batch[i].available];
      }
      assert batch[..|batch|] == batch;
    }

    /** Batch by batch until a call fails: what has been sent stays sent, and the link remembers the error. */
    method PushBatches(updates: seq<Update>, calls: Calls) returns (sent: nat)
      requires |calls| * BATCH >= |updates|
      modifies this
      ensures sent <= |updates| && mirror == Shown(old(mirror), updates[..sent])
      ensures failed <==> sent < |updates|
      ensures sent < |updates| ==> sent % BATCH == 0 && !calls[sent / BATCH]
      ensures forall n :: 0 <= n < |calls| && n * BATCH < sent ==> calls[n]
    {
      var i, n := 0, 0;
      while i < |updates|
        invariant i == n * BATCH && n <= |calls| && mirror == Shown(old(mirror), updates[..SentAfter(n, |updates|)])
        invariant forall m :: 0 <= m < n ==> calls[m]
        decreases |updates| - i
      {
        if !calls[n] {
          failed := true;
          return i;
        }
        var end := Min(i + BATCH, |updates|);
        PushBatch(updates[i..end]);
        ShownInTwo(old(mirror), updates, i, end);
        i, n := i + BATCH, n + 1;
      }
      failed := false;
      sent := |updates|;
      assert updates[..|updates|] == updates;
    }

    /** The push for a set of dates of one category; nothing happens without an active link that maps the category. */
    method PushAvailability(ledger: Ledger, active: bool, mapped: set<Id>, roomType: Id, asked: seq<Date>, calls: Calls) returns (sent: nat)
      requires |calls| >= |asked| + 1
      modifies this
      ensures
        var updates := if active && roomType in mapped then Values(ledger, roomType, SortedDates(asked)) else [];
        && sent <= |updates| && mirror == Shown(old(mirror), updates[..sent])
        && (updates != [] ==> (failed <==> sent < |updates|)) && (sent < |updates| ==> sent % BATCH == 0)
    {
      if asked == [] {
        return 0;
      }
      var dates := SortedDates(asked);
      if !active || roomType !in mapped {
        return 0;
      }
      var updates: seq<Update> := [];
      for i := 0 to |dates|
        invariant updates == Values(ledger, roomType, dates[..i])
      {
        var k := Key(roomType, dates[i]);
        var available := 0;
        if k in ledger {
          available := ledger[k].total - ledger[k].booked - ledger[k].blocked;
          available := if available > 0 then available else 0;
        }
        updates := updates + [Update(k, available)];
      }
      assert dates[..|dates|] == dates;
      SortedIsNoLonger(asked);
      sent := PushBatches(updates, calls);
    }

    /**
     The full sync sends the image of every mapped category, however many there are, and then the restrictions, whose
     batches go through or not. Nothing is sent, and no error remembered, when no category is mapped.
     */
    method PushFullImage(ledger: Ledger, mapped: seq<Id>, start: Date, calls: Calls, restrictionsPass: bool) returns (sent: nat)
      requires |calls| * BATCH >= |mapped| * SYNC_DAYS
      modifies this
      ensures
        var updates := FullValues(ledger, mapped, start);
        && sent <= |updates| && mirror == Shown(old(mirror), updates[..sent]) && (sent < |updates| ==> sent % BATCH == 0)
        && (failed <==> sent < |updates| || (mapped != [] && !restrictionsPass))
    {
      if mapped == [] {
        failed := false;
        return 0;
      }
      var updates: seq<Update> := [];
      for i := 0 to |mapped|
        invariant updates == FullValues(ledger, mapped[..i], start)
      {
        assert mapped[..i + 1][..i] == mapped[..i];
        var these: seq<Update> := [];
        for day := 0 to SYNC_DAYS
          invariant these == Values(ledger, mapped[i], Days(start, day))
        {
          var k := Key(mapped[i], start + day);
          these := these + [Update(k, Image(ledger, k))];
        }
        updates := updates + these;
      }
      assert mapped[..|mapped|] == mapped;
      FullLength(ledger, mapped, start);
      sent := PushBatches(updates, calls);
      if !failed && !restrictionsPass {
        failed := true;
      }
    }
  }

  lemma {:induction false} ShownConcat(mirror: Mirror, a: seq<Update>, b: seq<Update>)
    ensures Shown(mirror, a + b) == Shown(Shown(mirror, a), b)
  {
    if b == [] {
      assert a + b == a;
    } else {
      ShownConcat(mirror, a, b[..|b| - 1]);
      assert (a + b)[..|a + b| - 1] == a + b[..|b| - 1];
    }
  }

  lemma ShownInTwo(mirror: Mirror, updates: seq<Update>, i: nat, j: nat)
    requires i <= j <= |updates|
    ensures Shown(mirror, updates[..j]) == Shown(Shown(mirror, updates[..i]), updates[i..j])
  {
    assert updates[..j] == updates[..i] + updates[i..j];
    ShownConcat(mirror, updates[..i], updates[i..j]);
  }

  lemma {:induction false} SortedIsNoLonger(dates: seq<Date>)
    ensures |SortedDates(dates)| <= |dates|
  {
    if dates != [] {
      SortedIsNoLonger(dates[1..]);
      InsertIsNoLonger(dates[0], SortedDates(dates[1..]));
    }
  }

  lemma {:induction false} InsertIsNoLonger(d: Date, dates: seq<Date>)
    ensures |InsertDate(d, dates)| <= |dates| + 1
  {
    if dates != [] {
      InsertIsNoLonger(d, dates[1..]);
    }
  }

  lemma {:induction false} FullLength(ledger: Ledger, roomTypes: seq<Id>, start: Date)
    ensures |FullValues(ledger, roomTypes, start)| == |roomTypes| * SYNC_DAYS
  {
    if roomTypes != [] {
      FullLength(ledger, roomTypes[..|roomTypes| - 1], start);
    }
  }
}
