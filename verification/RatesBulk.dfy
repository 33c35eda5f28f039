/** Upserting nightly rates from overlapping segments in one statement. */
module RatesBulk {
  import opened Base
  import opened Inventory
  import opened Spans
  import opened Upsert

  /** Inclusive dates. */
  datatype Segment = Segment(roomType: Id, ratePlan: Id, start: Date, end: Date, rate: Rate)

  function RateSpan(g: Segment): Span<RateKey, Rate> {
    Span(g.start, g.end, d => (RateKey(g.roomType, g.ratePlan, d), g.rate))
  }

  function RateSpans(segments: seq<Segment>): seq<Span<RateKey, Rate>> {
    seq(|segments|, i requires 0 <= i < |segments| => RateSpan(segments[i]))
  }

  /** The rows of all segments, in order. */
  function RateRows(segments: seq<Segment>): seq<(RateKey, Rate)> {
    AllRows(RateSpans(segments))
  }

  lemma RateRowsGrow(segments: seq<Segment>, n: nat)
    requires n < |segments|
    ensures RateRows(segments[..n + 1]) == RateRows(segments[..n]) + DayRows(RateSpan(segments[n]), segments[n].end + 1)
  {
    var spans := RateSpans(segments[..n + 1]);
    assert spans[..n] == RateSpans(segments[..n]) && spans[n] == RateSpan(segments[n]);
  }

  /** ON CONFLICT: everything but the key is overwritten. */
  function Overwrite(existing: Rate, excluded: Rate): Rate {
    excluded
  }

  /** The category and the plan exist and belong to one property. */
  predicate SameProperty(roomTypes: map<Id, RoomType>, ratePlans: map<Id, Id>, g: Segment) {
    g.roomType in roomTypes && g.ratePlan in ratePlans && roomTypes[g.roomType].property == ratePlans[g.ratePlan]
  }

  predicate AllSameProperty(roomTypes: map<Id, RoomType>, ratePlans: map<Id, Id>, segments: seq<Segment>) {
    forall i :: 0 <= i < |segments| ==> SameProperty(roomTypes, ratePlans, segments[i])
  }

  /** The rates after writing the segments' rows one at a time. */
  function Written(db: Db, segments: seq<Segment>): Db {
    db.(rates := UpsertEach(db.rates, RateRows(segments), Overwrite))
  }

  /** What is told to the channel: every key written, in the order in which it first came, with its last price. */
  function Updates(dict: Dict<RateKey, Rate>): seq<(RateKey, Cents)>
    requires forall k :: k in dict.order ==> k in dict.rows
  {
    seq(|dict.order|, i requires 0 <= i < |dict.order| => (dict.order[i], dict.rows[dict.order[i]].price))
  }

  /** Each key of the segments once, as first met, with the price the table now has. */
  ghost predicate TellsWhatWasWritten(after: Db, segments: seq<Segment>, updates: seq<(RateKey, Cents)>) {
    && |updates| == |FirstSeen(RateRows(segments))| && (forall i :: 0 <= i < |updates| ==> updates[i].0 == FirstSeen(RateRows(segments))[i])
    && (forall i, j :: 0 <= i < j < |updates| ==> updates[i].0 != updates[j].0)
    && (forall i :: 0 <= i < |updates| ==> updates[i].0 in after.rates && updates[i].1 == after.rates[updates[i].0].price)
    && forall k :: (exists i :: 0 <= i < |updates| && updates[i].0 == k) <==> LastCovering(segments, k).Some?
  }

  /** The batch leaves the table of applying every segment's rows one at a time, and tells what it wrote. */
  method BulkUpsert(s: Session, segments: seq<Segment>) returns (ok: bool, count: nat, updates: seq<(RateKey, Cents)>)
    modifies s`rates
    ensures ok == AllSameProperty(old(s.roomTypes), old(s.ratePlans), segments)
    ensures s.Tables() == if ok then Written(old(s.Tables()), segments) else old(s.Tables())
    ensures ok ==> count == |updates| && TellsWhatWasWritten(s.Tables(), segments, updates)
  {
    ghost var db := s.Tables();
    var byKey;
    ok, byKey := CollectRows(s, segments);
    if !ok {
      return false, 0, [];
    }
    WrittenAtOnce(db, segments);
    count, updates := |byKey.order|, Updates(byKey);
    if count != 0 {
      s.rates := UpsertAll(s.rates, byKey.rows, Overwrite);
    }
  }

  method CollectRows(s: Session, segments: seq<Segment>) returns (ok: bool, byKey: Dict<RateKey, Rate>)
    ensures ok == AllSameProperty(s.roomTypes, s.ratePlans, segments)
    ensures ok ==> byKey == DictOf(RateRows(segments)) && forall k :: k in byKey.order ==> k in byKey.rows
  {
    byKey := Dict([], map[]);
    for n := 0 to |segments|
      invariant AllSameProperty(s.roomTypes, s.ratePlans, segments[..n])
      invariant byKey == DictOf(RateRows(segments[..n]))
    {
      var g := segments[n];
      if !SameProperty(s.roomTypes, s.ratePlans, g) {
        return false, byKey;
      }
      byKey := AddSpan(byKey, RateRows(segments[..n]), RateSpan(g));
      RateRowsGrow(segments, n);
    }
    assert segments[..|segments|] == segments;
    OrderListsKeys(RateRows(segments));
    return true, byKey;
  }

  lemma WrittenAtOnce(db: Db, segments: seq<Segment>)
    ensures
      var dict := DictOf(RateRows(segments));
      && (if |dict.order| == 0 then db.rates else UpsertAll(db.rates, dict.rows, Overwrite)) == Written(db, segments).rates
      && (forall k :: k in dict.order ==> k in dict.rows)
      && TellsWhatWasWritten(Written(db, segments), segments, Updates(dict))
  {
    BatchEqualsEach(db.rates, RateRows(segments), Overwrite);
    OrderListsKeys(RateRows(segments));
    UpdatesTell(db, segments);
  }

  lemma UpdatesTell(db: Db, segments: seq<Segment>)
    requires forall k :: k in FirstSeen(RateRows(segments)) <==> k in LastWins(RateRows(segments))
    requires Distinct(FirstSeen(RateRows(segments)))
    ensures TellsWhatWasWritten(Written(db, segments), segments, Updates(DictOf(RateRows(segments))))
  {
    var dict := DictOf(RateRows(segments));
    forall k
      ensures (exists i :: 0 <= i < |Updates(dict)| && Updates(dict)[i].0 == k) <==> LastCovering(segments, k).Some?
      ensures k in dict.rows ==> k in Written(db, segments).rates && Written(db, segments).rates[k] == dict.rows[k]
    {
      WrittenFromDict(db.rates, segments, k);
      ToldExactlyWhen(dict, k);
    }
  }

  lemma ToldExactlyWhen(dict: Dict<RateKey, Rate>, k: RateKey)
    requires forall x :: x in dict.order <==> x in dict.rows
    ensures (exists i :: 0 <= i < |Updates(dict)| && Updates(dict)[i].0 == k) <==> k in dict.rows
  {
    if k in dict.order {
      var i :| 0 <= i < |dict.order| && dict.order[i] == k;
      assert Updates(dict)[i].0 == k;
    }
  }

  /** The dict holds what the table gets. */
  lemma WrittenFromDict(rates: Rates, segments: seq<Segment>, k: RateKey)
    ensures
      var dict, after := LastWins(RateRows(segments)), UpsertEach(rates, RateRows(segments), Overwrite);
      && (k in dict <==> LastCovering(segments, k).Some?)
      && (k in dict ==> k in after && after[k] == dict[k])
  {
    LastSegmentDecides(rates, segments, k);
    LastSegmentDecides(map[], segments, k);
    EachFromNothing(RateRows(segments));
  }

  lemma {:induction false} EachFromNothing(rows: seq<(RateKey, Rate)>)
    ensures UpsertEach(map[], rows, Overwrite) == LastWins(rows)
  {
    if rows != [] {
      EachFromNothing(rows[..|rows| - 1]);
    }
  }

  /** Where the segments overlap, the last one that covers a night decides its rate. */
  lemma {:induction false} LastSegmentDecides(rates: Rates, segments: seq<Segment>, k: RateKey)
    ensures
      var after := UpsertEach(rates, RateRows(segments), Overwrite);
      match LastCovering(segments, k)
      case Some(g) => k in after && after[k] == g.rate
      case None => (k in after <==> k in rates) && (k in rates ==> after[k] == rates[k])
  {
    if segments != [] {
      var n := |segments| - 1;
      LastSegmentDecides(rates, segments[..n], k);
      RateRowsGrow(segments, n);
      assert segments[..n + 1] == segments;
      UpsertConcat(rates, RateRows(segments[..n]), DayRows(RateSpan(segments[n]), segments[n].end + 1), Overwrite);
      SegmentDecides(UpsertEach(rates, RateRows(segments[..n]), Overwrite), segments[n], segments[n].end + 1, k);
    }
  }

  predicate CoversKey(g: Segment, k: RateKey) {
    k.roomType == g.roomType && k.ratePlan == g.ratePlan && g.start <= k.night <= g.end
  }

  function LastCovering(segments: seq<Segment>, k: RateKey): Option<Segment> {
    if segments == [] then None
    else if CoversKey(segments[|segments| - 1], k) then Some(segments[|segments| - 1])
    else LastCovering(segments[..|segments| - 1], k)
  }

  lemma {:induction false} SegmentDecides(rates: Rates, g: Segment, stop: Date, k: RateKey)
    ensures
      var after := UpsertEach(rates, DayRows(RateSpan(g), stop), Overwrite);
      if k.roomType == g.roomType && k.ratePlan == g.ratePlan && g.start <= k.night < stop
      then k in after && after[k] == g.rate
      else (k in after <==> k in rates) && (k in rates ==> after[k] == rates[k])
    decreases stop - g.start
  {
    if g.start < stop {
      SegmentDecides(rates, g, stop - 1, k);
      assert DayRows(RateSpan(g), stop)[..stop - 1 - g.start] == DayRows(RateSpan(g), stop - 1);
    }
  }
}
