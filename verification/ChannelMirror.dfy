/** The channel's copy of availability while the ledger changes and pushes overlap. */
module ChannelMirror {
  import opened Base
  import opened ChannelPush
  import opened Inventory

  /** A push under way: when it read the ledger, what it read, and how many updates it has sent. */
  datatype Push = Push(readAt: nat, updates: seq<Update>, sent: nat)

  /**
   `history` holds every committed ledger, the last one current. For each bucket the channel shows,
   `shownAt` is when the shown value was read, and `newest` the latest reading of any push that delivered it.
   */
  datatype State = State(history: seq<Ledger>, mirror: Mirror, shownAt: map<Key, nat>, newest: map<Key, nat>, pushes: map<Id, Push>)

  /** A push of some dates or of the full image; one batch getting through; a push that ends or gives up. */
  datatype Event =
    | Change(key: Key, row: Option<Row>)
    | Read(push: Id, roomType: Id, asked: seq<Date>)
    | ReadFull(push: Id, mapped: seq<Id>, start: Date)
    | Deliver(push: Id)
    | End(push: Id)

  function Changed(ledger: Ledger, key: Key, row: Option<Row>): Ledger {
    match row
    case Some(r) => ledger[key := r]
    case None => ledger - {key}
  }

  function Now(s: State): nat
    requires s.history != []
  {
    |s.history| - 1
  }

  function Begun(s: State, push: Id, updates: seq<Update>): State
    requires s.history != []
  {
    s.(pushes := s.pushes[push := Push(Now(s), updates, 0)])
  }

  function Stamped(stamps: map<Key, nat>, updates: seq<Update>, at: nat): map<Key, nat> {
    if updates == [] then stamps else Stamped(stamps, updates[..|updates| - 1], at)[updates[|updates| - 1].key := at]
  }

  function Later(stamps: map<Key, nat>, updates: seq<Update>, at: nat): map<Key, nat> {
    if updates == [] then stamps else
    var k := updates[|updates| - 1].key;
    var before := Later(stamps, updates[..|updates| - 1], at);
    before[k := if k in before && before[k] > at then before[k] else at]
  }

  function NextBatch(p: Push): seq<Update>
    requires p.sent <= |p.updates|
  {
    p.updates[p.sent..Min(p.sent + BATCH, |p.updates|)]
  }

  function Delivered(s: State, push: Id): State
    requires push in s.pushes && s.pushes[push].sent <= |s.pushes[push].updates|
  {
    var p := s.pushes[push];
    s.(mirror := Shown(s.mirror, NextBatch(p)),
       shownAt := Stamped(s.shownAt, NextBatch(p), p.readAt),
       newest := Later(s.newest, NextBatch(p), p.readAt),
       pushes := s.pushes[push := p.(sent := Min(p.sent + BATCH, |p.updates|))])
  }

  function Step(s: State, e: Event): State
    requires Truthful(s)
  {
    var ledger := s.history[Now(s)];
    match e
    case Change(key, row) => s.(history := s.history + [Changed(ledger, key, row)])
    case Read(push, roomType, asked) =>
      if push in s.pushes then s else Begun(s, push, Values(ledger, roomType, SortedDates(asked)))
    case ReadFull(push, mapped, start) =>
      if push in s.pushes then s else Begun(s, push, FullValues(ledger, mapped, start))
    case Deliver(push) => if push in s.pushes then Delivered(s, push) else s
    case End(push) => s.(pushes := s.pushes - {push})
  }

  // ----- The mirror shows the ledger as it was read -----

  ghost predicate ReadFrom(history: seq<Ledger>, at: nat, updates: seq<Update>) {
    at < |history| && forall i :: 0 <= i < |updates| ==> updates[i].available == Image(history[at], updates[i].key)
  }

  /** What the channel shows for a bucket is its image in the ledger at the moment it was read. */
  ghost predicate ShowsPast(s: State, k: Key) {
    k in s.mirror ==> k in s.shownAt && s.shownAt[k] < |s.history| && s.mirror[k] == Image(s.history[s.shownAt[k]], k)
  }

  ghost predicate Truthful(s: State) {
    && s.history != []
    && (forall p :: p in s.pushes ==> s.pushes[p].sent <= |s.pushes[p].updates| && ReadFrom(s.history, s.pushes[p].readAt, s.pushes[p].updates))
    && forall k :: ShowsPast(s, k)
  }

  lemma {:induction false} FullValuesAreImages(ledger: Ledger, roomTypes: seq<Id>, start: Date, i: nat)
    requires i < |FullValues(ledger, roomTypes, start)|
    ensures FullValues(ledger, roomTypes, start)[i].available == Image(ledger, FullValues(ledger, roomTypes, start)[i].key)
  {
    var before := FullValues(ledger, roomTypes[..|roomTypes| - 1], start);
    if i < |before| {
      FullValuesAreImages(ledger, roomTypes[..|roomTypes| - 1], start, i);
    }
  }

  /** Both kinds of push read the same image of every bucket they cover. */
  lemma ReadsAreImages(ledger: Ledger, history: seq<Ledger>, roomType: Id, dates: seq<Date>, mapped: seq<Id>, start: Date)
    requires history != [] && history[|history| - 1] == ledger
    ensures ReadFrom(history, |history| - 1, Values(ledger, roomType, dates))
    ensures ReadFrom(history, |history| - 1, FullValues(ledger, mapped, start))
  {
    forall i | 0 <= i < |FullValues(ledger, mapped, start)|
      ensures FullValues(ledger, mapped, start)[i].available == Image(ledger, FullValues(ledger, mapped, start)[i].key)
    {
      FullValuesAreImages(ledger, mapped, start, i);
    }
  }

  /** A batch replaces the shown value and its stamp for exactly the buckets it covers. */
  lemma {:induction false} BatchShows(history: seq<Ledger>, mirror: Mirror, stamps: map<Key, nat>, batch: seq<Update>, at: nat, k: Key)
    requires ReadFrom(history, at, batch)
    ensures
      var shown, stamped := Shown(mirror, batch), Stamped(stamps, batch, at);
      || (k in shown && k in stamped && stamped[k] == at && shown[k] == Image(history[at], k))
      || ((k in shown <==> k in mirror) && (k in mirror ==> shown[k] == mirror[k])
          && (k in stamped <==> k in stamps) && (k in stamps ==> stamped[k] == stamps[k]))
  {
    if batch != [] {
      BatchShows(history, mirror, stamps, batch[..|batch| - 1], at, k);
    }
  }

  lemma DeliveredIsTruthful(s: State, push: Id)
    requires Truthful(s) && push in s.pushes
    ensures Truthful(Delivered(s, push))
  {
    var next, p := Delivered(s, push), s.pushes[push];
    assert ReadFrom(s.history, p.readAt, NextBatch(p));
    forall k ensures ShowsPast(next, k) {
      assert ShowsPast(s, k);
      BatchShows(s.history, s.mirror, s.shownAt, NextBatch(p), p.readAt, k);
    }
  }

  lemma ReadFromLonger(history: seq<Ledger>, ledger: Ledger, at: nat, updates: seq<Update>)
    requires ReadFrom(history, at, updates)
    ensures ReadFrom(history + [ledger], at, updates)
  {
  }

  lemma ChangeIsTruthful(s: State, ledger: Ledger)
    requires Truthful(s)
    ensures Truthful(s.(history := s.history + [ledger]))
  {
    var next := s.(history := s.history + [ledger]);
    forall p | p in s.pushes ensures ReadFrom(next.history, s.pushes[p].readAt, s.pushes[p].updates) {
      ReadFromLonger(s.history, ledger, s.pushes[p].readAt, s.pushes[p].updates);
    }
    forall k ensures ShowsPast(next, k) {
      assert ShowsPast(s, k);
    }
  }

  lemma SameMirrorIsTruthful(s: State, pushes: map<Id, Push>)
    requires Truthful(s)
    requires forall p :: p in pushes ==> pushes[p].sent <= |pushes[p].updates| && ReadFrom(s.history, pushes[p].readAt, pushes[p].updates)
    ensures Truthful(s.(pushes := pushes))
  {
    forall k ensures ShowsPast(s.(pushes := pushes), k) {
      assert ShowsPast(s, k);
    }
  }

  lemma StepIsTruthful(s: State, e: Event)
    requires Truthful(s)
    ensures Truthful(Step(s, e))
  {
    var ledger := s.history[Now(s)];
    match e
    case Change(key, row) => ChangeIsTruthful(s, Changed(ledger, key, row));
    case Read(push, roomType, asked) =>
      ReadsAreImages(ledger, s.history, roomType, SortedDates(asked), [], 0);
      SameMirrorIsTruthful(s, Step(s, e).pushes);
    case ReadFull(push, mapped, start) =>
      ReadsAreImages(ledger, s.history, 0, [], mapped, start);
      SameMirrorIsTruthful(s, Step(s, e).pushes);
    case Deliver(push) => if push in s.pushes { DeliveredIsTruthful(s, push); }
    case End(push) => SameMirrorIsTruthful(s, Step(s, e).pushes);
  }

  ghost function Run(s: State, events: seq<Event>): (r: State)
    requires Truthful(s)
    ensures Truthful(r)
  {
    if events == [] then s else
    var before := Run(s, events[..|events| - 1]);
    StepIsTruthful(before, events[|events| - 1]);
    Step(before, events[|events| - 1])
  }

  /** The bucket's image has not changed since some moment. */
  ghost predicate UnchangedSince(s: State, k: Key, at: nat) {
    forall t :: at <= t < |s.history| ==> Image(s.history[t], k) == Image(s.history[|s.history| - 1], k)
  }

  /**
   In any interleaving, from any state, the channel shows the current image of a bucket if and only if the image has
   come back to, or stayed at, what it was when the shown value was read.
   */
  lemma MirrorConverges(s: State, events: seq<Event>, k: Key)
    requires Truthful(s)
    ensures
      var r := Run(s, events);
      k in r.mirror ==>
        && k in r.shownAt && r.shownAt[k] < |r.history|
        && (r.mirror[k] == Image(r.history[Now(r)], k) <==> Image(r.history[r.shownAt[k]], k) == Image(r.history[Now(r)], k))
  {
    var r := Run(s, events);
    assert ShowsPast(r, k);
  }

  // ----- One push at a time -----

  /** No push begins while another is under way. */
  predicate OneAtATime(s: State, e: Event) {
    e.Read? || e.ReadFull? ==> s.pushes == map[]
  }

  ghost predicate Serial(s: State, events: seq<Event>)
    requires Truthful(s)
  {
    forall n :: 0 <= n < |events| ==> SerialAt(s, events, n)
  }

  ghost predicate SerialAt(s: State, events: seq<Event>, n: nat)
    requires Truthful(s) && n < |events|
  {
    OneAtATime(Run(s, events[..n]), events[n])
  }

  /** The shown value is the newest reading ever delivered, and a push under way is newer still. */
  ghost predicate Newest(s: State) {
    && s.shownAt == s.newest && s.mirror.Keys == s.newest.Keys
    && (forall k :: k in s.newest ==> s.newest[k] < |s.history|)
    && (forall p, q :: p in s.pushes && q in s.pushes ==> p == q)
    && forall p, k :: p in s.pushes && k in s.newest ==> s.newest[k] <= s.pushes[p].readAt
  }

  lemma {:induction false} LaterIsStamped(stamps: map<Key, nat>, updates: seq<Update>, at: nat, mirror: Mirror)
    requires forall k :: k in stamps ==> stamps[k] <= at
    requires mirror.Keys == stamps.Keys
    ensures Later(stamps, updates, at) == Stamped(stamps, updates, at)
    ensures forall k :: k in Later(stamps, updates, at) ==> Later(stamps, updates, at)[k] <= at
    ensures Shown(mirror, updates).Keys == Later(stamps, updates, at).Keys
  {
    if updates != [] {
      LaterIsStamped(stamps, updates[..|updates| - 1], at, mirror);
    }
  }

  lemma DeliveredIsNewest(s: State, push: Id)
    requires Truthful(s) && Newest(s) && push in s.pushes
    ensures Newest(Delivered(s, push))
  {
    var p := s.pushes[push];
    LaterIsStamped(s.newest, NextBatch(p), p.readAt, s.mirror);
  }

  lemma StepIsNewest(s: State, e: Event)
    requires Truthful(s) && Newest(s) && OneAtATime(s, e)
    ensures Newest(Step(s, e))
  {
    if e.Deliver? && e.push in s.pushes {
      DeliveredIsNewest(s, e.push);
    }
  }

  lemma SerialBefore(s: State, events: seq<Event>)
    requires Truthful(s) && Serial(s, events) && events != []
    ensures Serial(s, events[..|events| - 1])
    ensures OneAtATime(Run(s, events[..|events| - 1]), events[|events| - 1])
  {
    var before := events[..|events| - 1];
    forall m | 0 <= m < |before| ensures SerialAt(s, before, m) {
      assert before[..m] == events[..m];
      assert SerialAt(s, events, m);
    }
    assert SerialAt(s, events, |events| - 1);
  }

  lemma {:induction false} SerialIsNewest(s: State, events: seq<Event>)
    requires Truthful(s) && Newest(s) && Serial(s, events)
    ensures Newest(Run(s, events))
  {
    if events != [] {
      var before := events[..|events| - 1];
      SerialBefore(s, events);
      SerialIsNewest(s, before);
      StepIsNewest(Run(s, before), events[|events| - 1]);
    }
  }

  /**
   When pushes do not overlap, the channel shows the current image of every bucket that some push
   read after its last change and delivered.
   */
  lemma SerialMirrorConverges(s: State, events: seq<Event>, k: Key)
    requires Truthful(s) && Newest(s) && Serial(s, events)
    ensures
      var r := Run(s, events);
      k in r.newest && UnchangedSince(r, k, r.newest[k]) ==> k in r.mirror && r.mirror[k] == Image(r.history[Now(r)], k)
  {
    SerialIsNewest(s, events);
    assert ShowsPast(Run(s, events), k);
  }

  /** Nothing pushed yet. */
  ghost function Start(ledger: Ledger): (s: State)
    ensures Truthful(s) && Newest(s)
  {
    State([ledger], map[], map[], map[], map[])
  }

  lemma RunOneMore(s: State, events: seq<Event>, e: Event)
    requires Truthful(s)
    ensures Run(s, events + [e]) == Step(Run(s, events), e)
  {
    assert (events + [e])[..|events|] == events;
  }

  const NIGHT: Key := Key(0, 0)

  /** Two pushes of one night: the first reads, the night changes, the second reads and delivers, the first delivers. */
  const OVERLAP: seq<Event> :=
    [Read(1, 0, [0])] + [Change(NIGHT, Some(Row(2, 0, 0)))] + [Read(2, 0, [0])] + [Deliver(2)] + [Deliver(1)]

  function OfNight(readAt: nat, available: nat, sent: nat): Push {
    Push(readAt, [Update(NIGHT, available)], sent)
  }

  lemma OneDate()
    ensures SortedDates([0]) == [0]
  {
    assert [0][1..] == [] && SortedDates([]) == [];
  }

  lemma ReadNight(s: State, push: Id, rooms: nat)
    requires Truthful(s) && push !in s.pushes && rooms > 0 && s.history[Now(s)] == map[NIGHT := Row(rooms, 0, 0)]
    ensures Step(s, Read(push, 0, [0])) == s.(pushes := s.pushes[push := OfNight(Now(s), rooms, 0)])
  {
    OneDate();
    assert Values(s.history[Now(s)], 0, [0]) == [Update(NIGHT, rooms)];
  }

  lemma ShownOne(mirror: Mirror, stamps: map<Key, nat>, u: Update, at: nat)
    ensures Shown(mirror, [u]) == mirror[u.key := u.available] && Stamped(stamps, [u], at) == stamps[u.key := at]
    ensures Later(stamps, [u], at) == stamps[u.key := if u.key in stamps && stamps[u.key] > at then stamps[u.key] else at]
  {
    assert [u][..0] == [];
    assert Shown(mirror, []) == mirror && Later(stamps, [], at) == stamps && Stamped(stamps, [], at) == stamps;
  }

  lemma DeliverNight(s: State, push: Id, at: nat, rooms: nat)
    requires Truthful(s) && push in s.pushes && s.pushes[push] == OfNight(at, rooms, 0)
    ensures
      Step(s, Deliver(push))
        == s.(mirror := s.mirror[NIGHT := rooms], shownAt := s.shownAt[NIGHT := at],
              newest := s.newest[NIGHT := if NIGHT in s.newest && s.newest[NIGHT] > at then s.newest[NIGHT] else at],
              pushes := s.pushes[push := OfNight(at, rooms, 1)])
  {
    assert NextBatch(s.pushes[push]) == [Update(NIGHT, rooms)];
    ShownOne(s.mirror, s.newest, Update(NIGHT, rooms), at);
    ShownOne(s.mirror, s.shownAt, Update(NIGHT, rooms), at);
  }

  /** The run up to the second reading. */
  function BothRead(): State {
    State([map[NIGHT := Row(1, 0, 0)], map[NIGHT := Row(2, 0, 0)]], map[], map[], map[], map[1 := OfNight(0, 1, 0), 2 := OfNight(1, 2, 0)])
  }

  lemma FirstReads(s: State) returns (r: State)
    requires s == Start(map[NIGHT := Row(1, 0, 0)])
    ensures r == Run(s, OVERLAP[..1]) && r == State(s.history, map[], map[], map[], map[1 := OfNight(0, 1, 0)])
  {
    assert [] + OVERLAP[..1] == OVERLAP[..1] && OVERLAP[..1] == [Read(1, 0, [0])];
    RunOneMore(s, [], Read(1, 0, [0]));
    ReadNight(s, 1, 1);
    r := Run(s, OVERLAP[..1]);
  }

  lemma NightChanges(s: State) returns (r: State)
    requires s == Start(map[NIGHT := Row(1, 0, 0)])
    ensures
      && r == Run(s, OVERLAP[..2])
      && r == State(BothRead().history, map[], map[], map[], map[1 := OfNight(0, 1, 0)])
  {
    var before := FirstReads(s);
    assert OVERLAP[..2] == OVERLAP[..1] + [Change(NIGHT, Some(Row(2, 0, 0)))];
    RunOneMore(s, OVERLAP[..1], Change(NIGHT, Some(Row(2, 0, 0))));
    r := Run(s, OVERLAP[..2]);
    assert Changed(s.history[0], NIGHT, Some(Row(2, 0, 0))) == map[NIGHT := Row(2, 0, 0)];
  }

  lemma SecondReads(s: State)
    requires s == Start(map[NIGHT := Row(1, 0, 0)])
    ensures Run(s, OVERLAP[..3]) == BothRead()
  {
    var before := NightChanges(s);
    assert OVERLAP[..3] == OVERLAP[..2] + [Read(2, 0, [0])];
    RunOneMore(s, OVERLAP[..2], Read(2, 0, [0]));
    ReadNight(before, 2, 2);
  }

  lemma SecondDelivers(s: State) returns (r: State)
    requires s == Start(map[NIGHT := Row(1, 0, 0)])
    ensures r == Run(s, OVERLAP[..4]) && r.history == BothRead().history && r.newest == map[NIGHT := 1]
    ensures 1 in r.pushes && r.pushes[1] == OfNight(0, 1, 0)
  {
    SecondReads(s);
    assert OVERLAP[..4] == OVERLAP[..3] + [Deliver(2)];
    RunOneMore(s, OVERLAP[..3], Deliver(2));
    r := Run(s, OVERLAP[..4]);
    DeliverNight(Run(s, OVERLAP[..3]), 2, 1, 2);
  }

  /** When they do overlap it need not: a push that read before the last change may deliver last. */
  lemma OverlapLeavesStale()
    ensures
      var r := Run(Start(map[NIGHT := Row(1, 0, 0)]), OVERLAP);
      && NIGHT in r.newest && r.newest[NIGHT] == Now(r)
      && NIGHT in r.mirror && r.mirror[NIGHT] == 1 && Image(r.history[Now(r)], NIGHT) == 2
  {
    var s := Start(map[NIGHT := Row(1, 0, 0)]);
    var before := SecondDelivers(s);
    assert OVERLAP == OVERLAP[..4] + [Deliver(1)];
    RunOneMore(s, OVERLAP[..4], Deliver(1));
    DeliverNight(before, 1, 0, 1);
  }

  // ----- The push tasks are runs -----

  /** n batches of one push. */
  function Deliveries(push: Id, n: nat): seq<Event> {
    seq(n, i => Deliver(push))
  }

  /** After n batches a push has sent that many of its updates, and the channel shows them. */
  ghost predicate HasSent(s: State, r: State, push: Id, n: nat)
    requires push in s.pushes
  {
    var p := s.pushes[push];
    && r.history == s.history && r.pushes == s.pushes[push := p.(sent := SentAfter(n, |p.updates|))]
    && r.mirror == Shown(s.mirror, p.updates[..SentAfter(n, |p.updates|)])
  }

  lemma HasSentNothing(s: State, push: Id)
    requires push in s.pushes && s.pushes[push].sent == 0
    ensures HasSent(s, s, push, 0)
  {
    assert s.pushes[push].updates[..0] == [];
    assert s.pushes[push := s.pushes[push].(sent := 0)] == s.pushes;
  }

  lemma DeliverIsDelivered(s: State, push: Id)
    requires Truthful(s) && push in s.pushes
    ensures Step(s, Deliver(push)) == Delivered(s, push)
  {
  }

  lemma HasSentOneMore(s: State, r: State, push: Id, n: nat)
    requires push in s.pushes && HasSent(s, r, push, n)
    ensures HasSent(s, Delivered(r, push), push, n + 1)
  {
    var updates := s.pushes[push].updates;
    ShownInTwo(s.mirror, updates, SentAfter(n, |updates|), SentAfter(n + 1, |updates|));
  }

  lemma {:induction false} DeliveriesShow(s: State, push: Id, n: nat)
    requires Truthful(s) && push in s.pushes && s.pushes[push].sent == 0
    ensures HasSent(s, Run(s, Deliveries(push, n)), push, n)
  {
    if n == 0 {
      HasSentNothing(s, push);
    } else {
      DeliveriesShow(s, push, n - 1);
      assert Deliveries(push, n) == Deliveries(push, n - 1) + [Deliver(push)];
      RunOneMore(s, Deliveries(push, n - 1), Deliver(push));
      var r := Run(s, Deliveries(push, n - 1));
      DeliverIsDelivered(r, push);
      HasSentOneMore(s, r, push, n - 1);
    }
  }

  lemma RunConcatOne(s: State, a: seq<Event>, b: seq<Event>, e: Event)
    requires Truthful(s) && Run(s, a + b) == Run(Run(s, a), b)
    ensures Run(s, a + (b + [e])) == Run(Run(s, a), b + [e])
  {
    AppendAssoc(a, b, e);
    RunOneMore(s, a + b, e);
    RunOneMore(Run(s, a), b, e);
  }

  lemma {:induction false} RunConcat(s: State, a: seq<Event>, b: seq<Event>)
    requires Truthful(s)
    ensures Run(s, a + b) == Run(Run(s, a), b)
  {
    if b == [] {
      assert a + b == a;
    } else {
      var most, last := b[..|b| - 1], b[|b| - 1];
      assert b == most + [last];
      RunConcat(s, a, most);
      RunConcatOne(s, a, most, last);
    }
  }

  lemma RunOne(s: State, e: Event)
    requires Truthful(s)
    ensures Run(s, [e]) == Step(s, e)
  {
    assert [e][..0] == [];
  }

  lemma InThreeParts(s: State, read: Event, batches: seq<Event>, end: Event)
    requires Truthful(s)
    requires Truthful(Step(s, read))
    ensures Run(s, [read] + batches + [end]) == Step(Run(Step(s, read), batches), end)
  {
    RunOne(s, read);
    RunConcat(s, [read], batches);
    RunOneMore(s, [read] + batches, end);
  }

  lemma EndForgets(s: State, begun: map<Id, Push>, push: Id, p: Push)
    requires Truthful(s) && push !in begun && s.pushes == begun[push := p]
    ensures Step(s, End(push)) == s.(pushes := begun)
  {
    assert s.pushes - {push} == begun;
  }

  lemma PushedFrom(begun: State, others: map<Id, Push>, push: Id, at: nat, updates: seq<Update>, n: nat)
    requires Truthful(begun) && push !in others && begun.pushes == others[push := Push(at, updates, 0)]
    ensures
      var r := Step(Run(begun, Deliveries(push, n)), End(push));
      r.mirror == Shown(begun.mirror, updates[..SentAfter(n, |updates|)]) && r.history == begun.history && r.pushes == others
  {
    DeliveriesShow(begun, push, n);
    var p := Push(at, updates, SentAfter(n, |updates|));
    assert begun.pushes[push := p] == others[push := p];
    EndForgets(Run(begun, Deliveries(push, n)), others, push, p);
  }

  /** What a push of some updates leaves, whichever way it read them. */
  lemma PushedRun(s: State, push: Id, read: Event, updates: seq<Update>, n: nat)
    requires Truthful(s) && push !in s.pushes && Step(s, read) == Begun(s, push, updates)
    ensures
      var r := Run(s, [read] + Deliveries(push, n) + [End(push)]);
      r.mirror == Shown(s.mirror, updates[..SentAfter(n, |updates|)]) && r.history == s.history && r.pushes == s.pushes
  {
    StepIsTruthful(s, read);
    InThreeParts(s, read, Deliveries(push, n), End(push));
    PushedFrom(Step(s, read), s.pushes, push, Now(s), updates, n);
  }

  /** What the method reports as sent is what some number of batches carry. */
  lemma SentInBatches(sent: nat, count: nat) returns (n: nat)
    requires sent <= count && (sent < count ==> sent % BATCH == 0)
    ensures sent == SentAfter(n, count)
  {
    n := if sent < count then sent / BATCH else count;
  }

  /**
   The incremental push is a run: whatever number of updates the method reports as sent, some number of deliveries
   between its reading and its end leaves the channel showing just those.
   */
  lemma PushIsRun(s: State, push: Id, roomType: Id, asked: seq<Date>, sent: nat) returns (n: nat)
    requires Truthful(s) && push !in s.pushes
    requires
      var updates := Values(s.history[Now(s)], roomType, SortedDates(asked));
      sent <= |updates| && (sent < |updates| ==> sent % BATCH == 0)
    ensures
      var updates := Values(s.history[Now(s)], roomType, SortedDates(asked));
      var r := Run(s, [Read(push, roomType, asked)] + Deliveries(push, n) + [End(push)]);
      r.mirror == Shown(s.mirror, updates[..sent]) && r.history == s.history && r.pushes == s.pushes
  {
    var updates := Values(s.history[Now(s)], roomType, SortedDates(asked));
    n := SentInBatches(sent, |updates|);
    PushedRun(s, push, Read(push, roomType, asked), updates, n);
  }

  /** So is the full sync. */
  lemma FullSyncIsRun(s: State, push: Id, mapped: seq<Id>, start: Date, sent: nat) returns (n: nat)
    requires Truthful(s) && push !in s.pushes
    requires
      var updates := FullValues(s.history[Now(s)], mapped, start);
      sent <= |updates| && (sent < |updates| ==> sent % BATCH == 0)
    ensures
      var updates := FullValues(s.history[Now(s)], mapped, start);
      var r := Run(s, [ReadFull(push, mapped, start)] + Deliveries(push, n) + [End(push)]);
      r.mirror == Shown(s.mirror, updates[..sent]) && r.history == s.history && r.pushes == s.pushes
  {
    var updates := FullValues(s.history[Now(s)], mapped, start);
    n := SentInBatches(sent, |updates|);
    PushedRun(s, push, ReadFull(push, mapped, start), updates, n);
  }
}
