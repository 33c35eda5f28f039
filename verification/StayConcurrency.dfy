/**
 Concurrent transactions on the nights of one room category: new bookings, date changes, and releases. Each locks its
 old nights one by one and checks them, then its new nights, counts, and commits later; any of them may crash.
 */
module StayConcurrency {
  import opened Base
  import opened Inventory

  type Rows = map<Date, Row>

  /** Locking(i) holds the first i of its nights; Claimed holds all and has counted them, uncommitted. */
  datatype Phase = Locking(next: nat) | Claimed | Committed | Refused | Crashed

  /** What a transaction does to one booking: `gives` are the nights it read there and gives back, `takes` the nights it wants. */
  datatype Tx = Tx(booking: Id, gives: seq<Date>, takes: seq<Date>, phase: Phase) {
    function Nights(): seq<Date> { gives + takes }

    predicate Finished() { phase.Committed? || phase.Refused? || phase.Crashed? }

    predicate Holds(d: Date) {
      match phase
      case Locking(i) => i <= |Nights()| && d in Nights()[..i]
      case Claimed => d in Nights()
      case _ => false
    }

    /** By how much a commit moves the counter of a night. */
    function Moves(d: Date): int {
      (if d in takes then 1 else 0) - if d in gives then 1 else 0
    }
  }

  /** Committed rows, the committed nights of each occupying booking, and the transactions. */
  datatype State = State(rows: Rows, held: map<Id, set<Date>>, txs: seq<Tx>) {
    predicate LockedByOther(t: nat, d: Date) {
      exists u :: 0 <= u < |txs| && u != t && txs[u].Holds(d)
    }
  }

  // ----- Steps -----

  /** The zero-room check and the decrement that follows it. */
  predicate Releases(rows: Rows, nights: seq<Date>) {
    forall d :: d in nights ==> d in rows && rows[d].Available() >= 0 && rows[d].booked >= 1
  }

  /** The one-room check, on rows already lowered in memory. */
  predicate Fits(rows: Rows, tx: Tx) {
    forall d :: d in tx.takes ==> d in rows && rows[d].Available() + (if d in tx.gives then 1 else 0) >= 1
  }

  predicate Accepts(rows: Rows, tx: Tx) {
    Releases(rows, tx.gives) && Fits(rows, tx)
  }

  function SetPhase(s: State, t: nat, phase: Phase): State
    requires t < |s.txs|
  {
    s.(txs := s.txs[t := s.txs[t].(phase := phase)])
  }

  function Moved(rows: Rows, tx: Tx): Rows {
    map d | d in rows :: rows[d].(booked := rows[d].booked + tx.Moves(d))
  }

  function Rewritten(held: map<Id, set<Date>>, tx: Tx): map<Id, set<Date>> {
    if tx.takes == [] then held - {tx.booking} else held[tx.booking := set d | d in tx.takes]
  }

  /** One more row; the new nights are not locked before the old ones passed their check. */
  predicate Lock(s: State, t: nat, s': State) {
    && t < |s.txs| && s.txs[t].phase.Locking? && s.txs[t].phase.next < |s.txs[t].Nights()|
    && (s.txs[t].phase.next >= |s.txs[t].gives| ==> Releases(s.rows, s.txs[t].gives))
    && !s.LockedByOther(t, s.txs[t].Nights()[s.txs[t].phase.next])
    && s' == SetPhase(s, t, Locking(s.txs[t].phase.next + 1))
  }

  /** The old nights are locked and cannot be given back. */
  predicate Stop(s: State, t: nat, s': State) {
    && t < |s.txs| && s.txs[t].phase == Locking(|s.txs[t].gives|) && !Releases(s.rows, s.txs[t].gives)
    && s' == SetPhase(s, t, Refused)
  }

  /** Every row is locked: check and count. */
  predicate Claim(s: State, t: nat, s': State) {
    && t < |s.txs| && s.txs[t].phase == Locking(|s.txs[t].Nights()|)
    && s' == SetPhase(s, t, if Accepts(s.rows, s.txs[t]) then Claimed else Refused)
  }

  predicate Commit(s: State, t: nat, s': State) {
    && t < |s.txs| && s.txs[t].phase == Claimed
    && s' == SetPhase(s, t, Committed).(rows := Moved(s.rows, s.txs[t]), held := Rewritten(s.held, s.txs[t]))
  }

  predicate Crash(s: State, t: nat, s': State) {
    && t < |s.txs| && !s.txs[t].Finished() && s' == SetPhase(s, t, Crashed)
  }

  predicate Progress(s: State, t: nat, s': State) {
    Lock(s, t, s') || Stop(s, t, s') || Claim(s, t, s') || Commit(s, t, s')
  }

  ghost predicate Step(s: State, s': State) {
    exists t: nat :: Progress(s, t, s') || Crash(s, t, s')
  }

  // ----- Invariant -----

  /** A start: seeded rows within capacity, nothing locked yet. */
  ghost predicate Init(s: State) {
    && (forall d :: d in s.rows ==> s.rows[d].Available() >= 0)
    && forall t :: 0 <= t < |s.txs| ==> s.txs[t].phase == Locking(0) && forall d :: d in s.txs[t].Nights() ==> d in s.rows
  }

  /** The committed transactions that took night d, and those that gave it back. */
  ghost function Takers(s: State, d: Date): set<int> {
    set t | 0 <= t < |s.txs| && s.txs[t].phase.Committed? && d in s.txs[t].takes
  }

  ghost function Givers(s: State, d: Date): set<int> {
    set t | 0 <= t < |s.txs| && s.txs[t].phase.Committed? && d in s.txs[t].gives
  }

  /** What a transaction's phase says about the rows. */
  ghost predicate PhaseFits(s: State, tx: Tx) {
    match tx.phase
    case Locking(i) => i <= |tx.Nights()| && (i > |tx.gives| ==> Releases(s.rows, tx.gives))
    case Claimed => Accepts(s.rows, tx)
    case _ => true
  }

  ghost predicate LocksExclusive(s: State) {
    forall t, u, d :: 0 <= t < u < |s.txs| ==> !(s.txs[t].Holds(d) && s.txs[u].Holds(d))
  }

  ghost predicate SameRequests(start: State, s: State) {
    && |s.txs| == |start.txs|
    && forall t :: 0 <= t < |s.txs| ==> s.txs[t] == start.txs[t].(phase := s.txs[t].phase)
  }

  ghost predicate Counted(start: State, s: State) {
    && s.rows.Keys == start.rows.Keys
    && forall d :: d in s.rows ==>
         s.rows[d] == start.rows[d].(booked := start.rows[d].booked + |Takers(s, d)| - |Givers(s, d)|)
  }

  ghost predicate Inv(start: State, s: State) {
    && SameRequests(start, s) && LocksExclusive(s) && Counted(start, s)
    && (forall t :: 0 <= t < |s.txs| ==> PhaseFits(s, s.txs[t]) && forall d :: d in s.txs[t].Nights() ==> d in s.rows)
    && forall d :: d in s.rows ==> s.rows[d].Available() >= 0
  }

  lemma InitIsInv(s: State)
    requires Init(s)
    ensures Inv(s, s)
  {
    forall d | d in s.rows ensures Takers(s, d) == {} && Givers(s, d) == {} {
    }
  }

  lemma QuietStepKeepsCounts(start: State, s: State, t: nat, phase: Phase)
    requires Counted(start, s) && t < |s.txs| && !s.txs[t].phase.Committed? && !phase.Committed?
    ensures Counted(start, SetPhase(s, t, phase))
  {
    forall d ensures Takers(SetPhase(s, t, phase), d) == Takers(s, d) && Givers(SetPhase(s, t, phase), d) == Givers(s, d) {
    }
  }

  lemma SameElsewhere(s: State, t: nat, s': State, u: int)
    requires Commit(s, t, s') && 0 <= u < |s.txs|
    ensures |s'.txs| == |s.txs| && if u == t then s'.txs[u] == s.txs[t].(phase := Committed) else s'.txs[u] == s.txs[u]
  {
  }

  lemma TakersAfter(s: State, t: nat, s': State, d: Date)
    requires Commit(s, t, s')
    ensures Takers(s', d) == Takers(s, d) + if d in s.txs[t].takes then {t as int} else {}
  {
    forall u ensures u in Takers(s', d) <==> u in Takers(s, d) || (u == t && d in s.txs[t].takes) {
      if 0 <= u < |s.txs| {
        SameElsewhere(s, t, s', u);
      }
    }
  }

  lemma GiversAfter(s: State, t: nat, s': State, d: Date)
    requires Commit(s, t, s')
    ensures Givers(s', d) == Givers(s, d) + if d in s.txs[t].gives then {t as int} else {}
  {
    forall u ensures u in Givers(s', d) <==> u in Givers(s, d) || (u == t && d in s.txs[t].gives) {
      if 0 <= u < |s.txs| {
        SameElsewhere(s, t, s', u);
      }
    }
  }

  lemma CommitMovesCount(s: State, t: nat, s': State, d: Date)
    requires Commit(s, t, s')
    ensures |Takers(s', d)| == |Takers(s, d)| + if d in s.txs[t].takes then 1 else 0
    ensures |Givers(s', d)| == |Givers(s, d)| + if d in s.txs[t].gives then 1 else 0
  {
    TakersAfter(s, t, s', d);
    GiversAfter(s, t, s', d);
    assert t !in Takers(s, d) && t !in Givers(s, d);
  }

  lemma CommitKeepsCounts(start: State, s: State, t: nat, s': State)
    requires Counted(start, s) && Commit(s, t, s')
    ensures Counted(start, s')
  {
    forall d | d in s.rows
      ensures s'.rows[d] == start.rows[d].(booked := start.rows[d].booked + |Takers(s', d)| - |Givers(s', d)|)
    {
      CommitMovesCount(s, t, s', d);
    }
  }

  /** A phase change that takes no new lock, or one nobody else holds, keeps the locks exclusive. */
  lemma LocksStayExclusive(s: State, t: nat, phase: Phase)
    requires t < |s.txs| && LocksExclusive(s)
    requires forall d :: s.txs[t].(phase := phase).Holds(d) ==> s.txs[t].Holds(d) || !s.LockedByOther(t, d)
    ensures LocksExclusive(SetPhase(s, t, phase))
  {
    var s' := SetPhase(s, t, phase);
    forall a, b, d | 0 <= a < b < |s.txs| ensures !(s'.txs[a].Holds(d) && s'.txs[b].Holds(d)) {
      assert !(s.txs[a].Holds(d) && s.txs[b].Holds(d));
    }
  }

  lemma LockHolds(tx: Tx, i: nat, d: Date)
    requires tx.phase == Locking(i) && i < |tx.Nights()|
    ensures tx.(phase := Locking(i + 1)).Holds(d) <==> tx.Holds(d) || d == tx.Nights()[i]
  {
    assert tx.Nights()[..i + 1] == tx.Nights()[..i] + [tx.Nights()[i]];
    assert tx.(phase := Locking(i + 1)).Nights() == tx.Nights();
  }

  lemma QuietStepKeepsInv(start: State, s: State, t: nat, phase: Phase)
    requires Inv(start, s) && t < |s.txs| && !s.txs[t].phase.Committed? && !phase.Committed?
    requires PhaseFits(s, s.txs[t].(phase := phase))
    requires forall d :: s.txs[t].(phase := phase).Holds(d) ==> s.txs[t].Holds(d) || !s.LockedByOther(t, d)
    ensures Inv(start, SetPhase(s, t, phase))
  {
    LocksStayExclusive(s, t, phase);
    QuietStepKeepsCounts(start, s, t, phase);
    var s' := SetPhase(s, t, phase);
    forall u | 0 <= u < |s.txs| ensures PhaseFits(s', s'.txs[u]) && forall d :: d in s'.txs[u].Nights() ==> d in s'.rows {
      assert PhaseFits(s, s.txs[u]);
    }
  }

  /** The rows a transaction holds are not moved by the commit of another. */
  lemma OthersRowsStay(s: State, t: nat, s': State, u: nat, d: Date)
    requires Commit(s, t, s') && LocksExclusive(s) && u < |s.txs| && u != t && s.txs[u].Holds(d) && d in s.rows
    ensures s'.rows[d] == s.rows[d]
  {
    assert s.txs[t].Holds(d) <==> d in s.txs[t].Nights();
    assert !s.txs[t].Holds(d);
  }

  lemma OthersStillFit(s: State, t: nat, s': State, u: nat)
    requires Commit(s, t, s') && LocksExclusive(s) && u < |s.txs| && u != t && PhaseFits(s, s.txs[u])
    ensures PhaseFits(s', s.txs[u])
  {
    var tx := s.txs[u];
    forall d | tx.Holds(d) && d in s.rows ensures s'.rows[d] == s.rows[d] {
      OthersRowsStay(s, t, s', u, d);
    }
    match tx.phase
    case Locking(i) =>
      if i > |tx.gives| {
        forall d | d in tx.gives ensures d in tx.Nights()[..i] {
          GivenIsFirst(tx, i, d);
        }
      }
    case Claimed =>
    case _ =>
  }

  lemma GivenIsFirst(tx: Tx, i: nat, d: Date)
    requires |tx.gives| <= i <= |tx.Nights()| && d in tx.gives
    ensures d in tx.Nights()[..i]
  {
    var j :| 0 <= j < |tx.gives| && tx.gives[j] == d;
    assert tx.Nights()[..i][j] == d;
  }

  lemma CommitStaysWithin(s: State, t: nat, s': State)
    requires Commit(s, t, s') && Accepts(s.rows, s.txs[t]) && forall d :: d in s.rows ==> s.rows[d].Available() >= 0
    ensures forall d :: d in s'.rows ==> s'.rows[d].Available() >= 0
  {
  }

  lemma CommitKeepsInv(start: State, s: State, t: nat, s': State)
    requires Inv(start, s) && Commit(s, t, s')
    ensures Inv(start, s')
  {
    assert PhaseFits(s, s.txs[t]);
    LocksStayExclusive(s, t, Committed);
    CommitKeepsCounts(start, s, t, s');
    CommitStaysWithin(s, t, s');
    forall u | 0 <= u < |s.txs| ensures PhaseFits(s', s'.txs[u]) && forall d :: d in s'.txs[u].Nights() ==> d in s'.rows {
      SameElsewhere(s, t, s', u);
      if u != t {
        OthersStillFit(s, t, s', u);
      }
    }
  }

  lemma LockKeepsInv(start: State, s: State, t: nat, s': State)
    requires Inv(start, s) && Lock(s, t, s')
    ensures Inv(start, s')
  {
    var tx := s.txs[t];
    forall d ensures tx.(phase := Locking(tx.phase.next + 1)).Holds(d) <==> tx.Holds(d) || d == tx.Nights()[tx.phase.next] {
      LockHolds(tx, tx.phase.next, d);
    }
    QuietStepKeepsInv(start, s, t, Locking(tx.phase.next + 1));
  }

  lemma ClaimKeepsInv(start: State, s: State, t: nat, s': State)
    requires Inv(start, s) && Claim(s, t, s')
    ensures Inv(start, s')
  {
    assert s.txs[t].Nights()[..|s.txs[t].Nights()|] == s.txs[t].Nights();
    QuietStepKeepsInv(start, s, t, s'.txs[t].phase);
  }

  lemma StepKeepsInv(start: State, s: State, s': State)
    requires Inv(start, s) && Step(s, s')
    ensures Inv(start, s')
  {
    var t: nat :| Progress(s, t, s') || Crash(s, t, s');
    if Lock(s, t, s') {
      LockKeepsInv(start, s, t, s');
    } else if Stop(s, t, s') {
      QuietStepKeepsInv(start, s, t, Refused);
    } else if Claim(s, t, s') {
      ClaimKeepsInv(start, s, t, s');
    } else if Commit(s, t, s') {
      CommitKeepsInv(start, s, t, s');
    } else {
      QuietStepKeepsInv(start, s, t, Crashed);
    }
  }

  ghost predicate Run(states: seq<State>) {
    |states| > 0 && Init(states[0]) && forall i :: 0 <= i < |states| - 1 ==> StepAt(states, i)
  }

  ghost predicate StepAt(states: seq<State>, i: nat)
    requires i + 1 < |states|
  {
    Step(states[i], states[i + 1])
  }

  /** Some n steps lead from one state to the other. */
  ghost predicate Reaches(from: State, last: State, n: nat) {
    exists states :: Leads(states, from, last, n)
  }

  ghost predicate Leads(states: seq<State>, from: State, last: State, n: nat) {
    && |states| == n + 1 && states[0] == from && states[n] == last
    && forall i :: 0 <= i < n ==> StepAt(states, i)
  }

  lemma ReachesItself(s: State)
    ensures Reaches(s, s, 0)
  {
    assert Leads([s], s, s, 0);
  }

  lemma OneMore(from: State, s: State, s1: State, n: nat)
    requires Reaches(from, s, n) && Step(s, s1)
    ensures Reaches(from, s1, n + 1)
  {
    var states :| Leads(states, from, s, n);
    var more := states + [s1];
    forall i | 0 <= i < n + 1 ensures StepAt(more, i) {
      if i < n {
        assert StepAt(states, i);
      }
    }
    assert Leads(more, from, s1, n + 1);
  }

  lemma LastStep(from: State, s: State, n: nat) returns (mid: State)
    requires n > 0 && Reaches(from, s, n)
    ensures Reaches(from, mid, n - 1) && Step(mid, s)
  {
    var states :| Leads(states, from, s, n);
    mid := states[n - 1];
    assert StepAt(states, n - 1);
    var fewer := states[..n];
    forall i | 0 <= i < n - 1 ensures StepAt(fewer, i) {
      assert StepAt(states, i);
    }
    assert Leads(fewer, from, mid, n - 1);
  }

  lemma ThreeMore(from: State, s: State, s1: State, s2: State, s3: State, n: nat)
    requires Reaches(from, s, n) && Step(s, s1) && Step(s1, s2) && Step(s2, s3)
    ensures Reaches(from, s3, n + 3)
  {
    OneMore(from, s, s1, n);
    OneMore(from, s1, s2, n + 1);
    OneMore(from, s2, s3, n + 2);
  }

  lemma {:induction false} RunKeepsInv(states: seq<State>, n: nat)
    requires Run(states) && n < |states|
    ensures Inv(states[0], states[n])
  {
    if n == 0 {
      InitIsInv(states[0]);
    } else {
      RunKeepsInv(states, n - 1);
      assert StepAt(states, n - 1);
      StepKeepsInv(states[0], states[n - 1], states[n]);
    }
  }

  // ----- Capacity -----

  /**
   In no interleaving does a night go past its rooms; each committed transaction counts exactly once on each night it
   took and is taken off once on each night it gave back.
   */
  lemma NeverOverbooked(states: seq<State>, n: nat, d: Date)
    requires Run(states) && n < |states| && d in states[0].rows
    ensures d in states[n].rows
    ensures states[n].rows[d].booked + states[n].rows[d].blocked <= states[n].rows[d].total
    ensures states[n].rows[d].booked == states[0].rows[d].booked + |Takers(states[n], d)| - |Givers(states[n], d)|
  {
    RunKeepsInv(states, n);
    assert states[n].rows[d].Available() >= 0;
  }

  predicate Quiescent(s: State) {
    forall t :: 0 <= t < |s.txs| ==> s.txs[t].Finished()
  }

  /** Every transaction is the claim of a new booking on the one night. */
  predicate OnlyClaims(s: State, d: Date) {
    forall t :: 0 <= t < |s.txs| ==> s.txs[t].gives == [] && s.txs[t].takes == [d]
  }

  /** While there are only claims, a night that refused one is full and stays full. */
  predicate RefusedIsFull(s: State, d: Date) {
    d in s.rows && forall t :: 0 <= t < |s.txs| && s.txs[t].phase.Refused? ==> s.rows[d].Available() < 1
  }

  lemma QuietStepKeepsRefusedFull(s: State, t: nat, phase: Phase, d: Date)
    requires t < |s.txs| && OnlyClaims(s, d) && RefusedIsFull(s, d) && (phase.Refused? ==> s.rows[d].Available() < 1)
    ensures OnlyClaims(SetPhase(s, t, phase), d) && RefusedIsFull(SetPhase(s, t, phase), d)
  {
  }

  lemma CommitKeepsRefusedFull(s: State, t: nat, s': State, d: Date)
    requires Commit(s, t, s') && OnlyClaims(s, d) && RefusedIsFull(s, d)
    ensures OnlyClaims(s', d) && RefusedIsFull(s', d)
  {
    QuietStepKeepsRefusedFull(s, t, Committed, d);
    assert s.txs[t].Moves(d) == 1;
  }

  lemma RefusedForLackOfRoom(s: State, t: nat, d: Date)
    requires t < |s.txs| && OnlyClaims(s, d) && d in s.rows && !Accepts(s.rows, s.txs[t])
    ensures s.rows[d].Available() < 1
  {
  }

  lemma StepKeepsRefusedFull(s: State, s': State, d: Date)
    requires Step(s, s') && OnlyClaims(s, d) && RefusedIsFull(s, d)
    ensures OnlyClaims(s', d) && RefusedIsFull(s', d)
  {
    var t: nat :| Progress(s, t, s') || Crash(s, t, s');
    if Commit(s, t, s') {
      CommitKeepsRefusedFull(s, t, s', d);
    } else {
      if !Accepts(s.rows, s.txs[t]) {
        RefusedForLackOfRoom(s, t, d);
      }
      QuietStepKeepsRefusedFull(s, t, s'.txs[t].phase, d);
    }
  }

  lemma {:induction false} RunKeepsRefusedFull(states: seq<State>, n: nat, d: Date)
    requires Run(states) && n < |states| && d in states[0].rows && OnlyClaims(states[0], d)
    ensures OnlyClaims(states[n], d) && RefusedIsFull(states[n], d)
  {
    if n > 0 {
      RunKeepsRefusedFull(states, n - 1, d);
      assert StepAt(states, n - 1);
      StepKeepsRefusedFull(states[n - 1], states[n], d);
    }
  }

  function CrashedOnes(s: State): set<int> {
    set t | 0 <= t < |s.txs| && s.txs[t].phase.Crashed?
  }

  /** N single-night claims on k free rooms, c of which crashed: exactly min(N - c, k) succeed. */
  lemma ExactlyMinSucceed(states: seq<State>, n: nat, d: Date)
    requires Run(states) && n < |states| && d in states[0].rows && OnlyClaims(states[0], d) && Quiescent(states[n])
    ensures
      var alive, free := |states[n].txs| - |CrashedOnes(states[n])|, states[0].rows[d].Available();
      |Takers(states[n], d)| == if alive <= free then alive else free
  {
    var s := states[n];
    RunKeepsRefusedFull(states, n, d);
    NeverOverbooked(states, n, d);
    assert Givers(s, d) == {};
    var all := UpTo(|s.txs|);
    UpToHolds(|s.txs|);
    assert CrashedOnes(s) <= all;
    var alive := all - CrashedOnes(s);
    assert all == alive + CrashedOnes(s);
    assert Takers(s, d) <= alive;
    if Takers(s, d) != alive {
      var t :| t in alive && t !in Takers(s, d);
      assert s.txs[t].Finished() && s.txs[t].takes == [d];
      assert s.rows[d].Available() < 1;
    }
    SubsetCardinality(Takers(s, d), alive);
    RunKeepsInv(states, n);
  }

  function UpTo(n: nat): set<int> {
    if n == 0 then {} else UpTo(n - 1) + {n - 1}
  }

  lemma {:induction false} UpToHolds(n: nat)
    ensures |UpTo(n)| == n && forall t :: t in UpTo(n) <==> 0 <= t < n
  {
    if n > 0 {
      UpToHolds(n - 1);
    }
  }

  lemma SubsetCardinality(a: set<int>, b: set<int>)
    requires a <= b
    ensures |a| <= |b|
  {
    assert b == a + (b - a);
  }

  /** Steps a transaction still has to take. */
  function Remaining(tx: Tx): nat {
    match tx.phase
    case Locking(i) => if i <= |tx.Nights()| then |tx.Nights()| - i + 2 else 2
    case Claimed => 1
    case _ => 0
  }

  function TotalRemaining(txs: seq<Tx>): nat {
    if txs == [] then 0 else TotalRemaining(txs[..|txs| - 1]) + Remaining(txs[|txs| - 1])
  }

  lemma {:induction false} UpdateLowersTotal(txs: seq<Tx>, t: nat, tx: Tx)
    requires t < |txs| && Remaining(tx) < Remaining(txs[t])
    ensures TotalRemaining(txs[t := tx]) < TotalRemaining(txs)
  {
    var n := |txs| - 1;
    if t < n {
      UpdateLowersTotal(txs[..n], t, tx);
      assert txs[t := tx][..n] == txs[..n][t := tx];
    } else {
      assert txs[t := tx][..n] == txs[..n];
    }
  }

  /** Every step uses up part of a finite budget, so every schedule ends. */
  lemma EveryStepCounts(s: State, s': State)
    requires Step(s, s') && forall t :: 0 <= t < |s.txs| ==> PhaseFits(s, s.txs[t])
    ensures TotalRemaining(s'.txs) < TotalRemaining(s.txs)
  {
    var t: nat :| Progress(s, t, s') || Crash(s, t, s');
    MovedOn(s, t, s');
    UpdateLowersTotal(s.txs, t, s'.txs[t]);
  }

  lemma MovedOn(s: State, t: nat, s': State)
    requires Progress(s, t, s') || Crash(s, t, s')
    requires PhaseFits(s, s.txs[t])
    ensures |s'.txs| == |s.txs| && s'.txs == s.txs[t := s'.txs[t]] && Remaining(s'.txs[t]) < Remaining(s.txs[t])
  {
    assert s'.txs[t].Nights() == s.txs[t].Nights();
  }

  // ----- Agreement -----

  ghost function Holders(held: map<Id, set<Date>>, d: Date): set<Id> {
    set b | b in held && d in held[b]
  }

  function HeldNow(s: State, booking: Id): set<Date> {
    if booking in s.held then s.held[booking] else {}
  }

  /** Each row counts the bookings that hold its night, and no booking holds a night without a row. */
  ghost predicate Agreement(s: State) {
    && (forall d :: d in s.rows ==> s.rows[d].booked == |Holders(s.held, d)|)
    && forall b :: b in s.held ==> s.held[b] <= s.rows.Keys
  }

  function ReadSet(tx: Tx): set<Date> {
    set d | d in tx.gives
  }

  ghost function OtherHolders(held: map<Id, set<Date>>, booking: Id, d: Date): set<Id> {
    set b | b in held && b != booking && d in held[b]
  }

  lemma HoldersSplit(held: map<Id, set<Date>>, booking: Id, d: Date)
    ensures
      |Holders(held, d)| == |OtherHolders(held, booking, d)| + if booking in held && d in held[booking] then 1 else 0
  {
    if booking in held && d in held[booking] {
      assert Holders(held, d) == OtherHolders(held, booking, d) + {booking};
    } else {
      assert Holders(held, d) == OtherHolders(held, booking, d);
    }
  }

  lemma HoldersAfter(s: State, tx: Tx, d: Date)
    ensures
      |Holders(Rewritten(s.held, tx), d)|
        == |Holders(s.held, d)| + (if d in tx.takes then 1 else 0) - if d in HeldNow(s, tx.booking) then 1 else 0
  {
    HoldersSplit(s.held, tx.booking, d);
    HoldersSplit(Rewritten(s.held, tx), tx.booking, d);
    assert OtherHolders(Rewritten(s.held, tx), tx.booking, d) == OtherHolders(s.held, tx.booking, d);
  }

  lemma CommitCountsExactlyWhen(s: State, t: nat, s': State, d: Date)
    requires Commit(s, t, s') && d in s.rows && s.rows[d].booked == |Holders(s.held, d)|
    ensures s'.rows[d].booked == |Holders(s'.held, d)| <==> (d in HeldNow(s, s.txs[t].booking) <==> d in s.txs[t].gives)
  {
    HoldersAfter(s, s.txs[t], d);
  }

  lemma RewrittenIsSeeded(s: State, tx: Tx)
    requires (forall b :: b in s.held ==> s.held[b] <= s.rows.Keys) && forall d :: d in tx.Nights() ==> d in s.rows
    ensures forall b :: b in Rewritten(s.held, tx) ==> Rewritten(s.held, tx)[b] <= s.rows.Keys
  {
    var after := Rewritten(s.held, tx);
    forall b, d | b in after && d in after[b] ensures d in s.rows {
      if b == tx.booking {
        assert d in tx.takes && d in tx.Nights();
      } else {
        assert after[b] == s.held[b];
      }
    }
  }

  /** A commit keeps agreement if and only if the nights it read are still those of the booking. */
  lemma CommitKeepsAgreementExactlyWhen(s: State, t: nat, s': State)
    requires Agreement(s) && Commit(s, t, s') && forall d :: d in s.txs[t].Nights() ==> d in s.rows
    ensures Agreement(s') <==> HeldNow(s, s.txs[t].booking) == ReadSet(s.txs[t])
  {
    var tx := s.txs[t];
    assert HeldNow(s, tx.booking) <= s.rows.Keys;
    assert forall d :: d in ReadSet(tx) ==> d in tx.Nights();
    assert forall d :: d in tx.takes ==> d in tx.Nights();
    forall d | d in s.rows
      ensures s'.rows[d].booked == |Holders(s'.held, d)| <==> (d in HeldNow(s, tx.booking) <==> d in ReadSet(tx))
    {
      CommitCountsExactlyWhen(s, t, s', d);
    }
    assert s'.rows.Keys == s.rows.Keys;
    RewrittenIsSeeded(s, tx);
    if Agreement(s') {
      forall d ensures d in HeldNow(s, tx.booking) <==> d in ReadSet(tx) {
        if d in s.rows {
          assert s'.rows[d].booked == |Holders(s'.held, d)|;
        }
      }
    }
  }

  /** Transactions on different bookings, each of which read the booking's nights as they are at the start. */
  ghost predicate Separate(s: State) {
    && (forall t, u :: 0 <= t < u < |s.txs| ==> s.txs[t].booking != s.txs[u].booking)
    && forall t :: 0 <= t < |s.txs| && !s.txs[t].phase.Committed? ==> HeldNow(s, s.txs[t].booking) == ReadSet(s.txs[t])
  }

  lemma QuietStepKeepsSeparate(s: State, t: nat, phase: Phase)
    requires Separate(s) && t < |s.txs| && !s.txs[t].phase.Committed?
    ensures Separate(SetPhase(s, t, phase))
  {
  }

  lemma HeldElsewhere(s: State, tx: Tx, booking: Id)
    requires booking != tx.booking
    ensures HeldNow(s.(held := Rewritten(s.held, tx)), booking) == HeldNow(s, booking)
  {
  }

  lemma CommitKeepsSeparate(s: State, t: nat, s': State)
    requires Separate(s) && Commit(s, t, s')
    ensures Separate(s')
  {
    var mid := SetPhase(s, t, Committed);
    QuietStepKeepsSeparate(s, t, Committed);
    forall u | 0 <= u < |s'.txs| && !s'.txs[u].phase.Committed? ensures HeldNow(s', s'.txs[u].booking) == ReadSet(s'.txs[u]) {
      assert u != t && s'.txs[u] == s.txs[u] && s.txs[u].booking != s.txs[t].booking;
      HeldElsewhere(s, s.txs[t], s.txs[u].booking);
    }
  }

  /** A step other than a commit only changes a phase. */
  lemma QuietStep(s: State, t: nat, s': State)
    requires (Progress(s, t, s') || Crash(s, t, s')) && !Commit(s, t, s')
    ensures t < |s.txs| && t < |s'.txs| && !s.txs[t].phase.Committed? && s' == SetPhase(s, t, s'.txs[t].phase)
  {
  }

  lemma QuietStepKeepsAgreement(s: State, t: nat, phase: Phase)
    requires Agreement(s) && t < |s.txs|
    ensures Agreement(SetPhase(s, t, phase))
  {
  }

  lemma StepKeepsSeparate(start: State, s: State, s': State)
    requires Inv(start, s) && Separate(s) && Agreement(s) && Step(s, s')
    ensures Separate(s') && Agreement(s')
  {
    var t: nat :| Progress(s, t, s') || Crash(s, t, s');
    if Commit(s, t, s') {
      CommitKeepsAgreementExactlyWhen(s, t, s');
      CommitKeepsSeparate(s, t, s');
    } else {
      QuietStep(s, t, s');
      QuietStepKeepsSeparate(s, t, s'.txs[t].phase);
      QuietStepKeepsAgreement(s, t, s'.txs[t].phase);
    }
  }

  ghost predicate SeparateAndExact(s: State) {
    Separate(s) && Agreement(s)
  }

  lemma NextAgrees(states: seq<State>, n: nat)
    requires Run(states) && 0 < n < |states| && SeparateAndExact(states[n - 1])
    ensures SeparateAndExact(states[n])
  {
    RunKeepsInv(states, n - 1);
    assert StepAt(states, n - 1);
    StepKeepsSeparate(states[0], states[n - 1], states[n]);
  }

  lemma {:induction false} RunAgrees(states: seq<State>, n: nat)
    requires Run(states) && n < |states| && SeparateAndExact(states[0])
    ensures SeparateAndExact(states[n])
  {
    if n > 0 {
      RunAgrees(states, n - 1);
      NextAgrees(states, n);
    }
  }

  /** In every interleaving of transactions on different bookings the ledger agrees with the bookings in every state. */
  lemma DifferentBookingsAgree(states: seq<State>, n: nat)
    requires Run(states) && n < |states| && Separate(states[0]) && Agreement(states[0])
    ensures Separate(states[n]) && Agreement(states[n])
  {
    RunAgrees(states, n);
  }

  /** Cancelling booking 7 on night 3, which booking 8 holds too. */
  const CANCEL: Tx := Tx(7, [3], [], Locking(0))

  lemma CancelRuns(s: State, t: nat) returns (s1: State, s2: State, s3: State)
    requires t < |s.txs| && s.txs[t] == CANCEL && !s.LockedByOther(t, 3) && Releases(s.rows, [3])
    ensures Step(s, s1) && Step(s1, s2) && Step(s2, s3)
    ensures s3 == SetPhase(s, t, Committed).(rows := Moved(s.rows, CANCEL), held := s.held - {7})
  {
    assert CANCEL.Nights() == [3];
    s1 := SetPhase(s, t, Locking(1));
    s2 := SetPhase(s1, t, Claimed);
    s3 := SetPhase(s2, t, Committed).(rows := Moved(s2.rows, s2.txs[t]), held := Rewritten(s2.held, s2.txs[t]));
    assert Progress(s, t, s1) && Progress(s1, t, s2) && Progress(s2, t, s3);
    assert Moved(s2.rows, s2.txs[t]) == Moved(s.rows, CANCEL);
  }

  function TwoCancels(): State {
    State(map[3 := Row(2, 2, 0)], map[7 := {3}, 8 := {3}], [CANCEL, CANCEL])
  }

  function OneCancelled(): State {
    State(map[3 := Row(2, 1, 0)], map[8 := {3}], [CANCEL.(phase := Committed), CANCEL])
  }

  function BothCancelled(): State {
    State(map[3 := Row(2, 0, 0)], map[8 := {3}], [CANCEL.(phase := Committed), CANCEL.(phase := Committed)])
  }

  lemma TwoCancelsStart()
    ensures Init(TwoCancels()) && Agreement(TwoCancels()) && HeldNow(TwoCancels(), 7) == ReadSet(CANCEL)
  {
    assert Holders(TwoCancels().held, 3) == {7, 8};
    assert CANCEL.Nights() == [3];
  }

  lemma CancelReaches(from: State, s: State, t: nat, last: State, n: nat)
    requires Reaches(from, s, n) && t < |s.txs| && s.txs[t] == CANCEL && !s.LockedByOther(t, 3) && Releases(s.rows, [3])
    requires last == SetPhase(s, t, Committed).(rows := Moved(s.rows, CANCEL), held := s.held - {7})
    ensures Reaches(from, last, n + 3)
  {
    var s1, s2, s3 := CancelRuns(s, t);
    ThreeMore(from, s, s1, s2, s3, n);
  }

  lemma OneCancelReaches()
    ensures Reaches(TwoCancels(), OneCancelled(), 3)
  {
    ReachesItself(TwoCancels());
    CancelledRow(TwoCancels().rows, 2);
    assert TwoCancels().held - {7} == map[8 := {3}];
    CancelReaches(TwoCancels(), TwoCancels(), 0, OneCancelled(), 0);
  }

  lemma BothCancelsReach(n: nat)
    requires Reaches(TwoCancels(), OneCancelled(), n)
    ensures Reaches(TwoCancels(), BothCancelled(), n + 3)
  {
    CancelledRow(OneCancelled().rows, 1);
    assert OneCancelled().held - {7} == map[8 := {3}];
    CancelReaches(TwoCancels(), OneCancelled(), 1, BothCancelled(), n);
  }

  /**
   No row of the booking itself is locked, so a second transaction can commit against nights that another has already
   given back: two cancellations of booking 7, each of which read its one night, take it off twice, though booking 8
   still holds it.
   */
  lemma DoubleReleaseDrifts() returns (n: nat)
    ensures Init(TwoCancels()) && Agreement(TwoCancels()) && HeldNow(TwoCancels(), 7) == ReadSet(CANCEL)
    ensures Reaches(TwoCancels(), BothCancelled(), n) && Quiescent(BothCancelled()) && !Agreement(BothCancelled())
  {
    TwoCancelsStart();
    OneCancelReaches();
    n := 3;
    BothCancelsReach(n);
    n := n + 3;
    assert Holders(BothCancelled().held, 3) == {8};
  }

  lemma CancelledRow(rows: Rows, booked: int)
    requires rows == map[3 := Row(2, booked, 0)]
    ensures Moved(rows, CANCEL) == map[3 := Row(2, booked - 1, 0)]
  {
  }
}
