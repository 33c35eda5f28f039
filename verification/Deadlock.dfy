/** When transactions on the nights of one category can wait for each other for ever. */
module Deadlock {
  import opened Base
  import opened StayConcurrency
  import opened StayDates

  /** Unfinished, and nobody can move unless somebody crashes. */
  ghost predicate Stuck(s: State) {
    !Quiescent(s) && forall t: nat, s' :: !Progress(s, t, s')
  }

  // ----- Any number of transactions -----

  /** Every night is already locked or comes after all that are. */
  predicate Climbing(nights: seq<Date>) {
    forall j :: 0 <= j < |nights| ==> nights[j] in nights[..j] || forall i :: 0 <= i < j ==> nights[i] < nights[j]
  }

  predicate Waiting(tx: Tx) {
    tx.phase.Locking? && tx.phase.next < |tx.Nights()|
  }

  function Wanted(tx: Tx): Date
    requires Waiting(tx)
  {
    tx.Nights()[tx.phase.next]
  }

  /** Among the first n transactions, one that waits for the latest night. */
  lemma {:induction false} LatestWaiter(txs: seq<Tx>, n: nat) returns (t: nat)
    requires n <= |txs| && exists u :: 0 <= u < n && Waiting(txs[u])
    ensures t < n && Waiting(txs[t]) && forall u :: 0 <= u < n && Waiting(txs[u]) ==> Wanted(txs[u]) <= Wanted(txs[t])
  {
    if exists u :: 0 <= u < n - 1 && Waiting(txs[u]) {
      t := LatestWaiter(txs, n - 1);
      if Waiting(txs[n - 1]) && Wanted(txs[n - 1]) > Wanted(txs[t]) {
        t := n - 1;
      }
    } else {
      t := n - 1;
    }
  }

  /** A transaction whose next night nobody else holds can move: it locks it, or stops at the check of its old nights. */
  lemma CanLock(s: State, t: nat)
    requires t < |s.txs| && Waiting(s.txs[t]) && !s.LockedByOther(t, Wanted(s.txs[t])) && PhaseFits(s, s.txs[t])
    ensures exists s' :: Progress(s, t, s')
  {
    var i := s.txs[t].phase.next;
    if i >= |s.txs[t].gives| && !Releases(s.rows, s.txs[t].gives) {
      assert Stop(s, t, SetPhase(s, t, Refused));
      assert Progress(s, t, SetPhase(s, t, Refused));
    } else {
      assert Lock(s, t, SetPhase(s, t, Locking(i + 1)));
      assert Progress(s, t, SetPhase(s, t, Locking(i + 1)));
    }
  }

  lemma CanFinish(s: State, t: nat)
    requires t < |s.txs| && !s.txs[t].Finished() && !Waiting(s.txs[t]) && PhaseFits(s, s.txs[t])
    ensures exists s' :: Progress(s, t, s')
  {
    if s.txs[t].phase.Claimed? {
      var s' := SetPhase(s, t, Committed).(rows := Moved(s.rows, s.txs[t]), held := Rewritten(s.held, s.txs[t]));
      assert Commit(s, t, s');
      assert Progress(s, t, s');
    } else {
      var s' := SetPhase(s, t, if Accepts(s.rows, s.txs[t]) then Claimed else Refused);
      assert Claim(s, t, s');
      assert Progress(s, t, s');
    }
  }

  /** Of a climbing transaction that holds d: it can move, or waits for a later night. */
  lemma HolderMovesOrWaitsLater(s: State, h: nat, d: Date)
    requires h < |s.txs| && s.txs[h].Holds(d) && Climbing(s.txs[h].Nights()) && PhaseFits(s, s.txs[h]) && LocksExclusive(s)
    ensures (exists s' :: Progress(s, h, s')) || (Waiting(s.txs[h]) && Wanted(s.txs[h]) > d)
  {
    var tx := s.txs[h];
    if !Waiting(tx) {
      CanFinish(s, h);
    } else if Wanted(tx) in tx.Nights()[..tx.phase.next] {
      forall u | 0 <= u < |s.txs| && u != h ensures !s.txs[u].Holds(Wanted(tx)) {
        assert tx.Holds(Wanted(tx));
        assert u < h || h < u;
      }
      CanLock(s, h);
    }
  }

  /** If every lock sequence climbs, some unfinished transaction can always move. */
  lemma NoDeadlock(states: seq<State>, n: nat)
    requires Run(states) && n < |states|
    requires forall t :: 0 <= t < |states[0].txs| ==> Climbing(states[0].txs[t].Nights())
    ensures !Stuck(states[n])
  {
    var s := states[n];
    RunKeepsInv(states, n);
    forall t | 0 <= t < |s.txs| ensures Climbing(s.txs[t].Nights()) {
      assert s.txs[t].Nights() == states[0].txs[t].Nights();
    }
    if !Quiescent(s) {
      var u :| 0 <= u < |s.txs| && !s.txs[u].Finished();
      SomebodyMoves(s, u);
    }
  }

  lemma SomebodyMoves(s: State, u: nat)
    requires LocksExclusive(s) && forall t :: 0 <= t < |s.txs| ==> PhaseFits(s, s.txs[t]) && Climbing(s.txs[t].Nights())
    requires u < |s.txs| && !s.txs[u].Finished()
    ensures exists t: nat, s' :: Progress(s, t, s')
  {
    if exists w :: 0 <= w < |s.txs| && Waiting(s.txs[w]) {
      var t := LatestWaiter(s.txs, |s.txs|);
      var d := Wanted(s.txs[t]);
      if s.LockedByOther(t, d) {
        var h :| 0 <= h < |s.txs| && h != t && s.txs[h].Holds(d);
        HolderMovesOrWaitsLater(s, h, d);
      } else {
        CanLock(s, t);
      }
    } else {
      CanFinish(s, u);
    }
  }

  /** New bookings, cancellations, and date changes that do not move check-in to an earlier night all climb. */
  lemma LaterStaysClimb(oldIn: Date, oldOut: Date, newIn: Date, newOut: Date)
    requires oldIn <= newIn && oldIn <= oldOut && newIn <= newOut
    ensures Climbing(Nights(oldIn, oldOut) + Nights(newIn, newOut))
  {
    var nights, n := Nights(oldIn, oldOut) + Nights(newIn, newOut), oldOut - oldIn;
    forall j | 0 <= j < |nights| ensures nights[j] in nights[..j] || forall i :: 0 <= i < j ==> nights[i] < nights[j] {
      if j >= n && nights[j] < oldOut {
        assert nights[..j][nights[j] - oldIn] == nights[j];
      }
    }
  }

  // ----- Two transactions, exactly -----

  /** The nights a transaction gets to lock: the old ones alone when they fail their check. */
  function Locks(rows: Rows, tx: Tx): seq<Date> {
    if Releases(rows, tx.gives) then tx.Nights() else tx.gives
  }

  /** The first of a transaction's nights that the other locks too. */
  function FirstShared(a: seq<Date>, b: seq<Date>): Option<Date> {
    if a == [] then None else
    var before := FirstShared(a[..|a| - 1], b);
    if before.Some? then before else if a[|a| - 1] in b then Some(a[|a| - 1]) else None
  }

  lemma {:induction false} FirstSharedShape(a: seq<Date>, b: seq<Date>)
    ensures
      match FirstShared(a, b)
      case Some(x) => exists p :: 0 <= p < |a| && a[p] == x && x in b && forall i :: 0 <= i < p ==> a[i] !in b
      case None => forall i :: 0 <= i < |a| ==> a[i] !in b
  {
    if a != [] {
      var n := |a| - 1;
      FirstSharedShape(a[..n], b);
      if FirstShared(a[..n], b).Some? {
        var p :| 0 <= p < n && a[..n][p] == FirstShared(a, b).value && a[..n][p] in b && forall i :: 0 <= i < p ==> a[..n][i] !in b;
        assert forall i :: 0 <= i < p ==> a[i] == a[..n][i];
        assert a[p] == FirstShared(a, b).value;
      } else {
        assert forall i :: 0 <= i < n ==> a[i] == a[..n][i];
      }
    }
  }

  /** The first i locks of one and the first j of the other have nothing in common, and each waits for one of the other's. */
  predicate CrossedAt(a: seq<Date>, b: seq<Date>, i: nat, j: nat) {
    && i < |a| && j < |b| && a[i] in b[..j] && b[j] in a[..i]
    && forall d :: d in a[..i] ==> d !in b[..j]
  }

  lemma CrossedDiffer(a: seq<Date>, b: seq<Date>, i: nat, j: nat)
    requires CrossedAt(a, b, i, j)
    ensures FirstShared(a, b).Some? && FirstShared(b, a).Some? && FirstShared(a, b) != FirstShared(b, a)
  {
    FirstIsEarly(a, b, i, b[j]);
    FirstIsEarly(b, a, j, a[i]);
    var x := FirstShared(a, b).value;
    assert x in a[..i];
    assert x !in b[..j];
  }

  /** The first shared night is among the first i locks if any of these is shared. */
  lemma FirstIsEarly(a: seq<Date>, b: seq<Date>, i: nat, d: Date)
    requires i <= |a| && d in a[..i] && d in b
    ensures FirstShared(a, b).Some? && FirstShared(a, b).value in a[..i]
  {
    FirstSharedShape(a, b);
    var k :| 0 <= k < i && a[..i][k] == d;
    assert a[k] in b;
    if FirstShared(a, b).Some? {
      var p :| 0 <= p < |a| && a[p] == FirstShared(a, b).value && a[p] in b && forall m :: 0 <= m < p ==> a[m] !in b;
      assert p <= k;
      assert a[..i][p] == a[p];
    }
  }

  lemma {:induction false} FirstHit(xs: seq<Date>, hits: set<Date>, n: nat) returns (j: nat)
    requires n <= |xs| && exists k :: 0 <= k < n && xs[k] in hits
    ensures j < n && xs[j] in hits && forall k :: 0 <= k < j ==> xs[k] !in hits
  {
    if exists k :: 0 <= k < n - 1 && xs[k] in hits {
      j := FirstHit(xs, hits, n - 1);
    } else {
      j := n - 1;
    }
  }

  /** When each first shared night is another, one locks up to the other's, and the other up to what the one holds. */
  lemma DifferCross(a: seq<Date>, b: seq<Date>) returns (i: nat, j: nat)
    requires FirstShared(a, b) != FirstShared(b, a)
    ensures CrossedAt(a, b, i, j)
  {
    FirstSharedShape(a, b);
    FirstSharedShape(b, a);
    SharedBothWays(a, b);
    SharedBothWays(b, a);
    var x, y := FirstShared(a, b).value, FirstShared(b, a).value;
    var p :| 0 <= p < |a| && a[p] == x && x in b && forall m :: 0 <= m < p ==> a[m] !in b;
    var q :| 0 <= q < |b| && b[q] == y && y in a && forall m :: 0 <= m < q ==> b[m] !in a;
    i := FirstHit(a, {y}, |a|);
    assert i > p;
    var hits := set d | d in a[..i];
    assert a[..i][p] == x && x in hits;
    j := FirstHit(b, hits, |b|);
    assert j > q by {
      forall m | 0 <= m <= q ensures b[m] !in hits {
        if m == q {
          assert forall k :: 0 <= k < i ==> a[k] != y;
        } else {
          assert b[m] !in a;
        }
      }
    }
    assert b[..j][q] == y;
    forall d | d in a[..i] ensures d !in b[..j] {
      assert d in hits;
    }
  }

  lemma SharedBothWays(a: seq<Date>, b: seq<Date>)
    ensures FirstShared(a, b).Some? ==> FirstShared(b, a).Some?
  {
    FirstSharedShape(a, b);
    FirstSharedShape(b, a);
    if FirstShared(a, b).Some? {
      var k :| 0 <= k < |b| && b[k] == FirstShared(a, b).value;
    }
  }

  // ----- Reaching the crossing -----

  /** Two transactions about to start. */
  predicate Pair(s: State) {
    && |s.txs| == 2 && s.txs[0].phase == Locking(0) && s.txs[1].phase == Locking(0)
    && forall t, d :: 0 <= t < 2 && d in s.txs[t].Nights() ==> d in s.rows
  }

  /** The pair with the first i and the first j nights locked. */
  function At(s: State, i: nat, j: nat): State
    requires |s.txs| == 2
  {
    SetPhase(SetPhase(s, 0, Locking(i)), 1, Locking(j))
  }

  lemma {:induction false} FirstLocks(s: State, i: nat)
    requires Pair(s) && i <= |Locks(s.rows, s.txs[0])|
    ensures Reaches(s, At(s, i, 0), i)
  {
    if i == 0 {
      NothingLocked(s);
    } else {
      FirstLocks(s, i - 1);
      LockOfFirst(s, i - 1, i - 1);
    }
  }

  lemma NothingLocked(s: State)
    requires Pair(s)
    ensures Reaches(s, At(s, 0, 0), 0)
  {
    assert At(s, 0, 0).txs == s.txs;
    ReachesItself(s);
  }

  lemma LockOfFirst(s: State, i: nat, n: nat)
    requires Pair(s) && i < |Locks(s.rows, s.txs[0])| && Reaches(s, At(s, i, 0), n)
    ensures Reaches(s, At(s, i + 1, 0), n + 1)
  {
    FirstCanLock(s, i);
    OneMore(s, At(s, i, 0), At(s, i + 1, 0), n);
  }

  lemma FirstCanLock(s: State, i: nat)
    requires Pair(s) && i < |Locks(s.rows, s.txs[0])|
    ensures Step(At(s, i, 0), At(s, i + 1, 0))
  {
    var mid := At(s, i, 0);
    assert mid.txs[0].Nights() == s.txs[0].Nights();
    assert !mid.LockedByOther(0, mid.txs[0].Nights()[i]);
    assert At(s, i + 1, 0) == SetPhase(mid, 0, Locking(i + 1));
    assert Lock(mid, 0, At(s, i + 1, 0));
    assert Progress(mid, 0, At(s, i + 1, 0));
  }

  lemma SecondCanLock(s: State, i: nat, j: nat)
    requires Pair(s) && i <= |s.txs[0].Nights()| && j < |Locks(s.rows, s.txs[1])|
    requires s.txs[1].Nights()[j] !in s.txs[0].Nights()[..i]
    ensures Step(At(s, i, j), At(s, i, j + 1))
  {
    var mid := At(s, i, j);
    assert mid.txs[0].Nights() == s.txs[0].Nights() && mid.txs[1].Nights() == s.txs[1].Nights();
    assert !mid.LockedByOther(1, mid.txs[1].Nights()[j]);
    assert At(s, i, j + 1) == SetPhase(mid, 1, Locking(j + 1));
    assert Lock(mid, 1, At(s, i, j + 1));
    assert Progress(mid, 1, At(s, i, j + 1));
  }

  lemma LockOfSecond(s: State, i: nat, j: nat, n: nat)
    requires Pair(s) && i <= |s.txs[0].Nights()| && j < |Locks(s.rows, s.txs[1])| && Reaches(s, At(s, i, j), n)
    requires s.txs[1].Nights()[j] !in s.txs[0].Nights()[..i]
    ensures Reaches(s, At(s, i, j + 1), n + 1)
  {
    SecondCanLock(s, i, j);
    OneMore(s, At(s, i, j), At(s, i, j + 1), n);
  }

  lemma {:induction false} ThenSecondLocks(s: State, i: nat, j: nat)
    requires Pair(s) && i <= |Locks(s.rows, s.txs[0])| && j <= |Locks(s.rows, s.txs[1])|
    requires forall k :: 0 <= k < j ==> s.txs[1].Nights()[k] !in s.txs[0].Nights()[..i]
    ensures Reaches(s, At(s, i, j), i + j)
    decreases j
  {
    if j == 0 {
      FirstLocks(s, i);
    } else {
      ThenSecondLocks(s, i, j - 1);
      LockOfSecond(s, i, j - 1, i + j - 1);
    }
  }

  lemma LocksArePrefix(rows: Rows, tx: Tx, i: nat)
    requires i <= |Locks(rows, tx)|
    ensures i <= |tx.Nights()| && Locks(rows, tx)[..i] == tx.Nights()[..i]
    ensures i < |Locks(rows, tx)| ==> Locks(rows, tx)[i] == tx.Nights()[i] && (i >= |tx.gives| ==> Releases(rows, tx.gives))
  {
  }

  /** A transaction short of its last lock, whose next night the other holds, cannot move. */
  lemma BlockedCannotMove(s: State, t: nat, s': State)
    requires t < |s.txs| && s.txs[t].phase.Locking? && s.txs[t].phase.next < |Locks(s.rows, s.txs[t])|
    requires s.LockedByOther(t, Locks(s.rows, s.txs[t])[s.txs[t].phase.next])
    ensures !Progress(s, t, s')
  {
    LocksArePrefix(s.rows, s.txs[t], s.txs[t].phase.next);
  }

  lemma CrossingIsStuck(s: State, i: nat, j: nat)
    requires Pair(s) && CrossedAt(Locks(s.rows, s.txs[0]), Locks(s.rows, s.txs[1]), i, j)
    ensures Stuck(At(s, i, j))
  {
    var r := At(s, i, j);
    LocksArePrefix(s.rows, s.txs[0], i);
    LocksArePrefix(s.rows, s.txs[1], j);
    SameLocks(s, i, j);
    assert r.txs[1].Holds(Locks(r.rows, r.txs[0])[i]);
    assert r.txs[0].Holds(Locks(r.rows, r.txs[1])[j]);
    forall t: nat, s' ensures !Progress(r, t, s') {
      if t < 2 {
        assert r.LockedByOther(t, Locks(r.rows, r.txs[t])[r.txs[t].phase.next]);
        BlockedCannotMove(r, t, s');
      }
    }
    assert !r.txs[0].Finished();
  }

  lemma SameLocks(s: State, i: nat, j: nat)
    requires |s.txs| == 2
    ensures At(s, i, j).rows == s.rows && |At(s, i, j).txs| == 2
    ensures At(s, i, j).txs[0] == s.txs[0].(phase := Locking(i)) && At(s, i, j).txs[1] == s.txs[1].(phase := Locking(j))
    ensures At(s, i, j).txs[0].Nights() == s.txs[0].Nights() && At(s, i, j).txs[1].Nights() == s.txs[1].Nights()
  {
  }

  lemma CrossedIsReachable(s: State, i: nat, j: nat)
    requires Pair(s) && CrossedAt(Locks(s.rows, s.txs[0]), Locks(s.rows, s.txs[1]), i, j)
    ensures Reaches(s, At(s, i, j), i + j) && Stuck(At(s, i, j))
  {
    LocksArePrefix(s.rows, s.txs[0], i);
    LocksArePrefix(s.rows, s.txs[1], j);
    forall k | 0 <= k < j ensures s.txs[1].Nights()[k] !in s.txs[0].Nights()[..i] {
      assert s.txs[1].Nights()[..j][k] == s.txs[1].Nights()[k];
    }
    ThenSecondLocks(s, i, j);
    CrossingIsStuck(s, i, j);
  }

  // ----- Only a crossing is stuck -----

  lemma {:induction false} ReachesKeepsInv(start: State, s: State, n: nat)
    requires Inv(start, start) && Reaches(start, s, n)
    ensures Inv(start, s)
    decreases n
  {
    if n > 0 {
      var mid := LastStep(start, s, n);
      ReachesKeepsInv(start, mid, n - 1);
      StepKeepsInv(start, mid, s);
    }
  }

  ghost predicate NoneCommitted(s: State) {
    forall t :: 0 <= t < |s.txs| ==> !s.txs[t].phase.Committed?
  }

  lemma CommitLeavesCommitted(s: State, t: nat, s': State)
    requires Commit(s, t, s')
    ensures !NoneCommitted(s')
  {
    assert s'.txs[t].phase.Committed?;
  }

  /** A step that leaves nobody committed moves no row. */
  lemma StepMovesRowsByCommit(s: State, s': State)
    requires Step(s, s') && NoneCommitted(s')
    ensures NoneCommitted(s) && s'.rows == s.rows
  {
    var t: nat :| Progress(s, t, s') || Crash(s, t, s');
    if Commit(s, t, s') {
      CommitLeavesCommitted(s, t, s');
    } else {
      assert s' == SetPhase(s, t, s'.txs[t].phase);
      forall u | 0 <= u < |s.txs| ensures !s.txs[u].phase.Committed? {
        assert u != t ==> s'.txs[u] == s.txs[u];
      }
    }
  }

  lemma {:induction false} RowsMoveByCommits(start: State, s: State, n: nat)
    requires Reaches(start, s, n) && NoneCommitted(s)
    ensures s.rows == start.rows
    decreases n
  {
    if n > 0 {
      var mid := LastStep(start, s, n);
      StepMovesRowsByCommit(mid, s);
      RowsMoveByCommits(start, mid, n - 1);
    }
  }

  /** In a stuck state an unfinished transaction waits for a night that another one holds. */
  lemma StuckWaits(s: State, t: nat)
    requires Stuck(s) && t < |s.txs| && !s.txs[t].Finished() && PhaseFits(s, s.txs[t])
    ensures Waiting(s.txs[t]) && s.LockedByOther(t, Wanted(s.txs[t]))
    ensures s.txs[t].phase.next < |Locks(s.rows, s.txs[t])| && Locks(s.rows, s.txs[t])[s.txs[t].phase.next] == Wanted(s.txs[t])
  {
    if !Waiting(s.txs[t]) {
      CanFinish(s, t);
    } else if !s.LockedByOther(t, Wanted(s.txs[t])) {
      CanLock(s, t);
    } else if s.txs[t].phase.next == |s.txs[t].gives| && !Releases(s.rows, s.txs[t].gives) {
      assert Progress(s, t, SetPhase(s, t, Refused));
    }
  }

  /** Of a pair that is stuck, both wait, each for the other. */
  lemma BothWait(s: State)
    requires Stuck(s) && |s.txs| == 2 && PhaseFits(s, s.txs[0]) && PhaseFits(s, s.txs[1])
    ensures !s.txs[0].Finished() && !s.txs[1].Finished()
  {
    var t: nat :| t < 2 && !s.txs[t].Finished();
    StuckWaits(s, t);
    assert s.txs[1 - t].Holds(Wanted(s.txs[t]));
  }

  lemma WaitsForOther(s: State, t: nat)
    requires Stuck(s) && |s.txs| == 2 && t < 2 && !s.txs[t].Finished() && PhaseFits(s, s.txs[t])
    ensures Waiting(s.txs[t]) && s.txs[1 - t].Holds(Wanted(s.txs[t]))
    ensures s.txs[t].phase.next < |Locks(s.rows, s.txs[t])| && Locks(s.rows, s.txs[t])[s.txs[t].phase.next] == Wanted(s.txs[t])
  {
    StuckWaits(s, t);
    var u :| 0 <= u < 2 && u != t && s.txs[u].Holds(Wanted(s.txs[t]));
    assert u == 1 - t;
  }

  lemma HeldAreDisjoint(s: State)
    requires |s.txs| == 2 && LocksExclusive(s) && Waiting(s.txs[0]) && Waiting(s.txs[1])
    ensures forall d :: d in s.txs[0].Nights()[..s.txs[0].phase.next] ==> d !in s.txs[1].Nights()[..s.txs[1].phase.next]
  {
    forall d | d in s.txs[0].Nights()[..s.txs[0].phase.next] ensures d !in s.txs[1].Nights()[..s.txs[1].phase.next] {
      assert s.txs[0].Holds(d);
      assert !(s.txs[0].Holds(d) && s.txs[1].Holds(d));
    }
  }

  lemma StuckIsCrossed(s: State)
    requires Stuck(s) && |s.txs| == 2 && LocksExclusive(s) && PhaseFits(s, s.txs[0]) && PhaseFits(s, s.txs[1])
    ensures Waiting(s.txs[0]) && Waiting(s.txs[1])
    ensures CrossedAt(Locks(s.rows, s.txs[0]), Locks(s.rows, s.txs[1]), s.txs[0].phase.next, s.txs[1].phase.next)
  {
    BothWait(s);
    WaitsForOther(s, 0);
    WaitsForOther(s, 1);
    HeldAreDisjoint(s);
    LocksArePrefix(s.rows, s.txs[0], s.txs[0].phase.next);
    LocksArePrefix(s.rows, s.txs[1], s.txs[1].phase.next);
  }

  /** Some interleaving ends with both waiting for ever. */
  ghost predicate CanGetStuck(s: State) {
    exists r, n: nat :: GetsStuck(s, r, n)
  }

  ghost predicate GetsStuck(s: State, r: State, n: nat) {
    Reaches(s, r, n) && Stuck(r)
  }

  lemma DifferGetsStuck(s: State)
    requires Pair(s)
    requires
      var a, b := Locks(s.rows, s.txs[0]), Locks(s.rows, s.txs[1]);
      FirstShared(a, b) != FirstShared(b, a)
    ensures CanGetStuck(s)
  {
    var i, j := DifferCross(Locks(s.rows, s.txs[0]), Locks(s.rows, s.txs[1]));
    CrossedIsReachable(s, i, j);
    assert GetsStuck(s, At(s, i, j), i + j);
  }

  /**
   Two transactions can get stuck if and only if the first night that one locks of those both lock is not the first
   night that the other locks of them.
   */
  lemma DeadlockExactlyWhen(s: State)
    requires Init(s) && Pair(s)
    ensures
      var a, b := Locks(s.rows, s.txs[0]), Locks(s.rows, s.txs[1]);
      CanGetStuck(s) <==> FirstShared(a, b) != FirstShared(b, a)
  {
    var a, b := Locks(s.rows, s.txs[0]), Locks(s.rows, s.txs[1]);
    if FirstShared(a, b) != FirstShared(b, a) {
      DifferGetsStuck(s);
    }
    if CanGetStuck(s) {
      var r, n: nat :| GetsStuck(s, r, n);
      StuckMeansCrossed(s, r, n);
    }
  }

  lemma StuckMeansCrossed(s: State, r: State, n: nat)
    requires Init(s) && Pair(s) && Reaches(s, r, n) && Stuck(r)
    ensures
      var a, b := Locks(s.rows, s.txs[0]), Locks(s.rows, s.txs[1]);
      FirstShared(a, b) != FirstShared(b, a)
  {
    ReachedShape(s, r, n);
    StuckIsCrossed(r);
    WaitingIsUncommitted(r);
    RowsMoveByCommits(s, r, n);
    SameRequestLocks(s, r);
    CrossedDiffer(Locks(s.rows, s.txs[0]), Locks(s.rows, s.txs[1]), r.txs[0].phase.next, r.txs[1].phase.next);
  }

  lemma ReachedShape(s: State, r: State, n: nat)
    requires Init(s) && |s.txs| == 2 && Reaches(s, r, n)
    ensures SameRequests(s, r) && LocksExclusive(r) && |r.txs| == 2 && PhaseFits(r, r.txs[0]) && PhaseFits(r, r.txs[1])
  {
    InitIsInv(s);
    ReachesKeepsInv(s, r, n);
  }

  lemma WaitingIsUncommitted(s: State)
    requires |s.txs| == 2 && Waiting(s.txs[0]) && Waiting(s.txs[1])
    ensures NoneCommitted(s)
  {
  }

  lemma SameRequestLocks(s: State, r: State)
    requires SameRequests(s, r) && r.rows == s.rows && |s.txs| == 2
    ensures Locks(r.rows, r.txs[0]) == Locks(s.rows, s.txs[0]) && Locks(r.rows, r.txs[1]) == Locks(s.rows, s.txs[1])
  {
    assert r.txs[0].Nights() == s.txs[0].Nights() && r.txs[1].Nights() == s.txs[1].Nights();
  }

  // ----- Two date changes -----

  /** A stay moved to other dates. */
  datatype Change = Change(oldIn: Date, oldOut: Date, newIn: Date, newOut: Date) {
    predicate Valid() { oldIn < oldOut && newIn < newOut }

    predicate Touches(d: Date) { oldIn <= d < oldOut || newIn <= d < newOut }
  }

  /** The first night of [first, past) that another change touches. */
  function FirstIn(first: Date, past: Date, other: Change): Option<Date>
    decreases past - first
  {
    if first >= past then None else if other.Touches(first) then Some(first) else FirstIn(first + 1, past, other)
  }

  /** The first night of the old stay that the other change touches, or else the first such night of the new stay. */
  function FirstTouched(c: Change, other: Change): Option<Date> {
    var inOld := FirstIn(c.oldIn, c.oldOut, other);
    if inOld.Some? then inOld else FirstIn(c.newIn, c.newOut, other)
  }

  function NightsOfChange(c: Change): seq<Date>
    requires c.Valid()
  {
    Nights(c.oldIn, c.oldOut) + Nights(c.newIn, c.newOut)
  }

  lemma TouchesItsNights(c: Change, d: Date)
    requires c.Valid()
    ensures d in NightsOfChange(c) <==> c.Touches(d)
  {
    var nights := NightsOfChange(c);
    if c.oldIn <= d < c.oldOut {
      assert nights[d - c.oldIn] == d;
    } else if c.newIn <= d < c.newOut {
      assert nights[c.oldOut - c.oldIn + (d - c.newIn)] == d;
    }
  }

  lemma {:induction false} FirstSharedConcat(a: seq<Date>, more: seq<Date>, b: seq<Date>)
    ensures FirstShared(a + more, b) == if FirstShared(a, b).Some? then FirstShared(a, b) else FirstShared(more, b)
  {
    if more == [] {
      assert a + more == a;
    } else {
      FirstSharedConcat(a, more[..|more| - 1], b);
      assert (a + more)[..|a + more| - 1] == a + more[..|more| - 1];
    }
  }

  lemma {:induction false} FirstOfNights(first: Date, past: Date, other: Change)
    requires first <= past && other.Valid()
    ensures FirstShared(Nights(first, past), NightsOfChange(other)) == FirstIn(first, past, other)
    decreases past - first
  {
    if first < past {
      assert Nights(first, past) == [first] + Nights(first + 1, past);
      FirstSharedConcat([first], Nights(first + 1, past), NightsOfChange(other));
      FirstOfNights(first + 1, past, other);
      TouchesItsNights(other, first);
      assert [first][..0] == [];
    }
  }

  lemma FirstOfChange(c: Change, other: Change)
    requires c.Valid() && other.Valid()
    ensures FirstShared(NightsOfChange(c), NightsOfChange(other)) == FirstTouched(c, other)
  {
    FirstSharedConcat(Nights(c.oldIn, c.oldOut), Nights(c.newIn, c.newOut), NightsOfChange(other));
    FirstOfNights(c.oldIn, c.oldOut, other);
    FirstOfNights(c.newIn, c.newOut, other);
  }

  function ChangeOf(booking: Id, c: Change): Tx
    requires c.Valid()
  {
    Tx(booking, Nights(c.oldIn, c.oldOut), Nights(c.newIn, c.newOut), Locking(0))
  }

  /**
   Two date changes in one category, whose old nights can be given back, can deadlock if and only if the first night
   each touches of the other is not the same; a caller can tell from the dates.
   */
  lemma DateChangesDeadlockExactlyWhen(s: State, x: Id, y: Id, c: Change, e: Change)
    requires Init(s) && c.Valid() && e.Valid() && s.txs == [ChangeOf(x, c), ChangeOf(y, e)]
    requires Releases(s.rows, s.txs[0].gives) && Releases(s.rows, s.txs[1].gives)
    ensures CanGetStuck(s) <==> FirstTouched(c, e) != FirstTouched(e, c)
  {
    assert s.txs[0].Nights() == NightsOfChange(c) && s.txs[1].Nights() == NightsOfChange(e);
    DeadlockExactlyWhen(s);
    FirstOfChange(c, e);
    FirstOfChange(e, c);
  }

  /** Two stays that swap nights 3 and 5 do. */
  lemma DateChangesCanDeadlock(s: State)
    requires Init(s) && s.txs == [ChangeOf(1, Change(3, 4, 5, 6)), ChangeOf(2, Change(5, 6, 3, 4))]
    requires Releases(s.rows, [3]) && Releases(s.rows, [5])
    ensures CanGetStuck(s)
  {
    var c, e := Change(3, 4, 5, 6), Change(5, 6, 3, 4);
    assert Nights(3, 4) == [3] && Nights(5, 6) == [5];
    DateChangesDeadlockExactlyWhen(s, 1, 2, c, e);
  }
}
