/** A transaction on its own, told from the rows it starts with: when it commits, and what it leaves. */
module LoneStay {
  import opened Base
  import opened StayConcurrency

  /** Each night given back counts a room and is not over-committed; each night taken has a room left, its own given back included. */
  ghost predicate Fitting(rows: Rows, tx: Tx) {
    && (forall d :: d in tx.gives ==> d in rows && rows[d].booked >= 1 && rows[d].booked + rows[d].blocked <= rows[d].total)
    && forall d :: d in tx.takes ==> d in rows && rows[d].booked + rows[d].blocked < rows[d].total + if d in tx.gives then 1 else 0
  }

  /** Nights given back count a room less, nights taken one more, and nothing else moves. */
  ghost predicate RowsMove(before: Rows, after: Rows, tx: Tx) {
    && after.Keys == before.Keys
    && forall d :: d in before ==>
         && after[d].total == before[d].total && after[d].blocked == before[d].blocked
         && after[d].booked == before[d].booked - (if d in tx.gives then 1 else 0) + (if d in tx.takes then 1 else 0)
  }

  /** The booking holds the nights taken, or nothing; other bookings hold what they held. */
  ghost predicate HeldMoves(before: map<Id, set<Date>>, after: map<Id, set<Date>>, tx: Tx) {
    && (forall x :: x in after <==> if x == tx.booking then tx.takes != [] else x in before)
    && (forall x :: x in before && x != tx.booking ==> after[x] == before[x])
    && (tx.takes != [] ==> forall d :: d in after[tx.booking] <==> d in tx.takes)
  }

  lemma AcceptedExactly(rows: Rows, tx: Tx)
    ensures Accepts(rows, tx) <==> Fitting(rows, tx)
  {
  }

  /** The transaction asks for what it asked for at the start; its phase tells whether that fits, and whether anything has moved. */
  ghost predicate Told(start: State, s: State)
    requires |start.txs| == 1
  {
    && |s.txs| == 1 && s.txs[0] == start.txs[0].(phase := s.txs[0].phase)
    && (var phase := s.txs[0].phase;
        && (phase == Claimed || phase == Committed ==> Fitting(start.rows, start.txs[0]))
        && (phase == Refused ==> !Fitting(start.rows, start.txs[0]))
        && if phase == Committed then RowsMove(start.rows, s.rows, start.txs[0]) && HeldMoves(start.held, s.held, start.txs[0])
           else s.rows == start.rows && s.held == start.held)
  }

  lemma CommitTells(start: State, s: State, s': State)
    requires |start.txs| == 1 && Told(start, s) && Commit(s, 0, s')
    ensures Told(start, s')
  {
  }

  lemma StepTells(start: State, s: State, s': State)
    requires |start.txs| == 1 && Told(start, s) && Step(s, s')
    ensures Told(start, s')
  {
    var t: nat :| Progress(s, t, s') || Crash(s, t, s');
    AcceptedExactly(s.rows, s.txs[0]);
    if Commit(s, t, s') {
      CommitTells(start, s, s');
    }
  }

  /**
   From its start a lone transaction asks for the same nights throughout; it commits only if they fit and is refused only
   if they do not, and moves its rows and its booking when it commits and at no other time.
   */
  lemma {:induction false} CommitsExactlyWhenFitting(states: seq<State>, n: nat)
    requires Run(states) && n < |states| && |states[0].txs| == 1
    ensures Told(states[0], states[n])
  {
    if n > 0 {
      CommitsExactlyWhenFitting(states, n - 1);
      assert StepAt(states, n - 1);
      StepTells(states[0], states[n - 1], states[n]);
    }
  }
}
