/** What one turn of the webhook worker and one dispatch leave, told row by row. */
module QueueOutcomes {
  import opened Base
  import opened WebhookQueue
  import opened WebhookProtocol

  /** One log row more for the delivery, numbered after its attempts so far; subscriptions stay as they are. */
  predicate LogsOneMore(s: State, after: State, id: Id, result: Result)
    requires id in s.rows
  {
    var row := s.rows[id];
    && after.logs == s.logs + [Log(id, row.sub, row.event, row.attempts + 1, result)]
    && after.subs == s.subs && after.enqueued == s.enqueued
  }

  /** A row of the queue is taken only when it is pending and its time has come. */
  predicate IsReady(s: State, id: Id, now: Instant) {
    id in s.rows && s.rows[id].status != DeadLetter && now >= s.rows[id].nextRetryAt
  }

  /** The subscription exists, is switched on and lists the event. */
  predicate StillWanted(s: State, row: WebhookQueue.Row) {
    row.sub in s.subs && s.subs[row.sub].active && row.event in s.subs[row.sub].events
  }

  /**
   A turn on a row that is ready logs one attempt. A delivery nobody wants any more, or that succeeds, leaves the queue; one
   that fails waits 10 seconds after its first attempt and 60 after its second, and stays for good after its third.
   */
  lemma WorkOutcome(s: State, id: Id, turn: Turn)
    ensures
      var after := Step(s, Work(id, turn));
      if !IsReady(s, id, turn.now) then after == s
      else
        var row := s.rows[id];
        if !StillWanted(s, row) then LogsOneMore(s, after, id, Dropped) && after.rows == s.rows - {id}
        else
          && LogsOneMore(s, after, id, Answer(turn.response))
          && if turn.response.Ok? then after.rows == s.rows - {id}
             else
               && id in after.rows && after.rows == s.rows[id := after.rows[id]]
               && (var now := after.rows[id];
                   && now.sub == row.sub && now.event == row.event && now.attempts == row.attempts + 1
                   && (now.status == DeadLetter <==> row.attempts >= 2)
                   && (row.attempts == 0 ==> now.nextRetryAt == turn.later + 10)
                   && (row.attempts == 1 ==> now.nextRetryAt == turn.later + 60))
  {
  }

  /** A dispatch leaves one row for each matching subscription, due at once, and touches no other row. */
  lemma {:induction false} DispatchOutcome(s: State, matching: seq<Id>, event: EventType, at: Instant)
    requires forall id :: id in s.rows ==> id < s.enqueued
    ensures
      var after := Step(s, Dispatch(matching, event, at));
      && after.logs == s.logs && after.subs == s.subs && after.enqueued == s.enqueued + |matching|
      && (forall id :: id in after.rows <==> id in s.rows || s.enqueued <= id < s.enqueued + |matching|)
      && (forall id :: id in s.rows ==> after.rows[id] == s.rows[id])
      && (forall i :: 0 <= i < |matching| ==> EnqueuedAt(after, s.enqueued + i, matching[i], event, at))
  {
    if matching != [] {
      var n := |matching| - 1;
      DispatchOutcome(s, matching[..n], event, at);
      var before, after := Step(s, Dispatch(matching[..n], event, at)), Step(s, Dispatch(matching, event, at));
      assert after == Enqueued(before, matching[n], event, at);
      forall i | 0 <= i < |matching| ensures EnqueuedAt(after, s.enqueued + i, matching[i], event, at) {
        assert i < n ==> EnqueuedAt(before, s.enqueued + i, matching[..n][i], event, at);
      }
    }
  }

  /** A row for the subscription, not tried yet and due at once. */
  predicate EnqueuedAt(s: State, id: Id, sub: Id, event: EventType, at: Instant) {
    id in s.rows && s.rows[id] == WebhookQueue.Row(sub, event, 0, at, Pending) && IsReady(s, id, at)
  }

  /** Each row the batch takes is ready, and no ready row has waited longer. */
  lemma BatchTakesOldest(s: State, picks: seq<Id>, turns: seq<Turn>, n: nat, other: Id)
    requires n < |picks| <= |turns| && ProcessedAll(s, picks, turns).Some?
    ensures
      var before, now := ProcessedAll(s, picks[..n], turns), turns[n].now;
      && before.Some? && IsReady(before.value, picks[n], now)
      && (IsReady(before.value, other, now) ==> before.value.rows[picks[n]].nextRetryAt <= before.value.rows[other].nextRetryAt)
  {
    PrefixProcessed(s, picks, turns, n + 1);
    assert picks[..n + 1][..n] == picks[..n];
  }

  lemma {:induction false} PrefixProcessed(s: State, picks: seq<Id>, turns: seq<Turn>, n: nat)
    requires n <= |picks| <= |turns| && ProcessedAll(s, picks, turns).Some?
    ensures ProcessedAll(s, picks[..n], turns).Some?
  {
    if n < |picks| {
      PrefixProcessed(s, picks[..|picks| - 1], turns, n);
      assert picks[..|picks| - 1][..n] == picks[..n];
    } else {
      assert picks[..n] == picks;
    }
  }
}
