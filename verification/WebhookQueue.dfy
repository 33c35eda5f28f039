/** Outbound webhooks: the queue of pending deliveries, its worker, and the inline retry loop it replaced. */
module WebhookQueue {
  import opened Base

  type EventType = nat
  type Instant = int

  datatype Status = Pending | DeadLetter

  datatype Row = Row(sub: Id, event: EventType, attempts: nat, nextRetryAt: Instant, status: Status)

  datatype Subscription = Subscription(active: bool, events: set<EventType>)

  /** The answer to one HTTP attempt; a refused URL or a network error has no status code. */
  datatype Response = Ok(code: nat) | Failed(status: Option<nat>)

  datatype Result = Answer(response: Response) | Dropped

  /** A row of the delivery log. `delivery` names the queued delivery it belongs to. */
  datatype Log = Log(delivery: Id, sub: Id, event: EventType, attempt: nat, result: Result)

  /** The committed tables. Deliveries are numbered as they are enqueued. */
  datatype State = State(rows: map<Id, Row>, logs: seq<Log>, subs: map<Id, Subscription>, enqueued: nat)

  const MAX_ATTEMPTS: nat := 3

  /** Seconds to wait after the first and the second failed attempt. */
  const RETRY_DELAYS: seq<nat> := [10, 60]

  function Delay(attempt: nat): nat
    requires attempt >= 1
  {
    var i := attempt - 1;
    RETRY_DELAYS[if i < |RETRY_DELAYS| - 1 then i else |RETRY_DELAYS| - 1]
  }

  // ----- One transaction -----

  /** The subscription still exists, is active and wants the event. */
  predicate Wanted(s: State, row: Row) {
    row.sub in s.subs && s.subs[row.sub].active && row.event in s.subs[row.sub].events
  }

  predicate Due(s: State, id: Id, now: Instant) {
    id in s.rows && s.rows[id].status == Pending && s.rows[id].nextRetryAt <= now
  }

  /** The row the worker locks: due, and no due row waits longer. */
  predicate Picked(s: State, id: Id, now: Instant) {
    Due(s, id, now) && forall other :: other in s.rows && Due(s, other, now) ==> s.rows[id].nextRetryAt <= s.rows[other].nextRetryAt
  }

  /** A row after its failed attempt. */
  function AfterFailure(row: Row, later: Instant): Row {
    var attempt := row.attempts + 1;
    if attempt >= MAX_ATTEMPTS then row.(status := DeadLetter, attempts := attempt)
    else row.(attempts := attempt, nextRetryAt := later + Delay(attempt))
  }

  function Processed(s: State, id: Id, response: Response, later: Instant): State
    requires id in s.rows
  {
    var row := s.rows[id];
    var result := if Wanted(s, row) then Answer(response) else Dropped;
    var logs := s.logs + [Log(id, row.sub, row.event, row.attempts + 1, result)];
    if result == Dropped || response.Ok? then s.(rows := s.rows - {id}, logs := logs)
    else s.(rows := s.rows[id := AfterFailure(row, later)], logs := logs)
  }

  function Enqueued(s: State, sub: Id, event: EventType, now: Instant): State {
    s.(rows := s.rows[s.enqueued := Row(sub, event, 0, now, Pending)], enqueued := s.enqueued + 1)
  }

  function Dispatched(s: State, subs: seq<Id>, event: EventType, now: Instant): State {
    if subs == [] then s else Enqueued(Dispatched(s, subs[..|subs| - 1], event, now), subs[|subs| - 1], event, now)
  }

  // ----- The worker -----

  /** What the outside world does during one turn of the worker: the clock, the answer, the clock again. */
  datatype Turn = Turn(now: Instant, response: Response, later: Instant)

  /** The rows picked in some turns, processed one after the other. */
  function ProcessedAll(s: State, picks: seq<Id>, turns: seq<Turn>): (r: Option<State>)
    requires |picks| <= |turns|
  {
    if picks == [] then Some(s) else
    var n := |picks| - 1;
    var before := ProcessedAll(s, picks[..n], turns);
    if before.Some? && Picked(before.value, picks[n], turns[n].now)
    then Some(Processed(before.value, picks[n], turns[n].response, turns[n].later))
    else None
  }

  class Queue {
    var rows: map<Id, Row>
    var logs: seq<Log>
    var subs: map<Id, Subscription>
    var enqueued: nat

    ghost function Tables(): State
      reads this
    {
      State(rows, logs, subs, enqueued)
    }

    constructor ()
      ensures Tables() == State(map[], [], map[], 0)
    {
      rows, logs, subs, enqueued := map[], [], map[], 0;
    }

    /** One pending row for every matching subscription, in one transaction. */
    method Dispatch(matching: seq<Id>, event: EventType, now: Instant)
      modifies this
      ensures Tables() == Dispatched(old(Tables()), matching, event, now)
    {
      for i := 0 to |matching|
        invariant Tables() == Dispatched(old(Tables()), matching[..i], event, now)
      {
        assert matching[..i + 1][..i] == matching[..i];
        rows := rows[enqueued := Row(matching[i], event, 0, now, Pending)];
        enqueued := enqueued + 1;
      }
      assert matching[..|matching|] == matching;
    }

    method ProcessOne(id: Id, response: Response, later: Instant)
      requires id in rows
      modifies this
      ensures Tables() == Processed(old(Tables()), id, response, later)
    {
      var row := rows[id];
      var attempt := row.attempts + 1;
      if row.sub !in subs || !subs[row.sub].active || row.event !in subs[row.sub].events {
        logs := logs + [Log(id, row.sub, row.event, attempt, Dropped)];
        rows := rows - {id};
        return;
      }
      logs := logs + [Log(id, row.sub, row.event, attempt, Answer(response))];
      if response.Ok? {
        rows := rows - {id};
        return;
      }
      if attempt >= MAX_ATTEMPTS {
        rows := rows[id := row.(status := DeadLetter, attempts := attempt)];
        return;
      }
      var i := if attempt - 1 < |RETRY_DELAYS| - 1 then attempt - 1 else |RETRY_DELAYS| - 1;
      rows := rows[id := row.(attempts := attempt, nextRetryAt := later + RETRY_DELAYS[i])];
    }

    /** The due row that has waited longest, or none. */
    method Pick(now: Instant) returns (pick: Option<Id>)
      ensures pick.Some? ==> Picked(Tables(), pick.value, now)
      ensures pick.None? ==> forall id :: id in rows ==> !Due(Tables(), id, now)
    {
      pick := None;
      var left := rows.Keys;
      while left != {}
        invariant left <= rows.Keys
        invariant pick.None? ==> forall id :: id in rows.Keys - left ==> !Due(Tables(), id, now)
        invariant pick.Some? ==> Due(Tables(), pick.value, now)
        invariant pick.Some? ==> forall id :: id in rows.Keys - left && Due(Tables(), id, now) ==>
                                   rows[pick.value].nextRetryAt <= rows[id].nextRetryAt
        decreases |left|
      {
        var id :| id in left;
        left := left - {id};
        if rows[id].status == Pending && rows[id].nextRetryAt <= now {
          if pick.None? || rows[id].nextRetryAt < rows[pick.value].nextRetryAt {
            pick := Some(id);
          }
        }
      }
    }

    /** At most one row a turn; the batch ends early only when nothing is due. */
    method ProcessBatch(turns: seq<Turn>) returns (processed: nat, ghost picks: seq<Id>)
      modifies this
      ensures processed == |picks| <= |turns|
      ensures ProcessedAll(old(Tables()), picks, turns) == Some(Tables())
      ensures processed < |turns| ==> forall id :: id in rows ==> !Due(Tables(), id, turns[processed].now)
    {
      processed, picks := 0, [];
      while processed < |turns|
        invariant processed == |picks| <= |turns|
        invariant ProcessedAll(old(Tables()), picks, turns) == Some(Tables())
      {
        var turn := turns[processed];
        var pick := Pick(turn.now);
        if pick.None? {
          break;
        }
        assert (picks + [pick.value])[..|picks|] == picks;
        ProcessOne(pick.value, turn.response, turn.later);
        picks := picks + [pick.value];
        processed := processed + 1;
      }
    }
  }

  // ----- The inline loop -----

  predicate Succeeded(responses: seq<Response>) {
    exists i :: 0 <= i < |responses| && responses[i].Ok?
  }

  /** The log of trying until an attempt succeeds, three times at most. */
  function InlineLogs(id: Id, sub: Id, event: EventType, responses: seq<Response>): seq<Log> {
    if responses == [] then [] else
    var n := |responses| - 1;
    InlineLogs(id, sub, event, responses[..n])
    + if n >= MAX_ATTEMPTS || Succeeded(responses[..n]) then [] else [Log(id, sub, event, n + 1, Answer(responses[n]))]
  }

  method DeliverInline(id: Id, sub: Id, event: EventType, responses: seq<Response>) returns (logs: seq<Log>)
    requires |responses| == MAX_ATTEMPTS
    ensures logs == InlineLogs(id, sub, event, responses)
  {
    logs := [];
    for i := 0 to MAX_ATTEMPTS
      invariant !Succeeded(responses[..i]) && logs == InlineLogs(id, sub, event, responses[..i])
    {
      assert responses[..i + 1][..i] == responses[..i];
      logs := logs + [Log(id, sub, event, i + 1, Answer(responses[i]))];
      if responses[i].Ok? {
        NothingAfterSuccess(id, sub, event, responses, i + 1);
        return;
      }
    }
    assert responses[..|responses|] == responses;
  }

  lemma {:induction false} NothingAfterSuccess(id: Id, sub: Id, event: EventType, responses: seq<Response>, n: nat)
    requires n <= |responses| && Succeeded(responses[..n])
    ensures InlineLogs(id, sub, event, responses) == InlineLogs(id, sub, event, responses[..n])
  {
    var m := |responses| - 1;
    if n < |responses| {
      assert responses[..m][..n] == responses[..n];
      var i :| 0 <= i < n && responses[..n][i].Ok?;
      assert responses[..m][i].Ok?;
      NothingAfterSuccess(id, sub, event, responses[..m], n);
    } else {
      assert responses[..n] == responses;
    }
  }
}
