/** Whole runs of the webhook queue: dispatches, worker turns, crashed turns, and edits to subscriptions, in any order. */
module WebhookProtocol {
  import opened Base
  import opened WebhookQueue

  /** Work is a committed turn; a turn that crashes before its commit is rolled back. */
  datatype Event =
    | Dispatch(matching: seq<Id>, event: EventType, at: Instant)
    | Work(id: Id, turn: Turn)
    | Crash
    | Edit(sub: Id, subscription: Subscription)

  /** A worker takes any due row: with several workers the one waiting longest may be locked by another. */
  predicate Worked(s: State, e: Event, id: Id) {
    e.Work? && e.id == id && Due(s, id, e.turn.now)
  }

  function Step(s: State, e: Event): State {
    match e
    case Dispatch(matching, event, at) => Dispatched(s, matching, event, at)
    case Work(id, turn) => if Worked(s, e, id) then Processed(s, id, turn.response, turn.later) else s
    case Crash => s
    case Edit(sub, subscription) => s.(subs := s.subs[sub := subscription])
  }

  function Run(s: State, events: seq<Event>): State {
    if events == [] then s else Step(Run(s, events[..|events| - 1]), events[|events| - 1])
  }

  /** A batch of the worker as events. */
  function BatchEvents(picks: seq<Id>, turns: seq<Turn>): seq<Event>
    requires |picks| <= |turns|
  {
    seq(|picks|, i requires 0 <= i < |picks| => Work(picks[i], turns[i]))
  }

  /** So what holds of every run holds of what the worker's loop does. */
  lemma {:induction false} BatchIsRun(s: State, picks: seq<Id>, turns: seq<Turn>)
    requires |picks| <= |turns| && ProcessedAll(s, picks, turns).Some?
    ensures Run(s, BatchEvents(picks, turns)) == ProcessedAll(s, picks, turns).value
  {
    if picks != [] {
      var n := |picks| - 1;
      BatchIsRun(s, picks[..n], turns);
      assert BatchEvents(picks, turns)[..n] == BatchEvents(picks[..n], turns);
    }
  }

  // ----- The story of one delivery -----

  /** The log rows of one delivery, oldest first. */
  function LogsOf(logs: seq<Log>, id: Id): seq<Log> {
    if logs == [] then [] else
    var last := logs[|logs| - 1];
    LogsOf(logs[..|logs| - 1], id) + if last.delivery == id then [last] else []
  }

  function RowOf(s: State, id: Id): Option<Row> {
    if id in s.rows then Some(s.rows[id]) else None
  }

  predicate Fails(l: Log) {
    l.result.Answer? && l.result.response.Failed?
  }

  predicate AllFail(logs: seq<Log>) {
    forall i :: 0 <= i < |logs| ==> Fails(logs[i])
  }

  predicate Numbered(logs: seq<Log>) {
    forall i :: 0 <= i < |logs| ==> logs[i].attempt == i + 1
  }

  /** What the log of a delivery says, given its row: still pending, dead, or gone because it was delivered or dropped. */
  predicate Story(logs: seq<Log>, row: Option<Row>) {
    && Numbered(logs) && |logs| <= MAX_ATTEMPTS
    && match row
       case Some(r) =>
         r.attempts == |logs| && AllFail(logs) && (r.status == DeadLetter <==> |logs| == MAX_ATTEMPTS)
       case None =>
         |logs| >= 1 && AllFail(logs[..|logs| - 1]) && !Fails(logs[|logs| - 1])
  }

  ghost predicate Good(s: State) {
    && (forall id :: id in s.rows ==> id < s.enqueued)
    && (forall id: Id :: id < s.enqueued ==> Story(LogsOf(s.logs, id), RowOf(s, id)))
    && forall id: Id :: id >= s.enqueued ==> LogsOf(s.logs, id) == []
  }

  predicate IsPending(s: State, id: Id) {
    id in s.rows && s.rows[id].status == Pending
  }

  predicate IsDead(s: State, id: Id) {
    id in s.rows && s.rows[id].status == DeadLetter
  }

  /** Gone from the queue, and the last attempt was answered with success. */
  predicate IsDelivered(s: State, id: Id) {
    var logs := LogsOf(s.logs, id);
    id !in s.rows && logs != [] && logs[|logs| - 1].result.Answer? && logs[|logs| - 1].result.response.Ok?
  }

  /** Gone because the subscription no longer wanted it. */
  predicate IsDropped(s: State, id: Id) {
    var logs := LogsOf(s.logs, id);
    id !in s.rows && logs != [] && logs[|logs| - 1].result.Dropped?
  }

  function AsOne(b: bool): nat {
    if b then 1 else 0
  }

  /** Every enqueued delivery is in exactly one of the four places, with at most three log rows numbered from 1. */
  lemma ExactlyOnePlace(s: State, id: Id)
    requires Good(s) && id < s.enqueued
    ensures AsOne(IsPending(s, id)) + AsOne(IsDead(s, id)) + AsOne(IsDelivered(s, id)) + AsOne(IsDropped(s, id)) == 1
    ensures Numbered(LogsOf(s.logs, id)) && |LogsOf(s.logs, id)| <= MAX_ATTEMPTS
  {
    assert Story(LogsOf(s.logs, id), RowOf(s, id));
  }

  // ----- Every step keeps the story straight -----

  lemma LogsOfAppend(logs: seq<Log>, l: Log, id: Id)
    ensures LogsOf(logs + [l], id) == LogsOf(logs, id) + if l.delivery == id then [l] else []
  {
    assert (logs + [l])[..|logs|] == logs;
  }

  lemma EnqueuedIsGood(s: State, sub: Id, event: EventType, now: Instant)
    requires Good(s)
    ensures Good(Enqueued(s, sub, event, now))
  {
    var next := Enqueued(s, sub, event, now);
    forall id: Id | id < next.enqueued ensures Story(LogsOf(next.logs, id), RowOf(next, id)) {
      if id < s.enqueued {
        assert RowOf(next, id) == RowOf(s, id);
      }
    }
  }

  lemma {:induction false} DispatchedIsGood(s: State, subs: seq<Id>, event: EventType, now: Instant)
    requires Good(s)
    ensures Good(Dispatched(s, subs, event, now))
  {
    if subs != [] {
      DispatchedIsGood(s, subs[..|subs| - 1], event, now);
      EnqueuedIsGood(Dispatched(s, subs[..|subs| - 1], event, now), subs[|subs| - 1], event, now);
    }
  }

  lemma StoryContinues(logs: seq<Log>, row: Row, l: Log, next: Option<Row>)
    requires Story(logs, Some(row)) && row.status == Pending && l.attempt == row.attempts + 1
    requires
      if Fails(l)
      then next.Some? && next.value.attempts == l.attempt && (next.value.status == DeadLetter <==> l.attempt >= MAX_ATTEMPTS)
      else next.None?
    ensures Story(logs + [l], next)
  {
    assert (logs + [l])[..|logs|] == logs;
  }

  /** The log row a turn adds. */
  function TurnLog(s: State, id: Id, response: Response): Log
    requires id in s.rows
  {
    var row := s.rows[id];
    Log(id, row.sub, row.event, row.attempts + 1, if Wanted(s, row) then Answer(response) else Dropped)
  }

  /** What a turn does to the row and the log of its delivery. */
  lemma ProcessedWrites(s: State, id: Id, response: Response, later: Instant)
    requires id in s.rows
    ensures
      var l, next := TurnLog(s, id, response), Processed(s, id, response, later);
      && next.enqueued == s.enqueued && LogsOf(next.logs, id) == LogsOf(s.logs, id) + [l]
      && RowOf(next, id) == if Fails(l) then Some(AfterFailure(s.rows[id], later)) else None
  {
    LogsOfAppend(s.logs, TurnLog(s, id, response), id);
  }

  lemma ProcessedStory(s: State, id: Id, response: Response, later: Instant)
    requires Story(LogsOf(s.logs, id), RowOf(s, id)) && IsPending(s, id)
    ensures
      var next := Processed(s, id, response, later);
      Story(LogsOf(next.logs, id), RowOf(next, id))
  {
    ProcessedWrites(s, id, response, later);
    StoryContinues(LogsOf(s.logs, id), s.rows[id], TurnLog(s, id, response), RowOf(Processed(s, id, response, later), id));
  }

  /** A turn on one delivery changes nothing about the others. */
  lemma OthersUntouched(s: State, id: Id, response: Response, later: Instant, other: Id)
    requires id in s.rows && other != id
    ensures
      var next := Processed(s, id, response, later);
      RowOf(next, other) == RowOf(s, other) && LogsOf(next.logs, other) == LogsOf(s.logs, other)
  {
    LogsOfAppend(s.logs, Processed(s, id, response, later).logs[|s.logs|], other);
  }

  lemma ProcessedIsGood(s: State, id: Id, response: Response, later: Instant)
    requires Good(s) && IsPending(s, id)
    ensures Good(Processed(s, id, response, later))
  {
    var next := Processed(s, id, response, later);
    forall other: Id ensures other < s.enqueued ==> Story(LogsOf(next.logs, other), RowOf(next, other))
      ensures other >= s.enqueued ==> LogsOf(next.logs, other) == []
    {
      if other == id {
        ProcessedStory(s, id, response, later);
      } else {
        OthersUntouched(s, id, response, later, other);
      }
    }
  }

  lemma StepIsGood(s: State, e: Event)
    requires Good(s)
    ensures Good(Step(s, e))
  {
    match e
    case Dispatch(matching, event, at) => DispatchedIsGood(s, matching, event, at);
    case Work(id, turn) =>
      if Worked(s, e, id) {
        ProcessedIsGood(s, id, turn.response, turn.later);
      }
    case Crash =>
    case Edit(_, _) =>
      assert Step(s, e).rows == s.rows && Step(s, e).logs == s.logs;
      assert forall id :: RowOf(Step(s, e), id) == RowOf(s, id);
  }

  lemma {:induction false} DispatchOnlyAdds(s: State, subs: seq<Id>, event: EventType, now: Instant)
    ensures var next := Dispatched(s, subs, event, now); next.logs == s.logs && next.enqueued == s.enqueued + |subs|
  {
    if subs != [] {
      DispatchOnlyAdds(s, subs[..|subs| - 1], event, now);
    }
  }

  /**
   In every reachable state every delivery is in exactly one place and its log tells how it got there;
   the log only grows and no delivery is forgotten.
   */
  lemma {:induction false} RunIsGood(s: State, events: seq<Event>)
    requires Good(s)
    ensures Good(Run(s, events))
    ensures s.logs <= Run(s, events).logs && s.enqueued <= Run(s, events).enqueued
  {
    if events != [] {
      var before, e := Run(s, events[..|events| - 1]), events[|events| - 1];
      RunIsGood(s, events[..|events| - 1]);
      StepIsGood(before, e);
      if e.Dispatch? {
        DispatchOnlyAdds(before, e.matching, e.event, e.at);
      }
    }
  }

  /** Nothing enqueued yet. */
  function Empty(subs: map<Id, Subscription>): State {
    State(map[], [], subs, 0)
  }

  lemma EmptyIsGood(subs: map<Id, Subscription>)
    ensures Good(Empty(subs))
  {
  }

  /** A failed delivery is due again exactly from 10 seconds after its first attempt and 60 after its second, and never after its third. */
  lemma RetryWaits(s: State, id: Id, response: Response, later: Instant, now: Instant)
    requires Good(s) && IsPending(s, id) && Wanted(s, s.rows[id]) && response.Failed?
    ensures
      var n := |LogsOf(s.logs, id)| + 1;
      Due(Processed(s, id, response, later), id, now) <==> (n == 1 && now >= later + 10) || (n == 2 && now >= later + 60)
  {
    assert Story(LogsOf(s.logs, id), RowOf(s, id));
  }

  // ----- Nothing is retried for ever -----

  /** The attempts the pending deliveries below n have left. */
  function Budget(rows: map<Id, Row>, n: nat): int {
    if n == 0 then 0 else
    Budget(rows, n - 1) + if n - 1 in rows && rows[n - 1].status == Pending then MAX_ATTEMPTS - rows[n - 1].attempts else 0
  }

  lemma {:induction false} BudgetSame(a: map<Id, Row>, b: map<Id, Row>, n: nat)
    requires forall id: Id :: id < n ==> (id in a <==> id in b) && (id in a ==> a[id] == b[id])
    ensures Budget(a, n) == Budget(b, n)
  {
    if n > 0 {
      BudgetSame(a, b, n - 1);
    }
  }

  lemma {:induction false} BudgetFalls(a: map<Id, Row>, b: map<Id, Row>, id: Id, n: nat)
    requires id < n && id in a && a[id].status == Pending && a[id].attempts < MAX_ATTEMPTS
    requires forall other: Id :: other != id ==> (other in a <==> other in b) && (other in a ==> a[other] == b[other])
    requires id in b && b[id].status == Pending ==> b[id].attempts == a[id].attempts + 1
    ensures Budget(b, n) < Budget(a, n)
  {
    if id == n - 1 {
      BudgetSame(a, b, n - 1);
    } else {
      BudgetFalls(a, b, id, n - 1);
    }
  }

  /** Every committed turn uses up at least one of the attempts that are left. */
  lemma WorkUsesBudget(s: State, e: Event)
    requires Good(s) && e.Work? && Worked(s, e, e.id)
    ensures Budget(Step(s, e).rows, s.enqueued) < Budget(s.rows, s.enqueued)
    ensures |Step(s, e).logs| == |s.logs| + 1
  {
    assert Story(LogsOf(s.logs, e.id), RowOf(s, e.id));
    BudgetFalls(s.rows, Step(s, e).rows, e.id, s.enqueued);
  }

  lemma {:induction false} DispatchAddsBudget(s: State, subs: seq<Id>, event: EventType, now: Instant)
    requires Good(s)
    ensures
      var next := Dispatched(s, subs, event, now);
      && next.enqueued == s.enqueued + |subs| && next.logs == s.logs
      && Budget(next.rows, next.enqueued) == Budget(s.rows, s.enqueued) + MAX_ATTEMPTS * |subs|
  {
    if subs != [] {
      var n := |subs| - 1;
      var before := Dispatched(s, subs[..n], event, now);
      DispatchAddsBudget(s, subs[..n], event, now);
      BudgetSame(before.rows, Enqueued(before, subs[n], event, now).rows, before.enqueued);
    }
  }

  /** So the log never grows past three rows per delivery ever enqueued, and each row still to come is paid for. */
  ghost predicate WithinBudget(s: State) {
    |s.logs| + Budget(s.rows, s.enqueued) <= MAX_ATTEMPTS * s.enqueued
  }

  lemma {:induction false} RunStaysWithinBudget(s: State, events: seq<Event>)
    requires Good(s) && WithinBudget(s)
    ensures WithinBudget(Run(s, events))
  {
    if events != [] {
      var before, e := Run(s, events[..|events| - 1]), events[|events| - 1];
      RunIsGood(s, events[..|events| - 1]);
      RunStaysWithinBudget(s, events[..|events| - 1]);
      if e.Dispatch? {
        DispatchAddsBudget(before, e.matching, e.event, e.at);
      } else if e.Work? && Worked(before, e, e.id) {
        WorkUsesBudget(before, e);
      }
    }
  }

  /** Some run leads there from an empty queue. */
  ghost predicate Reachable(s: State) {
    exists subs, events :: s == Run(Empty(subs), events)
  }

  lemma ReachableIsGood(s: State)
    requires Reachable(s)
    ensures Good(s) && WithinBudget(s)
  {
    var subs, events :| s == Run(Empty(subs), events);
    EmptyIsGood(subs);
    RunIsGood(Empty(subs), events);
    RunStaysWithinBudget(Empty(subs), events);
  }

  /** In every reachable state every delivery ever enqueued is in one of the four places, and the log is within its budget. */
  lemma EveryDeliveryIsAccountedFor(s: State, id: Id)
    requires Reachable(s) && id < s.enqueued
    ensures AsOne(IsPending(s, id)) + AsOne(IsDead(s, id)) + AsOne(IsDelivered(s, id)) + AsOne(IsDropped(s, id)) == 1
    ensures |s.logs| + Budget(s.rows, s.enqueued) <= MAX_ATTEMPTS * s.enqueued
  {
    ReachableIsGood(s);
    ExactlyOnePlace(s, id);
  }

  // ----- The queue does what the inline loop did -----

  function AnswerOf(s: State, e: Event, id: Id): seq<Response> {
    if Worked(s, e, id) then [e.turn.response] else []
  }

  /** The answers one delivery got in a run, in order. */
  function AnswersTo(s: State, events: seq<Event>, id: Id): seq<Response> {
    if events == [] then [] else
    var before, e := events[..|events| - 1], events[|events| - 1];
    AnswersTo(s, before, id) + AnswerOf(Run(s, before), e, id)
  }

  /** The subscription wants the event whenever a turn takes the delivery. */
  ghost predicate StaysWanted(s: State, events: seq<Event>, id: Id) {
    forall k :: 0 <= k < |events| && Worked(Run(s, events[..k]), events[k], id) ==>
      Wanted(Run(s, events[..k]), Run(s, events[..k]).rows[id])
  }

  /** How a delivery stands after some answers: the inline log, and a row exactly while the inline loop would not have succeeded. */
  ghost predicate Stands(row: Option<Row>, logs: seq<Log>, id: Id, sub: Id, event: EventType, answers: seq<Response>) {
    && logs == InlineLogs(id, sub, event, answers)
    && match row
       case Some(r) =>
         && r.sub == sub && r.event == event && r.attempts == |answers| <= MAX_ATTEMPTS && !Succeeded(answers)
         && (r.status == DeadLetter <==> |answers| == MAX_ATTEMPTS)
       case None =>
         && Succeeded(answers) && logs != [] && logs[|logs| - 1].result.Answer? && logs[|logs| - 1].result.response.Ok?
  }

  ghost predicate Mirrors(s: State, id: Id, sub: Id, event: EventType, answers: seq<Response>) {
    id < s.enqueued && Stands(RowOf(s, id), LogsOf(s.logs, id), id, sub, event, answers)
  }

  /** Pending while the inline loop would still try, delivered once it would have succeeded, dead once it would have given up. */
  lemma MirrorsWhere(s: State, id: Id, sub: Id, event: EventType, answers: seq<Response>)
    requires Mirrors(s, id, sub, event, answers)
    ensures IsPending(s, id) <==> !Succeeded(answers) && |answers| < MAX_ATTEMPTS
    ensures IsDelivered(s, id) <==> Succeeded(answers)
    ensures IsDead(s, id) <==> !Succeeded(answers) && |answers| == MAX_ATTEMPTS
  {
    assert Stands(RowOf(s, id), LogsOf(s.logs, id), id, sub, event, answers);
  }

  lemma SucceededAppend(answers: seq<Response>, response: Response)
    ensures Succeeded(answers + [response]) <==> Succeeded(answers) || response.Ok?
  {
    if Succeeded(answers) {
      var i :| 0 <= i < |answers| && answers[i].Ok?;
      assert (answers + [response])[i].Ok?;
    }
    if response.Ok? {
      assert (answers + [response])[|answers|].Ok?;
    }
  }

  lemma LogAfterTurn(id: Id, sub: Id, event: EventType, answers: seq<Response>, response: Response)
    requires !Succeeded(answers) && |answers| < MAX_ATTEMPTS
    ensures
      InlineLogs(id, sub, event, answers + [response])
        == InlineLogs(id, sub, event, answers) + [Log(id, sub, event, |answers| + 1, Answer(response))]
  {
    assert (answers + [response])[..|answers|] == answers;
  }

  lemma TurnStands(row: Row, logs: seq<Log>, id: Id, sub: Id, event: EventType, answers: seq<Response>, turn: Turn)
    requires Stands(Some(row), logs, id, sub, event, answers) && row.status == Pending
    ensures
      Stands(if turn.response.Ok? then None else Some(AfterFailure(row, turn.later)),
             logs + [Log(id, sub, event, row.attempts + 1, Answer(turn.response))], id, sub, event, answers + [turn.response])
  {
    LogAfterTurn(id, sub, event, answers, turn.response);
    SucceededAppend(answers, turn.response);
  }

  lemma TurnMirrors(s: State, id: Id, sub: Id, event: EventType, answers: seq<Response>, turn: Turn)
    requires Mirrors(s, id, sub, event, answers) && Due(s, id, turn.now) && Wanted(s, s.rows[id])
    ensures Mirrors(Processed(s, id, turn.response, turn.later), id, sub, event, answers + [turn.response])
  {
    ProcessedWrites(s, id, turn.response, turn.later);
    MirrorsAfter(s, Processed(s, id, turn.response, turn.later), id, sub, event, answers, turn);
  }

  lemma MirrorsAfter(s: State, next: State, id: Id, sub: Id, event: EventType, answers: seq<Response>, turn: Turn)
    requires Mirrors(s, id, sub, event, answers) && Due(s, id, turn.now) && Wanted(s, s.rows[id]) && next.enqueued == s.enqueued
    requires LogsOf(next.logs, id) == LogsOf(s.logs, id) + [TurnLog(s, id, turn.response)]
    requires RowOf(next, id) == if Fails(TurnLog(s, id, turn.response)) then Some(AfterFailure(s.rows[id], turn.later)) else None
    ensures Mirrors(next, id, sub, event, answers + [turn.response])
  {
    assert Stands(RowOf(s, id), LogsOf(s.logs, id), id, sub, event, answers);
    TurnStands(s.rows[id], LogsOf(s.logs, id), id, sub, event, answers, turn);
  }

  lemma {:induction false} DispatchKeepsOthers(s: State, subs: seq<Id>, event: EventType, now: Instant, id: Id)
    requires id < s.enqueued
    ensures
      var next := Dispatched(s, subs, event, now);
      id < next.enqueued && RowOf(next, id) == RowOf(s, id) && next.logs == s.logs
  {
    if subs != [] {
      DispatchKeepsOthers(s, subs[..|subs| - 1], event, now, id);
    }
  }

  /** Steps that are not a turn on the delivery leave its row and its log as they are. */
  lemma OtherStepLeaves(s: State, e: Event, id: Id)
    requires id < s.enqueued && !Worked(s, e, id)
    ensures
      var next := Step(s, e);
      id < next.enqueued && RowOf(next, id) == RowOf(s, id) && LogsOf(next.logs, id) == LogsOf(s.logs, id)
  {
    match e
    case Dispatch(matching, event, at) => DispatchKeepsOthers(s, matching, event, at, id);
    case Work(other, turn) =>
      if Worked(s, e, other) {
        OthersUntouched(s, other, turn.response, turn.later, id);
      }
    case Crash =>
    case Edit(_, _) =>
  }

  lemma StepMirrors(s: State, e: Event, id: Id, sub: Id, event: EventType, answers: seq<Response>)
    requires Mirrors(s, id, sub, event, answers)
    requires Worked(s, e, id) ==> Wanted(s, s.rows[id])
    ensures Mirrors(Step(s, e), id, sub, event, answers + AnswerOf(s, e, id))
  {
    if Worked(s, e, id) {
      TurnMirrors(s, id, sub, event, answers, e.turn);
    } else {
      OtherStepLeaves(s, e, id);
      assert answers + AnswerOf(s, e, id) == answers;
    }
  }

  lemma WantedBefore(s: State, events: seq<Event>, id: Id)
    requires events != [] && StaysWanted(s, events, id)
    ensures StaysWanted(s, events[..|events| - 1], id)
    ensures
      var before := Run(s, events[..|events| - 1]);
      Worked(before, events[|events| - 1], id) ==> Wanted(before, before.rows[id])
  {
    forall k | 0 <= k < |events| - 1 ensures events[..|events| - 1][..k] == events[..k] {
    }
  }

  /**
   Whatever else happens in between - crashes, other deliveries, edits - a delivery whose subscription
   keeps wanting it is logged exactly as the inline loop would have logged the same answers.
   */
  lemma {:induction false} QueueMatchesInline(s: State, events: seq<Event>, id: Id, sub: Id, event: EventType)
    requires Mirrors(s, id, sub, event, []) && StaysWanted(s, events, id)
    ensures Mirrors(Run(s, events), id, sub, event, AnswersTo(s, events, id))
  {
    if events != [] {
      var before := events[..|events| - 1];
      WantedBefore(s, events, id);
      QueueMatchesInline(s, before, id, sub, event);
      StepMirrors(Run(s, before), events[|events| - 1], id, sub, event, AnswersTo(s, before, id));
    }
  }

  /** A fresh delivery mirrors an inline loop that has not begun. */
  lemma FreshMirrors(s: State, sub: Id, event: EventType, now: Instant)
    requires Good(s)
    ensures Mirrors(Enqueued(s, sub, event, now), s.enqueued, sub, event, [])
  {
  }

  lemma EnqueuedLeavesMirrors(s: State, sub: Id, event: EventType, now: Instant, id: Id, mine: Id, answers: seq<Response>)
    requires id < s.enqueued && Mirrors(s, id, mine, event, answers)
    ensures Mirrors(Enqueued(s, sub, event, now), id, mine, event, answers)
  {
    assert RowOf(Enqueued(s, sub, event, now), id) == RowOf(s, id);
  }

  /** So does each of the deliveries of one dispatch. */
  lemma {:induction false} DispatchMirrors(s: State, subs: seq<Id>, event: EventType, now: Instant, i: nat)
    requires Good(s) && i < |subs|
    ensures Mirrors(Dispatched(s, subs, event, now), s.enqueued + i, subs[i], event, [])
  {
    var n := |subs| - 1;
    var before := Dispatched(s, subs[..n], event, now);
    DispatchOnlyAdds(s, subs[..n], event, now);
    if i < n {
      DispatchMirrors(s, subs[..n], event, now, i);
      EnqueuedLeavesMirrors(before, subs[n], event, now, s.enqueued + i, subs[i], []);
    } else {
      DispatchedIsGood(s, subs[..n], event, now);
      FreshMirrors(before, subs[n], event, now);
    }
  }

  /**
   From any reachable state, each delivery of a dispatch is from then on logged as the inline loop would log the answers
   it gets, as long as its subscription wants it whenever a turn takes it.
   */
  lemma EveryDeliveryMatchesInline(s: State, matching: seq<Id>, event: EventType, at: Instant, i: nat, after: seq<Event>)
    requires Reachable(s) && i < |matching| && StaysWanted(Step(s, Dispatch(matching, event, at)), after, s.enqueued + i)
    ensures
      var sent, id := Step(s, Dispatch(matching, event, at)), s.enqueued + i;
      Mirrors(Run(sent, after), id, matching[i], event, AnswersTo(sent, after, id))
  {
    ReachableIsGood(s);
    DispatchMirrors(s, matching, event, at, i);
    QueueMatchesInline(Step(s, Dispatch(matching, event, at)), after, s.enqueued + i, matching[i], event);
  }

  /** A finished delivery has the log the inline loop would write for its answers and any that might have followed. */
  lemma FinishedMatchesInline(s: State, id: Id, sub: Id, event: EventType, answers: seq<Response>, all: seq<Response>)
    requires Mirrors(s, id, sub, event, answers) && !IsPending(s, id) && |answers| <= MAX_ATTEMPTS == |all| && answers <= all
    ensures LogsOf(s.logs, id) == InlineLogs(id, sub, event, all)
  {
    assert all[..|answers|] == answers;
    if Succeeded(answers) {
      NothingAfterSuccess(id, sub, event, all, |answers|);
    } else {
      assert answers == all;
    }
  }
}
