/**
 Booking revisions from the channel manager: claimed, ingested in one transaction, acknowledged
 afterwards, redelivered and retried any number of times.
 */
module ChannexInbox {
  import opened Base
  import opened Inventory
  import opened StayDates
  import opened BookingRules
  import opened ChannexRules

  /** A fetched revision. `booking` and `room` are as sent; dates are None when absent or unreadable. */
  datatype Payload = Malformed | Payload(
    id: Option<Id>,
    kind: Kind,
    booking: Option<Id>,
    room: Option<(Id, Id)>,
    checkIn: Option<Date>,
    checkOut: Option<Date>,
    amount: Cents)

  /** The channel link of a property: how the channel's categories and rate plans map to ours. */
  datatype Link = Link(property: Id, roomTypes: map<Id, Id>, ratePlans: map<(Id, Id), Id>)

  datatype Processing = InProgress | Finished | Errored

  datatype Revision = Revision(status: Processing, payload: Payload)

  /** What the ingest reports; `Exception` is an error that escapes it. */
  datatype Result = Success | Skipped | Failure | Exception

  /** The committed state; `effects` lists, in order, the revisions that ended as done. */
  datatype State = State(db: Db, revisions: map<Id, Revision>, acknowledged: set<Id>, effects: seq<Id>)

  // ----- Specification -----

  datatype Resolution = Unusable | TooLong | Ready(request: Request)

  function Resolve(link: Link, p: Payload): Resolution
    requires p.Payload? && p.id.Some?
  {
    if p.room.None? || p.room.value.0 !in link.roomTypes || p.room.value !in link.ratePlans then Unusable
    else if p.checkIn.None? || p.checkOut.None? || p.checkOut.value <= p.checkIn.value then Unusable
    else if !ValidStay(p.checkIn.value, p.checkOut.value) then TooLong
    else Ready(Request(p.kind, link.property, Or(p.booking, p.id.value), link.roomTypes[p.room.value.0],
                       link.ratePlans[p.room.value], p.checkIn.value, p.checkOut.value, p.amount))
  }

  /** The revision was processed on an earlier delivery. */
  predicate Claimed(revisions: map<Id, Revision>, rev: Id) {
    rev in revisions && revisions[rev].status != Errored
  }

  function Record(x: State, rev: Id, status: Processing, p: Payload): State {
    x.(revisions := x.revisions[rev := Revision(status, p)])
  }

  /** One ingest, from committed state to committed state. */
  ghost predicate Ingested(x: State, link: Link, p: Payload, guestOk: bool, newId: Id, out: Result, y: State) {
    if p.Malformed? || p.id.None? then out == Failure && y == x
    else if Claimed(x.revisions, p.id.value) then out == Skipped && y == x
    else match Resolve(link, p)
      case Unusable => out == Failure && y == Record(x, p.id.value, Errored, p)
      case TooLong => out == Exception && y == x
      case Ready(r) => exists found, a ::
        && FoundBy(x.db, r.external, found) && Effect(x.db, r, found, guestOk, newId, a)
        && Committed(x, p, a, out, y)
  }

  ghost predicate Committed(x: State, p: Payload, a: Applied, out: Result, y: State)
    requires p.Payload? && p.id.Some?
  {
    match a.outcome
    case Raised => out == Exception && y == x
    case Failed => out == Failure && y == Record(x, p.id.value, Errored, p).(db := Apply(x.db, a))
    case Done => out == Success && y == Record(x, p.id.value, Finished, p).(db := Apply(x.db, a), effects := x.effects + [p.id.value])
  }

  /** The tail of both tasks: the ingest may be lost in a crash; otherwise a non-failure is acknowledged if the call gets through. */
  ghost predicate Settled(x: State, rev: Id, out: Result, mid: State, commits: bool, ackArrives: bool, y: State) {
    if out == Exception || !commits then y == x
    else if out == Failure || !ackArrives then y == mid
    else y == mid.(acknowledged := mid.acknowledged + {rev})
  }

  /** Everything about one task that its surroundings decide. */
  datatype Surroundings = Surroundings(link: Link, guestOk: bool, newId: Id, commits: bool, ackArrives: bool)

  /** A webhook task for revision `rev`, whose fetch may fail; a retry by an operator; or other services at work. */
  datatype Event =
    | Delivery(rev: Id, fetched: Option<Payload>, env: Surroundings)
    | Retry(rev: Id, env: Surroundings)
    | Elsewhere(db: Db)

  /** The channel manager returns the revision it was asked for. */
  predicate Answers(rev: Id, p: Payload) {
    p.Payload? && p.id.Some? ==> p.id == Some(rev)
  }

  ghost predicate IngestedAndSettled(x: State, rev: Id, p: Payload, env: Surroundings, out: Result, mid: State, y: State) {
    Ingested(x, env.link, p, env.guestOk, env.newId, out, mid) && Settled(x, rev, out, mid, env.commits, env.ackArrives, y)
  }

  ghost predicate Task(x: State, rev: Id, p: Payload, env: Surroundings, y: State) {
    env.newId !in x.db.bookings && exists out, mid :: IngestedAndSettled(x, rev, p, env, out, mid, y)
  }

  ghost predicate Step(x: State, e: Event, y: State) {
    match e
    case Delivery(rev, fetched, env) =>
      if fetched.None? then y == x else Answers(rev, fetched.value) && Task(x, rev, fetched.value, env, y)
    case Retry(rev, env) =>
      if rev !in x.revisions || x.revisions[rev].status != Errored then y == x
      else Task(x, rev, x.revisions[rev].payload, env, y)
    case Elsewhere(db) => UniqueExternal(db) && y == x.(db := db)
  }

  // ----- Safety -----

  /** What holds after every committed step. */
  ghost predicate Good(x: State) {
    && (forall r :: r in x.revisions ==>
          x.revisions[r].status != InProgress && x.revisions[r].payload.Payload? && x.revisions[r].payload.id == Some(r))
    && Distinct(x.effects)
    && (forall r :: r in x.effects <==> r in x.revisions && x.revisions[r].status == Finished)
    && (forall r :: r in x.acknowledged ==> r in x.effects)
    && UniqueExternal(x.db)
  }

  lemma ApplyKeepsUniqueExternal(db: Db, r: Request, found: Option<Id>, guestOk: bool, id: Id, a: Applied)
    requires UniqueExternal(db) && FoundBy(db, r.external, found) && r.checkIn < r.checkOut && id !in db.bookings
    requires Effect(db, r, found, guestOk, id, a)
    ensures UniqueExternal(Apply(db, a))
  {
  }

  /** Bookkeeping of one ingest, given that the tables it commits are in order. */
  lemma CommittedIsGood(x: State, p: Payload, a: Applied, out: Result, y: State)
    requires Good(x) && p.Payload? && p.id.Some? && !Claimed(x.revisions, p.id.value)
    requires Committed(x, p, a, out, y) && UniqueExternal(Apply(x.db, a))
    ensures Good(y) && x.effects <= y.effects && y.acknowledged == x.acknowledged
    ensures out != Skipped && (out == Success ==> p.id.value in y.effects)
  {
    assert p.id.value !in x.effects;
    if a.outcome == Done {
      assert y.effects[|x.effects|] == p.id.value;
      forall q ensures q in y.effects <==> q in x.effects || q == p.id.value {}
    }
  }

  lemma IngestIsGood(x: State, link: Link, p: Payload, guestOk: bool, newId: Id, out: Result, y: State)
    requires Good(x) && newId !in x.db.bookings && Ingested(x, link, p, guestOk, newId, out, y)
    ensures Good(y) && x.effects <= y.effects && y.acknowledged == x.acknowledged
    ensures out in {Success, Skipped} ==> p.Payload? && p.id.Some? && p.id.value in y.effects
  {
    if p.Payload? && p.id.Some? && !Claimed(x.revisions, p.id.value) && Resolve(link, p).Ready? {
      var r := Resolve(link, p).request;
      var a := WitnessOf(x, p, r, guestOk, newId, out, y);
      CommittedIsGood(x, p, a, out, y);
    }
  }

  /** The moves behind an ingest that got as far as the tables. */
  lemma WitnessOf(x: State, p: Payload, r: Request, guestOk: bool, newId: Id, out: Result, y: State) returns (a: Applied)
    requires p.Payload? && p.id.Some? && r.checkIn < r.checkOut && UniqueExternal(x.db) && newId !in x.db.bookings
    requires exists found, a :: FoundBy(x.db, r.external, found) && Effect(x.db, r, found, guestOk, newId, a) && Committed(x, p, a, out, y)
    ensures Committed(x, p, a, out, y) && UniqueExternal(Apply(x.db, a))
    ensures exists found :: FoundBy(x.db, r.external, found) && Effect(x.db, r, found, guestOk, newId, a)
  {
    var found, b :| FoundBy(x.db, r.external, found) && Effect(x.db, r, found, guestOk, newId, b) && Committed(x, p, b, out, y);
    ApplyKeepsUniqueExternal(x.db, r, found, guestOk, newId, b);
    a := b;
  }

  lemma TaskIsGood(x: State, rev: Id, p: Payload, env: Surroundings, y: State)
    requires Good(x) && Answers(rev, p) && Task(x, rev, p, env, y)
    ensures Good(y) && x.effects <= y.effects && x.acknowledged <= y.acknowledged
  {
    var out, mid :| IngestedAndSettled(x, rev, p, env, out, mid, y);
    IngestIsGood(x, env.link, p, env.guestOk, env.newId, out, mid);
  }

  lemma StepIsGood(x: State, e: Event, y: State)
    requires Good(x) && Step(x, e, y)
    ensures Good(y) && x.effects <= y.effects && x.acknowledged <= y.acknowledged
  {
    match e
    case Delivery(rev, fetched, env) => if fetched.Some? { TaskIsGood(x, rev, fetched.value, env, y); }
    case Retry(rev, env) =>
      if rev in x.revisions && x.revisions[rev].status == Errored { TaskIsGood(x, rev, x.revisions[rev].payload, env, y); }
    case Elsewhere(_) =>
  }

  ghost predicate Run(xs: seq<State>, es: seq<Event>) {
    |xs| == |es| + 1 && forall i :: 0 <= i < |es| ==> StepAt(xs, es, i)
  }

  ghost predicate StepAt(xs: seq<State>, es: seq<Event>, i: nat)
    requires i < |es| && |xs| == |es| + 1
  {
    Step(xs[i], es[i], xs[i + 1])
  }

  /**
   Over any run of deliveries, redeliveries, retries and crashes: no revision takes effect twice,
   none is left in progress, no two bookings share an external id, only revisions that are done
   are acknowledged, and nothing done is ever undone.
   */
  lemma {:induction false} RunIsGood(xs: seq<State>, es: seq<Event>, i: nat, j: nat)
    requires Run(xs, es) && i <= j < |xs| && Good(xs[0])
    ensures Good(xs[i]) && Good(xs[j])
    ensures xs[i].effects <= xs[j].effects && xs[i].acknowledged <= xs[j].acknowledged
    decreases j
  {
    if j > 0 {
      RunIsGood(xs, es, if i < j then i else j - 1, j - 1);
      assert StepAt(xs, es, j - 1);
      StepIsGood(xs[j - 1], es[j - 1], xs[j]);
    }
  }

  /** A second delivery of a revision that is done changes nothing but the acknowledgement. */
  lemma RedeliveryIsIdle(x: State, link: Link, p: Payload, guestOk: bool, newId: Id, out: Result, y: State)
    requires Good(x) && p.Payload? && p.id.Some? && p.id.value in x.effects && Ingested(x, link, p, guestOk, newId, out, y)
    ensures out == Skipped && y == x
  {
  }

  /** What an ingest committed is what its moves make of the tables. */
  lemma CommittedApplies(x: State, p: Payload, r: Request, found: Option<Id>, guestOk: bool, newId: Id, a: Applied, out: Result, y: State)
    requires p.Payload? && p.id.Some? && r.checkIn < r.checkOut && FoundBy(x.db, r.external, found)
    requires Effect(x.db, r, found, guestOk, newId, a) && Committed(x, p, a, out, y)
    ensures y.db == Apply(x.db, a)
  {
    RaisedMovesNothing(x.db, r, found, guestOk, newId, a);
  }

  /** On any ledger an ingest keeps bookings sound, and lets no bucket drift exactly when its request is not one that drifts. */
  lemma IngestKeepsDriftExactlyWhen(x: State, link: Link, p: Payload, guestOk: bool, newId: Id, found: Option<Id>, out: Result, y: State)
    requires Good(x) && Sound(x.db) && newId !in x.db.bookings && Ingested(x, link, p, guestOk, newId, out, y)
    requires p.Payload? && p.id.Some? && Resolve(link, p).Ready? && FoundBy(x.db, Resolve(link, p).request.external, found)
    ensures Sound(y.db)
    ensures SameDrift(x.db, y.db) <==> Claimed(x.revisions, p.id.value) || !Drifts(x.db, Resolve(link, p).request, found, guestOk)
  {
    if !Claimed(x.revisions, p.id.value) {
      var r := Resolve(link, p).request;
      var a := WitnessOf(x, p, r, guestOk, newId, out, y);
      var same :| FoundBy(x.db, r.external, same) && Effect(x.db, r, same, guestOk, newId, a);
      FoundIsUnique(x.db, r.external, same, found);
      CommittedApplies(x, p, r, found, guestOk, newId, a, out, y);
      RevisionKeepsDriftExactlyWhen(x.db, r, found, guestOk, newId, a);
    }
  }

  /** So an exact ledger stays exact under the same condition. */
  lemma IngestKeepsLedgerExactlyWhen(x: State, link: Link, p: Payload, guestOk: bool, newId: Id, found: Option<Id>, out: Result, y: State)
    requires Good(x) && Valid(x.db) && newId !in x.db.bookings && Ingested(x, link, p, guestOk, newId, out, y)
    requires p.Payload? && p.id.Some? && Resolve(link, p).Ready? && FoundBy(x.db, Resolve(link, p).request.external, found)
    ensures Valid(y.db) <==> Claimed(x.revisions, p.id.value) || !Drifts(x.db, Resolve(link, p).request, found, guestOk)
  {
    IngestKeepsDriftExactlyWhen(x, link, p, guestOk, newId, found, out, y);
    ExactStaysExactly(x.db, y.db);
  }

  lemma FoundIsUnique(db: Db, external: Id, one: Option<Id>, two: Option<Id>)
    requires UniqueExternal(db) && FoundBy(db, external, one) && FoundBy(db, external, two)
    ensures one == two
  {
  }
}
