/** Exactly when the channel shows a stale image: which of the readings that reached it came last. */
module MirrorFreshness {
  import opened Base
  import opened ChannelMirror
  import opened ChannelPush
  import opened Inventory

  /** The channel shows something other than the bucket's current image. */
  ghost predicate Stale(s: State, k: Key)
    requires s.history != []
  {
    k in s.mirror && s.mirror[k] != Image(s.history[Now(s)], k)
  }

  // ----- Which readings reached the channel -----

  predicate Carries(updates: seq<Update>, k: Key) {
    exists i :: 0 <= i < |updates| && updates[i].key == k
  }

  /** When the delivered values of a bucket were read: by one step, nothing or the reading of the batch that carries it. */
  ghost function ReadingOf(s: State, e: Event, k: Key): seq<nat>
    requires Truthful(s)
  {
    if e.Deliver? && e.push in s.pushes && Carries(NextBatch(s.pushes[e.push]), k) then [s.pushes[e.push].readAt] else []
  }

  /** The readings of a bucket that reached the channel, in the order in which they arrived. */
  ghost function Readings(s: State, events: seq<Event>, k: Key): seq<nat>
    requires Truthful(s)
  {
    if events == [] then [] else
    var before := events[..|events| - 1];
    Readings(s, before, k) + ReadingOf(Run(s, before), events[|events| - 1], k)
  }

  function LastOf(readings: seq<nat>): nat
    requires readings != []
  {
    readings[|readings| - 1]
  }

  /** The newest of the readings. */
  function NewestOf(readings: seq<nat>): nat
    requires readings != []
  {
    var last := LastOf(readings);
    if |readings| == 1 then last else
    var rest := NewestOf(readings[..|readings| - 1]);
    if rest > last then rest else last
  }

  lemma {:induction false} NewestIsGreatest(readings: seq<nat>)
    requires readings != []
    ensures NewestOf(readings) in readings && forall i :: 0 <= i < |readings| ==> readings[i] <= NewestOf(readings)
  {
    if |readings| > 1 {
      NewestIsGreatest(readings[..|readings| - 1]);
    }
  }

  lemma NewestAppend(readings: seq<nat>, at: nat)
    ensures NewestOf(readings + [at]) == if readings != [] && NewestOf(readings) > at then NewestOf(readings) else at
  {
    assert (readings + [at])[..|readings|] == readings;
  }

  // ----- The stamps say which -----

  /** The stamps of a bucket are its last and its newest reading. */
  ghost predicate Stamps(s: State, k: Key, readings: seq<nat>) {
    if readings == [] then k !in s.mirror && k !in s.shownAt && k !in s.newest
    else k in s.mirror && k in s.shownAt && s.shownAt[k] == LastOf(readings) && k in s.newest && s.newest[k] == NewestOf(readings)
         && NewestOf(readings) < |s.history|
  }

  /** A batch stamps just the buckets it carries. */
  lemma {:induction false} BatchStamps(mirror: Mirror, stamps: map<Key, nat>, newest: map<Key, nat>, batch: seq<Update>, at: nat, k: Key)
    ensures
      var shown, stamped, later := Shown(mirror, batch), Stamped(stamps, batch, at), Later(newest, batch, at);
      if Carries(batch, k)
      then k in shown && k in stamped && stamped[k] == at && k in later
           && later[k] == if k in newest && newest[k] > at then newest[k] else at
      else (k in shown <==> k in mirror) && (k in stamped <==> k in stamps) && (k in stamps ==> stamped[k] == stamps[k])
           && (k in later <==> k in newest) && (k in newest ==> later[k] == newest[k])
  {
    if batch != [] {
      var n := |batch| - 1;
      BatchStamps(mirror, stamps, newest, batch[..n], at, k);
      CarriesOneMore(batch, k);
    }
  }

  lemma CarriesOneMore(batch: seq<Update>, k: Key)
    requires batch != []
    ensures Carries(batch, k) <==> Carries(batch[..|batch| - 1], k) || batch[|batch| - 1].key == k
  {
    if Carries(batch[..|batch| - 1], k) {
      var i :| 0 <= i < |batch| - 1 && batch[..|batch| - 1][i].key == k;
      assert batch[i].key == k;
    }
    if Carries(batch, k) && batch[|batch| - 1].key != k {
      var i :| 0 <= i < |batch| && batch[i].key == k;
      assert batch[..|batch| - 1][i].key == k;
    }
  }

  lemma DeliveryStamps(s: State, push: Id, k: Key, readings: seq<nat>)
    requires Truthful(s) && push in s.pushes && Stamps(s, k, readings)
    ensures Stamps(Delivered(s, push), k, readings + ReadingOf(s, Deliver(push), k))
  {
    var p := s.pushes[push];
    BatchStamps(s.mirror, s.shownAt, s.newest, NextBatch(p), p.readAt, k);
    NewestAppend(readings, p.readAt);
    assert ReadFrom(s.history, p.readAt, p.updates);
    assert readings + [] == readings;
  }

  lemma StepStamps(s: State, e: Event, k: Key, readings: seq<nat>)
    requires Truthful(s) && Stamps(s, k, readings)
    ensures Stamps(Step(s, e), k, readings + ReadingOf(s, e, k))
  {
    if e.Deliver? && e.push in s.pushes {
      DeliveryStamps(s, e.push, k, readings);
    } else {
      assert readings + [] == readings;
    }
  }

  lemma {:induction false} RunStamps(s: State, events: seq<Event>, k: Key)
    requires Truthful(s) && Stamps(s, k, [])
    ensures Stamps(Run(s, events), k, Readings(s, events, k))
  {
    if events != [] {
      var before := events[..|events| - 1];
      RunStamps(s, before, k);
      StepStamps(Run(s, before), events[|events| - 1], k, Readings(s, before, k));
    }
  }

  // ----- Exactly when a bucket is stale -----

  /**
   In every interleaving of changes and pushes: a bucket is shown exactly if some reading of it arrived, and is stale
   exactly if the reading that arrived last saw another image than the current one.
   */
  lemma StaleExactlyWhen(ledger: Ledger, events: seq<Event>, k: Key)
    ensures
      var r, readings := Run(Start(ledger), events), Readings(Start(ledger), events, k);
      && (k in r.mirror <==> readings != [])
      && (readings != [] ==>
            LastOf(readings) < |r.history| && (Stale(r, k) <==> Image(r.history[LastOf(readings)], k) != Image(r.history[Now(r)], k)))
  {
    var r, readings := Run(Start(ledger), events), Readings(Start(ledger), events, k);
    RunStamps(Start(ledger), events, k);
    assert ShowsPast(r, k);
    if readings != [] {
      NewestIsGreatest(readings);
    }
  }

  /**
   A bucket that has not changed since its newest reading that arrived is stale exactly if the one that arrived last
   saw another image than the newest: so only if an older reading arrived after it.
   */
  lemma OvertakenExactlyWhen(ledger: Ledger, events: seq<Event>, k: Key)
    ensures
      var r, readings := Run(Start(ledger), events), Readings(Start(ledger), events, k);
      readings != [] ==>
        && LastOf(readings) <= NewestOf(readings) < |r.history|
        && (UnchangedSince(r, k, NewestOf(readings)) ==>
              (Stale(r, k) <==> Image(r.history[LastOf(readings)], k) != Image(r.history[NewestOf(readings)], k)))
  {
    var r, readings := Run(Start(ledger), events), Readings(Start(ledger), events, k);
    StaleExactlyWhen(ledger, events, k);
    RunStamps(Start(ledger), events, k);
    if readings != [] {
      NewestIsGreatest(readings);
    }
  }

  predicate InOrder(readings: seq<nat>) {
    forall i, j :: 0 <= i < j < |readings| ==> readings[i] <= readings[j]
  }

  /** Overlap or not, readings of a bucket that arrive in the order in which they were made leave it current. */
  lemma InOrderConverges(ledger: Ledger, events: seq<Event>, k: Key)
    ensures
      var r, readings := Run(Start(ledger), events), Readings(Start(ledger), events, k);
      readings != [] && InOrder(readings) && UnchangedSince(r, k, NewestOf(readings)) ==>
        k in r.mirror && !Stale(r, k)
  {
    var readings := Readings(Start(ledger), events, k);
    StaleExactlyWhen(ledger, events, k);
    OvertakenExactlyWhen(ledger, events, k);
    if readings != [] && InOrder(readings) {
      NewestIsGreatest(readings);
      var i :| 0 <= i < |readings| && readings[i] == NewestOf(readings);
      assert readings[i] <= LastOf(readings);
    }
  }
}
