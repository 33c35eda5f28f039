/**
 The order in which compound tax rules apply: a queue over the rules whose dependency is settled,
 then whatever is left in input order. A code is the rank of its text.
 */
module CompoundOrder {
  import opened Base

  type Code = nat

  predicate NonDescending(xs: seq<Code>) {
    forall i, j :: 0 <= i < j < |xs| ==> xs[i] <= xs[j]
  }

  // ----- Sorting -----

  function Insert(x: Code, xs: seq<Code>): seq<Code> {
    if xs == [] || x <= xs[0] then [x] + xs else [xs[0]] + Insert(x, xs[1..])
  }

  function Sorted(xs: seq<Code>): seq<Code> {
    if xs == [] then [] else Insert(xs[|xs| - 1], Sorted(xs[..|xs| - 1]))
  }

  lemma {:induction false} InsertMembers(x: Code, xs: seq<Code>)
    ensures |Insert(x, xs)| == |xs| + 1
    ensures forall y :: y in Insert(x, xs) <==> y == x || y in xs
  {
    if xs != [] && x > xs[0] {
      InsertMembers(x, xs[1..]);
      assert xs == [xs[0]] + xs[1..];
    }
  }

  lemma Prepend(x: Code, rest: seq<Code>)
    requires NonDescending(rest) && forall y :: y in rest ==> x <= y
    ensures NonDescending([x] + rest)
    ensures Distinct(rest) && x !in rest ==> Distinct([x] + rest)
  {
    forall i | 0 <= i < |rest| ensures x <= rest[i] {
      assert rest[i] in rest;
    }
  }

  lemma {:induction false} InsertShape(x: Code, xs: seq<Code>)
    requires NonDescending(xs)
    ensures NonDescending(Insert(x, xs))
    ensures Distinct(xs) && x !in xs ==> Distinct(Insert(x, xs))
  {
    if xs == [] || x <= xs[0] {
      Prepend(x, xs);
    } else {
      InsertShape(x, xs[1..]);
      InsertMembers(x, xs[1..]);
      Prepend(xs[0], Insert(x, xs[1..]));
    }
  }

  lemma {:induction false} SortedShape(xs: seq<Code>)
    ensures NonDescending(Sorted(xs)) && |Sorted(xs)| == |xs|
    ensures forall y :: y in Sorted(xs) <==> y in xs
    ensures Distinct(xs) ==> Distinct(Sorted(xs))
  {
    if xs != [] {
      var n := |xs| - 1;
      SortedShape(xs[..n]);
      InsertShape(xs[n], Sorted(xs[..n]));
      InsertMembers(xs[n], Sorted(xs[..n]));
      assert xs == xs[..n] + [xs[n]];
    }
  }

  lemma {:induction false} DistinctFits(xs: seq<Code>, ys: seq<Code>)
    requires Distinct(xs) && forall x :: x in xs ==> x in ys
    ensures |xs| <= |ys|
  {
    if xs != [] {
      var n := |xs| - 1;
      assert xs[n] in xs;
      var i :| 0 <= i < |ys| && ys[i] == xs[n];
      var others := ys[..i] + ys[i + 1..];
      forall x | x in xs[..n] ensures x in others {
        assert x in xs;
        var j :| 0 <= j < |ys| && ys[j] == x;
        assert x == others[if j < i then j else j - 1];
      }
      DistinctFits(xs[..n], others);
    }
  }

  // ----- Dependencies -----

  /** The compound rules in input order, what each comes after, and the codes of all active rules. */
  datatype Rules = Rules(nodes: seq<Code>, deps: map<Code, Option<Code>>, known: set<Code>) {
    predicate Valid() {
      Distinct(nodes) && forall c :: c in nodes ==> c in deps && c in known
    }

    /** A rule that waits for nothing: no readable dependency, or one that names no active rule. */
    predicate Root(c: Code) {
      c in deps && (deps[c].None? || deps[c].value !in known)
    }

    /** c comes directly after the active rule d. */
    predicate Follows(c: Code, d: Code) {
      c in deps && deps[c] == Some(d) && d in known
    }

    /** The chain of dependencies from c ends, after n steps through compound rules, at an unknown code or none. */
    ghost predicate GroundedIn(c: Code, n: nat)
      decreases n
    {
      c in nodes && if n == 0 then Root(c) else c in deps && deps[c].Some? && Follows(c, deps[c].value) && GroundedIn(deps[c].value, n - 1)
    }

    ghost predicate Grounded(c: Code) {
      exists n :: GroundedIn(c, n)
    }
  }

  /** Those of the rules that directly follow d, in input order. */
  function Followers(r: Rules, d: Code, nodes: seq<Code>): seq<Code> {
    if nodes == [] then [] else
    var last := nodes[|nodes| - 1];
    Followers(r, d, nodes[..|nodes| - 1]) + if r.Follows(last, d) then [last] else []
  }

  function Roots(r: Rules, nodes: seq<Code>): seq<Code> {
    if nodes == [] then [] else
    var last := nodes[|nodes| - 1];
    Roots(r, nodes[..|nodes| - 1]) + if r.Root(last) then [last] else []
  }

  /** The rules not in `placed`, in input order. */
  function Rest(nodes: seq<Code>, placed: seq<Code>): seq<Code> {
    if nodes == [] then [] else
    var last := nodes[|nodes| - 1];
    Rest(nodes[..|nodes| - 1], placed) + if last in placed then [] else [last]
  }

  lemma {:induction false} FollowersShape(r: Rules, d: Code, nodes: seq<Code>)
    requires Distinct(nodes)
    ensures Distinct(Followers(r, d, nodes))
    ensures forall c :: c in Followers(r, d, nodes) <==> c in nodes && r.Follows(c, d)
  {
    if nodes != [] {
      FollowersShape(r, d, nodes[..|nodes| - 1]);
      assert nodes == nodes[..|nodes| - 1] + [nodes[|nodes| - 1]];
    }
  }

  lemma {:induction false} RootsShape(r: Rules, nodes: seq<Code>)
    requires Distinct(nodes)
    ensures Distinct(Roots(r, nodes))
    ensures forall c :: c in Roots(r, nodes) <==> c in nodes && r.Root(c)
  {
    if nodes != [] {
      RootsShape(r, nodes[..|nodes| - 1]);
      assert nodes == nodes[..|nodes| - 1] + [nodes[|nodes| - 1]];
    }
  }

  lemma {:induction false} RestShape(nodes: seq<Code>, placed: seq<Code>)
    requires Distinct(nodes)
    ensures Distinct(Rest(nodes, placed))
    ensures forall c :: c in Rest(nodes, placed) <==> c in nodes && c !in placed
  {
    if nodes != [] {
      RestShape(nodes[..|nodes| - 1], placed);
      assert nodes == nodes[..|nodes| - 1] + [nodes[|nodes| - 1]];
    }
  }

  // ----- The queue phase -----

  /** What leaving the queue lets in: the followers of d, sorted. */
  function Block(r: Rules, d: Code): seq<Code> {
    Sorted(Followers(r, d, r.nodes))
  }

  /** The blocks let in by each rule of a sequence, one after the other. */
  function Blocks(r: Rules, done: seq<Code>): seq<Code> {
    if done == [] then [] else Blocks(r, done[..|done| - 1]) + Block(r, done[|done| - 1])
  }

  lemma BlockShape(r: Rules, d: Code)
    requires r.Valid()
    ensures Distinct(Block(r, d)) && forall c :: c in Block(r, d) <==> c in r.nodes && r.Follows(c, d)
  {
    FollowersShape(r, d, r.nodes);
    SortedShape(Followers(r, d, r.nodes));
  }

  /** Of the rules `seen` so far the first n have left the queue: it started with the sorted roots and grew block by block. */
  ghost predicate Level(r: Rules, seen: seq<Code>, n: nat) {
    n <= |seen| && seen == Sorted(Roots(r, r.nodes)) + Blocks(r, seen[..n])
  }

  /** Seen are exactly the roots and the followers of what has left the queue. */
  ghost predicate Members(r: Rules, seen: seq<Code>, n: nat) {
    && n <= |seen|
    && (forall i :: 0 <= i < |seen| ==> seen[i] in r.nodes && Admitted(r, seen[i], seen[..n]))
    && forall c :: c in r.nodes && Admitted(r, c, seen[..n]) ==> c in seen
  }

  ghost predicate Admitted(r: Rules, c: Code, done: seq<Code>) {
    r.Root(c) || exists d :: d in done && r.Follows(c, d)
  }

  /** Each position holds a root, or comes after its dependency. */
  ghost predicate InOrder(r: Rules, seen: seq<Code>) {
    forall i :: 0 <= i < |seen| ==> Admitted(r, seen[i], seen[..i])
  }

  ghost predicate Phase(r: Rules, seen: seq<Code>, n: nat) {
    Level(r, seen, n) && Members(r, seen, n) && InOrder(r, seen) && Distinct(seen)
  }

  lemma PhaseStarts(r: Rules)
    requires r.Valid()
    ensures Phase(r, Sorted(Roots(r, r.nodes)), 0)
  {
    var seen := Sorted(Roots(r, r.nodes));
    RootsShape(r, r.nodes);
    SortedShape(Roots(r, r.nodes));
    assert seen[..0] == [] && seen + [] == seen;
    forall i | 0 <= i < |seen| ensures r.Root(seen[i]) && seen[i] in r.nodes {
      assert seen[i] in seen;
    }
  }

  /** No follower of the rule at the head of the queue has been seen. */
  lemma BlockIsNew(r: Rules, seen: seq<Code>, n: nat)
    requires Members(r, seen, n) && Distinct(seen) && n < |seen|
    ensures forall c :: r.Follows(c, seen[n]) ==> c !in seen
  {
    forall i | 0 <= i < |seen| ensures !r.Follows(seen[i], seen[n]) {
      assert Admitted(r, seen[i], seen[..n]);
    }
  }

  lemma LevelAdvances(r: Rules, seen: seq<Code>, n: nat)
    requires Level(r, seen, n) && n < |seen|
    ensures Level(r, seen + Block(r, seen[n]), n + 1)
  {
    var next := seen + Block(r, seen[n]);
    assert next[..n + 1] == seen[..n] + [seen[n]];
    assert (seen[..n] + [seen[n]])[..n] == seen[..n];
  }

  lemma MembersAdvance(r: Rules, seen: seq<Code>, n: nat, next: seq<Code>)
    requires r.Valid() && Members(r, seen, n) && n < |seen| && next == seen + Block(r, seen[n])
    ensures Members(r, next, n + 1)
  {
    var d := seen[n];
    BlockShape(r, d);
    assert next[..n + 1] == seen[..n] + [d];
    forall i | 0 <= i < |next| ensures next[i] in r.nodes && Admitted(r, next[i], next[..n + 1]) {
      if i < |seen| {
        assert Admitted(r, seen[i], seen[..n]);
      } else {
        assert next[i] == Block(r, d)[i - |seen|] && next[i] in Block(r, d);
        assert d in next[..n + 1];
      }
    }
    forall c | c in r.nodes && Admitted(r, c, next[..n + 1]) ensures c in next {
      if !Admitted(r, c, seen[..n]) {
        assert r.Follows(c, d);
        assert c in Block(r, d);
      }
    }
  }

  lemma OrderAdvances(r: Rules, seen: seq<Code>, n: nat, next: seq<Code>)
    requires r.Valid() && InOrder(r, seen) && n < |seen| && next == seen + Block(r, seen[n])
    ensures InOrder(r, next)
  {
    BlockShape(r, seen[n]);
    forall i | 0 <= i < |next| ensures Admitted(r, next[i], next[..i]) {
      if i < |seen| {
        assert next[..i] == seen[..i] && Admitted(r, seen[i], seen[..i]);
      } else {
        assert next[i] == Block(r, seen[n])[i - |seen|] && next[i] in Block(r, seen[n]);
        assert next[..i][n] == seen[n];
      }
    }
  }

  lemma PhaseAdvances(r: Rules, seen: seq<Code>, n: nat)
    requires r.Valid() && Phase(r, seen, n) && n < |seen|
    ensures Phase(r, seen + Block(r, seen[n]), n + 1)
  {
    var next := seen + Block(r, seen[n]);
    LevelAdvances(r, seen, n);
    MembersAdvance(r, seen, n, next);
    OrderAdvances(r, seen, n, next);
    BlockIsNew(r, seen, n);
    BlockShape(r, seen[n]);
    DistinctConcat(seen, Block(r, seen[n]));
  }

  lemma DistinctConcat(xs: seq<Code>, ys: seq<Code>)
    requires Distinct(xs) && Distinct(ys) && forall y :: y in ys ==> y !in xs
    ensures Distinct(xs + ys)
  {
    forall i, j | 0 <= i < j < |xs + ys| ensures (xs + ys)[i] != (xs + ys)[j] {
      if i < |xs| <= j {
        assert ys[j - |xs|] in ys && xs[i] in xs;
      }
    }
  }

  lemma PhaseFits(r: Rules, seen: seq<Code>, n: nat)
    requires Phase(r, seen, n)
    ensures |seen| <= |r.nodes|
  {
    forall x | x in seen ensures x in r.nodes {
      var i :| 0 <= i < |seen| && seen[i] == x;
    }
    DistinctFits(seen, r.nodes);
  }

  /** What the queue emits once the first n of the rules seen so far have left it. */
  ghost function Emitted(r: Rules, seen: seq<Code>, n: nat): (front: seq<Code>)
    requires r.Valid() && Phase(r, seen, n)
    ensures Phase(r, front, |front|)
    decreases |r.nodes| - n
  {
    if n == |seen| then seen else
    PhaseFits(r, seen, n);
    PhaseAdvances(r, seen, n);
    Emitted(r, seen + Block(r, seen[n]), n + 1)
  }

  /** The rules the queue emits, in the order they leave it. */
  ghost function Front(r: Rules): (front: seq<Code>)
    requires r.Valid()
    ensures Phase(r, front, |front|)
  {
    PhaseStarts(r);
    Emitted(r, Sorted(Roots(r, r.nodes)), 0)
  }

  /** The whole order: what the queue emits, then the rules it did not reach in input order. */
  ghost function Order(r: Rules): seq<Code>
    requires r.Valid()
  {
    Front(r) + Rest(r.nodes, Front(r))
  }

  // ----- The computation -----

  /** How many known rules c waits for. */
  function Waits(r: Rules, c: Code): int {
    if r.Root(c) then 0 else 1
  }

  /** Looking up a dictionary of lists, empty by default. */
  function At(adj: map<Code, seq<Code>>, d: Code): seq<Code> {
    if d in adj then adj[d] else []
  }

  ghost predicate InDegrees(r: Rules, indeg: map<Code, int>, nodes: seq<Code>) {
    forall c :: c in nodes ==> c in indeg && indeg[c] == Waits(r, c)
  }

  ghost predicate Adjacency(r: Rules, adj: map<Code, seq<Code>>, nodes: seq<Code>) {
    forall d :: At(adj, d) == Followers(r, d, nodes)
  }

  /** The adjacency lists with c added under the rule it follows. */
  function Linked(r: Rules, c: Code, adj: map<Code, seq<Code>>): map<Code, seq<Code>>
    requires c in r.deps
  {
    if r.Root(c) then adj else
    var d := r.deps[c].value;
    adj[d := At(adj, d) + [c]]
  }

  lemma OneMoreFollower(r: Rules, i: nat, d: Code)
    requires i < |r.nodes|
    ensures Followers(r, d, r.nodes[..i + 1]) == Followers(r, d, r.nodes[..i]) + if r.Follows(r.nodes[i], d) then [r.nodes[i]] else []
  {
    assert r.nodes[..i + 1][..i] == r.nodes[..i];
  }

  lemma OneMoreNode(r: Rules, i: nat, indeg: map<Code, int>, adj: map<Code, seq<Code>>)
    requires i < |r.nodes| && r.nodes[i] in r.deps
    requires InDegrees(r, indeg, r.nodes[..i]) && Adjacency(r, adj, r.nodes[..i])
    ensures InDegrees(r, indeg[r.nodes[i] := Waits(r, r.nodes[i])], r.nodes[..i + 1])
    ensures Adjacency(r, Linked(r, r.nodes[i], adj), r.nodes[..i + 1])
  {
    var c := r.nodes[i];
    forall d ensures At(Linked(r, c, adj), d) == Followers(r, d, r.nodes[..i + 1]) {
      assert At(adj, d) == Followers(r, d, r.nodes[..i]);
      OneMoreFollower(r, i, d);
    }
    assert r.nodes[..i + 1] == r.nodes[..i] + [c];
  }

  method AddNode(r: Rules, c: Code, indeg: map<Code, int>, adj: map<Code, seq<Code>>)
    returns (indeg': map<Code, int>, adj': map<Code, seq<Code>>)
    requires c in r.deps
    ensures indeg' == indeg[c := Waits(r, c)] && adj' == Linked(r, c, adj)
  {
    indeg', adj' := indeg[c := 0], adj;
    if r.deps[c].Some? && r.deps[c].value in r.known {
      var d := r.deps[c].value;
      adj' := adj'[d := At(adj', d) + [c]];
      indeg' := indeg'[c := indeg'[c] + 1];
    }
  }

  /** In-degrees and adjacency lists, built rule by rule. */
  method BuildGraph(r: Rules) returns (indeg: map<Code, int>, adj: map<Code, seq<Code>>)
    requires r.Valid()
    ensures InDegrees(r, indeg, r.nodes) && Adjacency(r, adj, r.nodes)
  {
    indeg, adj := map[], map[];
    for i := 0 to |r.nodes|
      invariant InDegrees(r, indeg, r.nodes[..i]) && Adjacency(r, adj, r.nodes[..i])
    {
      OneMoreNode(r, i, indeg, adj);
      indeg, adj := AddNode(r, r.nodes[i], indeg, adj);
    }
    assert r.nodes[..|r.nodes|] == r.nodes;
  }

  /** The rules with nothing to wait for, in input order. */
  method Ready(r: Rules, indeg: map<Code, int>) returns (ready: seq<Code>)
    requires r.Valid() && InDegrees(r, indeg, r.nodes)
    ensures ready == Roots(r, r.nodes)
  {
    ready := [];
    for i := 0 to |r.nodes|
      invariant ready == Roots(r, r.nodes[..i])
    {
      assert r.nodes[..i + 1][..i] == r.nodes[..i];
      if indeg[r.nodes[i]] == 0 {
        ready := ready + [r.nodes[i]];
      }
    }
    assert r.nodes[..|r.nodes|] == r.nodes;
  }

  /** One rule leaves the queue: each follower loses its only dependency and joins. */
  method Release(indeg: map<Code, int>, queue: seq<Code>, followers: seq<Code>) returns (left: map<Code, int>, q: seq<Code>)
    requires Distinct(followers) && forall m :: m in followers ==> m in indeg && indeg[m] == 1
    ensures q == queue + followers
    ensures left.Keys == indeg.Keys && forall c :: c in indeg ==> left[c] == if c in followers then 0 else indeg[c]
  {
    left, q := indeg, queue;
    for i := 0 to |followers|
      invariant q == queue + followers[..i]
      invariant left.Keys == indeg.Keys && forall c :: c in indeg ==> left[c] == if c in followers[..i] then 0 else indeg[c]
    {
      var m := followers[i];
      assert m !in followers[..i];
      left := left[m := left[m] - 1];
      if left[m] == 0 {
        q := q + [m];
      }
    }
    assert followers[..|followers|] == followers;
  }

  /** In-degrees after some rules have been seen. */
  ghost predicate Degrees(r: Rules, indeg: map<Code, int>, seen: seq<Code>) {
    forall c :: c in r.nodes ==> c in indeg && indeg[c] == if c in seen then 0 else 1
  }

  /** Popping position k and appending, seen on the whole sequence. */
  lemma QueueStep(seen: seq<Code>, k: nat, more: seq<Code>)
    requires k < |seen|
    ensures (seen + more)[..k + 1] == seen[..k] + [seen[k]]
    ensures (seen + more)[k + 1..] == seen[k..][1..] + more
  {
  }

  /** The followers about to be released are waiting: each still has its one dependency. */
  lemma BlockWaits(r: Rules, seen: seq<Code>, k: nat, indeg: map<Code, int>)
    requires r.Valid() && Members(r, seen, k) && Distinct(seen) && k < |seen| && Degrees(r, indeg, seen)
    ensures Distinct(Block(r, seen[k])) && forall m :: m in Block(r, seen[k]) ==> m in indeg && indeg[m] == 1
  {
    BlockIsNew(r, seen, k);
    BlockShape(r, seen[k]);
  }

  lemma DegreesAdvance(r: Rules, indeg: map<Code, int>, left: map<Code, int>, seen: seq<Code>, block: seq<Code>)
    requires Degrees(r, indeg, seen) && left.Keys == indeg.Keys
    requires forall c :: c in indeg ==> left[c] == if c in block then 0 else indeg[c]
    ensures Degrees(r, left, seen + block)
  {
  }

  /** The queue and its in-degrees once the first k seen rules have left it. */
  ghost predicate Queued(r: Rules, seen: seq<Code>, k: nat, indeg: map<Code, int>, q: seq<Code>) {
    Phase(r, seen, k) && Degrees(r, indeg, seen) && q == seen[k..]
  }

  method StartQueue(r: Rules) returns (indeg: map<Code, int>, adj: map<Code, seq<Code>>, q: seq<Code>)
    requires r.Valid()
    ensures Queued(r, q, 0, indeg, q) && Emitted(r, q, 0) == Front(r)
    ensures Adjacency(r, adj, r.nodes)
  {
    indeg, adj := BuildGraph(r);
    var ready := Ready(r, indeg);
    q := Sorted(ready);
    PhaseStarts(r);
    RootsShape(r, r.nodes);
    SortedShape(ready);
  }

  /** One turn of the queue: its head leaves and lets its sorted followers in. */
  method QueueTurn(r: Rules, ghost seen: seq<Code>, ghost k: nat, followers: seq<Code>, indeg: map<Code, int>, q: seq<Code>)
    returns (left: map<Code, int>, rest: seq<Code>)
    requires r.Valid() && k < |seen| && Queued(r, seen, k, indeg, q)
    requires followers == Block(r, seen[k])
    ensures Queued(r, seen + followers, k + 1, left, rest)
  {
    BlockWaits(r, seen, k, indeg);
    left, rest := Release(indeg, q[1..], followers);
    PhaseAdvances(r, seen, k);
    DegreesAdvance(r, indeg, left, seen, followers);
    QueueStep(seen, k, followers);
  }

  method QueuePhase(r: Rules) returns (front: seq<Code>)
    requires r.Valid()
    ensures front == Front(r)
  {
    var indeg, adj, q := StartQueue(r);
    front := [];
    ghost var seen := q;
    while q != []
      invariant |front| <= |seen| && front == seen[..|front|]
      invariant Queued(r, seen, |front|, indeg, q) && Emitted(r, seen, |front|) == Front(r)
      decreases |r.nodes| - |front|
    {
      PhaseFits(r, seen, |front|);
      var n := q[0];
      var followers := Sorted(At(adj, n));
      QueueStep(seen, |front|, followers);
      indeg, q := QueueTurn(r, seen, |front|, followers, indeg, q);
      front := front + [n];
      seen := seen + followers;
    }
    assert front == seen;
  }

  /** When the queue has emitted as many rules as there are, nothing is left over. */
  lemma NothingLeft(r: Rules, front: seq<Code>)
    requires Phase(r, front, |front|) && r.Valid() && |front| == |r.nodes|
    ensures Rest(r.nodes, front) == []
  {
    RestShape(r.nodes, front);
    var rest := Rest(r.nodes, front);
    if rest != [] {
      var c := rest[0];
      assert c in rest;
      DistinctConcat(front, [c]);
      DistinctFits(front + [c], r.nodes);
    }
  }

  /** The rules the queue did not reach are appended in input order. */
  method AppendRest(nodes: seq<Code>, front: seq<Code>) returns (ordered: seq<Code>)
    requires Distinct(nodes)
    ensures ordered == front + Rest(nodes, front)
  {
    ordered := front;
    for i := 0 to |nodes|
      invariant ordered == front + Rest(nodes[..i], front)
    {
      assert nodes[..i + 1][..i] == nodes[..i];
      RestShape(nodes[..i], front);
      if nodes[i] !in ordered {
        ordered := ordered + [nodes[i]];
      }
    }
    assert nodes[..|nodes|] == nodes;
  }

  method OrderCompound(r: Rules) returns (ordered: seq<Code>)
    requires r.Valid()
    ensures ordered == Order(r)
  {
    ordered := QueuePhase(r);
    if |ordered| != |r.nodes| {
      ordered := AppendRest(r.nodes, ordered);
    } else {
      NothingLeft(r, ordered);
    }
  }

  // ----- What the order means -----

  lemma {:induction false} GroundedIsEmitted(r: Rules, front: seq<Code>, c: Code, n: nat)
    requires Members(r, front, |front|) && r.GroundedIn(c, n)
    ensures c in front
    decreases n
  {
    assert front[..|front|] == front;
    if n > 0 {
      GroundedIsEmitted(r, front, r.deps[c].value, n - 1);
    }
    assert Admitted(r, c, front);
  }

  lemma {:induction false} EmittedIsGrounded(r: Rules, front: seq<Code>, i: nat)
    requires Members(r, front, |front|) && InOrder(r, front) && i < |front|
    ensures r.Grounded(front[i])
  {
    assert Admitted(r, front[i], front[..i]);
    if r.Root(front[i]) {
      assert r.GroundedIn(front[i], 0);
    } else {
      var d :| d in front[..i] && r.Follows(front[i], d);
      var j :| 0 <= j < i && front[..i][j] == d;
      EmittedIsGrounded(r, front, j);
      var n: nat :| r.GroundedIn(d, n);
      assert r.GroundedIn(front[i], n + 1);
    }
  }

  /**
   The order is the rules themselves, each once; the queue emits exactly the grounded ones, each
   after its dependency; the others follow in input order.
   */
  lemma OrderMeaning(r: Rules)
    requires r.Valid()
    ensures Distinct(Order(r)) && forall c :: c in Order(r) <==> c in r.nodes
    ensures Order(r) == Front(r) + Rest(r.nodes, Front(r))
    ensures forall c :: c in Front(r) <==> r.Grounded(c)
    ensures forall c :: c in Rest(r.nodes, Front(r)) <==> c in r.nodes && !r.Grounded(c)
    ensures InOrder(r, Front(r))
  {
    var front := Front(r);
    RestShape(r.nodes, front);
    DistinctConcat(front, Rest(r.nodes, front));
    forall c ensures c in front ==> c in r.nodes && r.Grounded(c) {
      if c in front {
        var i :| 0 <= i < |front| && front[i] == c;
        EmittedIsGrounded(r, front, i);
      }
    }
    forall c ensures r.Grounded(c) ==> c in front {
      if r.Grounded(c) {
        var n: nat :| r.GroundedIn(c, n);
        GroundedIsEmitted(r, front, c, n);
      }
    }
  }

  /** A rule that comes after a non-compound rule, or whose chain goes round a cycle of length p, is never grounded. */
  lemma NeverGrounded(r: Rules, chain: seq<Code>)
    requires chain != [] && forall i :: 0 <= i < |chain| - 1 ==> r.Follows(chain[i], chain[i + 1])
    requires
      var last := chain[|chain| - 1];
      || last !in r.nodes
      || exists i :: 0 <= i < |chain| && r.Follows(last, chain[i])
    ensures !r.Grounded(chain[0])
  {
    forall n: nat ensures !r.GroundedIn(chain[0], n) {
      NotGroundedIn(r, chain, 0, n);
    }
  }

  lemma {:induction false} NotGroundedIn(r: Rules, chain: seq<Code>, at: nat, n: nat)
    requires at < |chain| && forall i :: 0 <= i < |chain| - 1 ==> r.Follows(chain[i], chain[i + 1])
    requires
      var last := chain[|chain| - 1];
      || last !in r.nodes
      || exists i :: 0 <= i < |chain| && r.Follows(last, chain[i])
    ensures !r.GroundedIn(chain[at], n)
    decreases n
  {
    if n > 0 {
      if at + 1 < |chain| {
        assert r.Follows(chain[at], chain[at + 1]);
        NotGroundedIn(r, chain, at + 1, n - 1);
      } else if chain[at] in r.nodes {
        var i :| 0 <= i < |chain| && r.Follows(chain[at], chain[i]);
        NotGroundedIn(r, chain, i, n - 1);
      }
    } else if at + 1 < |chain| {
      assert r.Follows(chain[at], chain[at + 1]);
    }
  }

  // ----- When a chain is followed -----

  ghost predicate Before(xs: seq<Code>, a: Code, b: Code) {
    exists i, j :: 0 <= i < j < |xs| && xs[i] == a && xs[j] == b
  }

  lemma BeforeAppend(xs: seq<Code>, x: Code, a: Code, b: Code)
    ensures Before(xs + [x], a, b) <==> Before(xs, a, b) || (a in xs && b == x)
  {
    var ys := xs + [x];
    if Before(xs, a, b) {
      var i, j :| 0 <= i < j < |xs| && xs[i] == a && xs[j] == b;
      assert ys[i] == a && ys[j] == b;
    }
    if a in xs && b == x {
      var i :| 0 <= i < |xs| && xs[i] == a;
      assert ys[i] == a && ys[|xs|] == b;
    }
    if Before(ys, a, b) {
      var i, j :| 0 <= i < j < |ys| && ys[i] == a && ys[j] == b;
      assert xs[i] == a;
      assert j < |xs| ==> xs[j] == b;
    }
  }

  /** What is left over keeps its input order. */
  lemma {:induction false} RestKeepsOrder(nodes: seq<Code>, placed: seq<Code>, a: Code, b: Code)
    requires Distinct(nodes) && a !in placed && b !in placed
    ensures Before(Rest(nodes, placed), a, b) <==> Before(nodes, a, b)
  {
    if nodes != [] {
      var rest, last := nodes[..|nodes| - 1], nodes[|nodes| - 1];
      RestKeepsOrder(rest, placed, a, b);
      RestShape(rest, placed);
      assert nodes == rest + [last];
      BeforeAppend(rest, last, a, b);
      if last in placed {
        assert Rest(nodes, placed) == Rest(rest, placed);
      } else {
        BeforeAppend(Rest(rest, placed), last, a, b);
      }
    }
  }

  lemma BeforeInSecond(xs: seq<Code>, ys: seq<Code>, a: Code, b: Code)
    requires a !in xs && b !in xs
    ensures Before(xs + ys, a, b) <==> Before(ys, a, b)
  {
    var zs := xs + ys;
    forall k | 0 <= k < |xs| ensures zs[k] in xs {
    }
    if Before(zs, a, b) {
      var i, j :| 0 <= i < j < |zs| && zs[i] == a && zs[j] == b;
      assert ys[i - |xs|] == a && ys[j - |xs|] == b;
    }
    if Before(ys, a, b) {
      var i, j :| 0 <= i < j < |ys| && ys[i] == a && ys[j] == b;
      assert zs[|xs| + i] == a && zs[|xs| + j] == b;
    }
  }

  /** A grounded rule is charged after its dependency. */
  lemma GroundedFollows(r: Rules, c: Code, d: Code)
    requires r.Valid() && r.Follows(c, d) && r.Grounded(c)
    ensures Before(Order(r), d, c)
  {
    OrderMeaning(r);
    DependencyFirst(r, Front(r), c, d);
    BeforeInFirst(Front(r), Rest(r.nodes, Front(r)), d, c);
  }

  lemma DependencyFirst(r: Rules, front: seq<Code>, c: Code, d: Code)
    requires InOrder(r, front) && c in front && r.Follows(c, d)
    ensures Before(front, d, c)
  {
    var j :| 0 <= j < |front| && front[j] == c;
    assert Admitted(r, front[j], front[..j]);
    var i :| 0 <= i < j && front[..j][i] == d;
    assert front[i] == d;
  }

  lemma BeforeInFirst(xs: seq<Code>, ys: seq<Code>, a: Code, b: Code)
    requires Before(xs, a, b)
    ensures Before(xs + ys, a, b)
  {
    var i, j :| 0 <= i < j < |xs| && xs[i] == a && xs[j] == b;
    assert (xs + ys)[i] == a && (xs + ys)[j] == b;
  }

  lemma GroundedAlong(r: Rules, c: Code, d: Code)
    requires c in r.nodes && r.Follows(c, d) && r.Grounded(d)
    ensures r.Grounded(c)
  {
    var n: nat :| r.GroundedIn(d, n);
    assert r.GroundedIn(c, n + 1);
  }

  /**
   The engine's description promises the order of the chain. A compound rule is charged after the compound rule it
   names if and only if the chain is grounded or the input already lists them in that order.
   */
  lemma ChainIsFollowedExactlyWhen(r: Rules, c: Code, d: Code)
    requires r.Valid() && c in r.nodes && d in r.nodes && r.Follows(c, d)
    ensures Before(Order(r), d, c) <==> r.Grounded(c) || Before(r.nodes, d, c)
  {
    OrderMeaning(r);
    if r.Grounded(c) {
      GroundedFollows(r, c, d);
    } else {
      if r.Grounded(d) {
        GroundedAlong(r, c, d);
      }
      RestKeepsOrder(r.nodes, Front(r), d, c);
      BeforeInSecond(Front(r), Rest(r.nodes, Front(r)), d, c);
    }
  }

  /** Rule 2 after rule 1, rule 1 after the non-compound rule 0, listed the wrong way round: 2 is charged first. */
  lemma ChainNeedNotBeFollowed()
    ensures
      var r := Rules([2, 1], map[2 := Some(1), 1 := Some(0)], {0, 1, 2});
      r.Valid() && r.Follows(2, 1) && !Before(Order(r), 1, 2)
  {
    var r := Rules([2, 1], map[2 := Some(1), 1 := Some(0)], {0, 1, 2});
    NeverGrounded(r, [2, 1, 0]);
    ChainIsFollowedExactlyWhen(r, 2, 1);
  }
}
