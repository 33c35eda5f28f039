/** Which of two compound rules applies first, for every pair of them: the queue's order told without the queue. */
module EmissionOrder {
  import opened Base
  import opened CompoundOrder

  /** The rule that a rule with a known dependency waits for. */
  function Awaited(r: Rules, c: Code): Code
    requires c in r.deps && !r.Root(c)
  {
    r.deps[c].value
  }

  // ----- Places in a sequence -----

  lemma BeforeAcross(xs: seq<Code>, ys: seq<Code>, a: Code, b: Code)
    requires a in xs && b in ys
    ensures Before(xs + ys, a, b)
  {
    var i :| 0 <= i < |xs| && xs[i] == a;
    var j :| 0 <= j < |ys| && ys[j] == b;
    assert (xs + ys)[i] == a && (xs + ys)[|xs| + j] == b;
  }

  lemma BeforeBehind(xs: seq<Code>, ys: seq<Code>, a: Code, b: Code)
    requires Before(ys, a, b)
    ensures Before(xs + ys, a, b)
  {
    var i, j :| 0 <= i < j < |ys| && ys[i] == a && ys[j] == b;
    assert (xs + ys)[|xs| + i] == a && (xs + ys)[|xs| + j] == b;
  }

  lemma SmallerIsBefore(xs: seq<Code>, a: Code, b: Code)
    requires NonDescending(xs) && a in xs && b in xs && a < b
    ensures Before(xs, a, b)
  {
    var i :| 0 <= i < |xs| && xs[i] == a;
    var j :| 0 <= j < |xs| && xs[j] == b;
    assert i < j;
  }

  lemma OneWay(xs: seq<Code>, a: Code, b: Code)
    requires Distinct(xs) && a in xs && b in xs && a != b
    ensures Before(xs, a, b) <==> !Before(xs, b, a)
  {
    var i :| 0 <= i < |xs| && xs[i] == a;
    var j :| 0 <= j < |xs| && xs[j] == b;
    if i < j {
      assert Before(xs, a, b);
    } else {
      assert Before(xs, b, a);
    }
  }

  // ----- Blocks -----

  lemma {:induction false} InBlocks(r: Rules, done: seq<Code>, d: Code, c: Code)
    requires d in done && c in Block(r, d)
    ensures c in Blocks(r, done)
  {
    var n := |done| - 1;
    if done[n] != d {
      var i :| 0 <= i < |done| && done[i] == d;
      assert done[..n][i] == d;
      InBlocks(r, done[..n], d, c);
    }
  }

  /** The followers of an earlier rule come before those of a later one. */
  lemma {:induction false} BlocksInTurn(r: Rules, done: seq<Code>, d: Code, e: Code, a: Code, b: Code)
    requires Before(done, d, e) && a in Block(r, d) && b in Block(r, e)
    ensures Before(Blocks(r, done), a, b)
  {
    var n := |done| - 1;
    assert done == done[..n] + [done[n]];
    BeforeAppend(done[..n], done[n], d, e);
    if Before(done[..n], d, e) {
      BlocksInTurn(r, done[..n], d, e, a, b);
      BeforeInFirst(Blocks(r, done[..n]), Block(r, done[n]), a, b);
    } else {
      InBlocks(r, done[..n], d, a);
      BeforeAcross(Blocks(r, done[..n]), Block(r, done[n]), a, b);
    }
  }

  /** The followers of one rule keep the order of their block. */
  lemma {:induction false} WithinBlock(r: Rules, done: seq<Code>, d: Code, a: Code, b: Code)
    requires d in done && Before(Block(r, d), a, b)
    ensures Before(Blocks(r, done), a, b)
  {
    var n := |done| - 1;
    if done[n] == d {
      BeforeBehind(Blocks(r, done[..n]), Block(r, d), a, b);
    } else {
      var i :| 0 <= i < |done| && done[i] == d;
      assert done[..n][i] == d;
      WithinBlock(r, done[..n], d, a, b);
      BeforeInFirst(Blocks(r, done[..n]), Block(r, done[n]), a, b);
    }
  }

  // ----- Two rules of the queue -----

  lemma FollowerIsInBlock(r: Rules, c: Code)
    requires r.Valid() && c in Front(r) && !r.Root(c)
    ensures c in r.deps && Awaited(r, c) in Front(r) && c in Block(r, Awaited(r, c))
  {
    var front := Front(r);
    var i :| 0 <= i < |front| && front[i] == c;
    assert front[..|front|] == front;
    assert c in r.nodes && Admitted(r, c, front);
    BlockShape(r, Awaited(r, c));
  }

  /** One root before another in the order of their codes, roots before the rest, and rules with one dependency in the order of their codes. */
  ghost predicate First(r: Rules, a: Code, b: Code)
    requires r.Valid() && a in r.nodes && b in r.nodes
  {
    if r.Root(a) then r.Root(b) ==> a < b
    else !r.Root(b) && if Awaited(r, a) == Awaited(r, b) then a < b else Before(Front(r), Awaited(r, a), Awaited(r, b))
  }

  lemma FirstIsBefore(r: Rules, a: Code, b: Code)
    requires r.Valid() && a in Front(r) && b in Front(r) && a in r.nodes && b in r.nodes && a != b && First(r, a, b)
    ensures Before(Front(r), a, b)
  {
    var front, roots := Front(r), Sorted(Roots(r, r.nodes));
    assert front[..|front|] == front;
    RootsShape(r, r.nodes);
    SortedShape(Roots(r, r.nodes));
    if !r.Root(b) {
      FollowerIsInBlock(r, b);
    }
    if r.Root(a) {
      if r.Root(b) {
        SmallerIsBefore(roots, a, b);
        BeforeInFirst(roots, Blocks(r, front), a, b);
      } else {
        InBlocks(r, front, Awaited(r, b), b);
        BeforeAcross(roots, Blocks(r, front), a, b);
      }
    } else {
      FollowerIsInBlock(r, a);
      FollowersInTurn(r, a, b);
      BeforeBehind(roots, Blocks(r, front), a, b);
    }
  }

  lemma FollowersInTurn(r: Rules, a: Code, b: Code)
    requires r.Valid() && a in r.nodes && b in r.nodes && a != b && !r.Root(a) && !r.Root(b) && First(r, a, b)
    requires Awaited(r, a) in Front(r) && a in Block(r, Awaited(r, a)) && b in Block(r, Awaited(r, b))
    ensures Before(Blocks(r, Front(r)), a, b)
  {
    if Awaited(r, a) == Awaited(r, b) {
      SortedShape(Followers(r, Awaited(r, a), r.nodes));
      SmallerIsBefore(Block(r, Awaited(r, a)), a, b);
      WithinBlock(r, Front(r), Awaited(r, a), a, b);
    } else {
      BlocksInTurn(r, Front(r), Awaited(r, a), Awaited(r, b), a, b);
    }
  }

  /** Two different rules of the queue: exactly one of them comes first. */
  lemma FirstIsTotal(r: Rules, a: Code, b: Code)
    requires r.Valid() && a in Front(r) && b in Front(r) && a in r.nodes && b in r.nodes && a != b
    ensures First(r, a, b) || First(r, b, a)
  {
    if !r.Root(a) && !r.Root(b) && Awaited(r, a) != Awaited(r, b) {
      FollowerIsInBlock(r, a);
      FollowerIsInBlock(r, b);
      OneWay(Front(r), Awaited(r, a), Awaited(r, b));
    }
  }

  /** The same, by which of two rules they wait for applies first. */
  ghost predicate GoesFirst(r: Rules, a: Code, b: Code)
    requires r.Valid() && a in r.nodes && b in r.nodes
  {
    if r.Root(a) then r.Root(b) ==> a < b
    else !r.Root(b) && if Awaited(r, a) == Awaited(r, b) then a < b else Before(Order(r), Awaited(r, a), Awaited(r, b))
  }

  lemma SameFirst(r: Rules, a: Code, b: Code)
    requires r.Valid() && a in r.nodes && b in r.nodes && a in Front(r) && b in Front(r)
    ensures GoesFirst(r, a, b) <==> First(r, a, b)
  {
    if !r.Root(a) && !r.Root(b) && Awaited(r, a) != Awaited(r, b) {
      OrderMeaning(r);
      FollowerIsInBlock(r, a);
      FollowerIsInBlock(r, b);
      InFrontExactly(r, Awaited(r, a), Awaited(r, b));
    }
  }

  /**
   Which of two rules applies first. Of two that the queue reaches: one that waits for nothing comes before one that waits;
   rules that wait for nothing, or for the same rule, go by their codes; others follow the rules they wait for. Rules
   the queue reaches come before those it does not, and these keep the order of the pack.
   */
  lemma AppliesFirstExactlyWhen(r: Rules, a: Code, b: Code)
    requires r.Valid() && a in r.nodes && b in r.nodes && a != b
    ensures Before(Order(r), a, b) <==>
              if r.Grounded(a) then (r.Grounded(b) ==> GoesFirst(r, a, b)) else !r.Grounded(b) && Before(r.nodes, a, b)
  {
    var front, rest := Front(r), Rest(r.nodes, Front(r));
    OrderMeaning(r);
    OneWay(Order(r), a, b);
    if r.Grounded(a) && r.Grounded(b) {
      InFrontExactly(r, a, b);
      SameFirst(r, a, b);
    } else if r.Grounded(a) {
      BeforeAcross(front, rest, a, b);
    } else if r.Grounded(b) {
      BeforeAcross(front, rest, b, a);
    } else {
      RestKeepsOrder(r.nodes, front, a, b);
      BeforeInSecond(front, rest, a, b);
    }
  }

  lemma InFrontExactly(r: Rules, a: Code, b: Code)
    requires r.Valid() && a in r.nodes && b in r.nodes && a in Front(r) && b in Front(r) && a != b
    ensures Before(Front(r), a, b) <==> First(r, a, b)
    ensures Before(Order(r), a, b) <==> First(r, a, b)
  {
    var rest := Rest(r.nodes, Front(r));
    OrderMeaning(r);
    OneWay(Order(r), a, b);
    OneWay(Front(r), a, b);
    FirstIsTotal(r, a, b);
    if First(r, a, b) {
      FirstIsBefore(r, a, b);
      BeforeInFirst(Front(r), rest, a, b);
    }
    if First(r, b, a) {
      FirstIsBefore(r, b, a);
      BeforeInFirst(Front(r), rest, b, a);
    }
  }
}
