/**
 * Record-owned holds on one host: who holds whom, the cycle check made before a hold is added, and forced disposal
 * in waves, holders first.
 */
module HoldGraph {
  /** For each record, the records its declarations hold, in declaration order. */
  type Graph = map<nat, seq<nat>>

  ghost predicate Closed(g: Graph) {
    forall a, b :: a in g && b in g[a] ==> b in g
  }

  predicate Holds(g: Graph, a: nat, b: nat) { a in g && b in g[a] }

  // ---------------------------------------------------------------- paths

  ghost predicate IsPath(g: Graph, path: seq<nat>) {
    path != [] && forall i :: 0 <= i < |path| - 1 ==> Holds(g, path[i], path[i + 1])
  }

  /** `a` is `b`, or holds it directly or transitively. */
  ghost predicate Reach(g: Graph, a: nat, b: nat) {
    exists path :: IsPath(g, path) && path[0] == a && path[|path| - 1] == b
  }

  ghost predicate Acyclic(g: Graph) {
    forall a, b :: Holds(g, a, b) ==> !Reach(g, b, a)
  }

  lemma ReachSelf(g: Graph, a: nat)
    ensures Reach(g, a, a)
  {
    assert IsPath(g, [a]);
  }

  lemma ReachStep(g: Graph, a: nat, b: nat, c: nat)
    requires Holds(g, a, b) && Reach(g, b, c)
    ensures Reach(g, a, c)
  {
    var path :| IsPath(g, path) && path[0] == b && path[|path| - 1] == c;
    var longer := [a] + path;
    assert forall i :: 0 <= i < |path| ==> longer[i + 1] == path[i];
    forall i | 0 <= i < |longer| - 1
      ensures Holds(g, longer[i], longer[i + 1])
    {
      assert i == 0 || Holds(g, path[i - 1], path[i]);
    }
    assert IsPath(g, longer);
  }

  lemma ReachOnce(g: Graph, a: nat, b: nat)
    requires Holds(g, a, b)
    ensures Reach(g, a, b)
  {
    ReachSelf(g, b);
    ReachStep(g, a, b, b);
  }

  lemma {:induction false} ReachTrans(g: Graph, path: seq<nat>, c: nat)
    requires IsPath(g, path) && Reach(g, path[|path| - 1], c)
    ensures Reach(g, path[0], c)
    decreases |path|
  {
    if |path| > 1 {
      assert IsPath(g, path[1..]);
      ReachTrans(g, path[1..], c);
      ReachStep(g, path[0], path[1], c);
    }
  }

  lemma Transitive(g: Graph, a: nat, b: nat, c: nat)
    requires Reach(g, a, b) && Reach(g, b, c)
    ensures Reach(g, a, c)
  {
    var path :| IsPath(g, path) && path[0] == a && path[|path| - 1] == b;
    ReachTrans(g, path, c);
  }

  // ---------------------------------------------------------------- adding and dropping holds

  /** With one more hold `from -> to`, every path either avoids it or splits around it. */
  lemma {:induction false} SplitAtNewHold(g: Graph, from: nat, to: nat, path: seq<nat>)
    requires from in g && IsPath(g[from := g[from] + [to]], path)
    ensures var a, b := path[0], path[|path| - 1];
            Reach(g, a, b) || (Reach(g, a, from) && Reach(g, to, b))
    decreases |path|
  {
    var g' := g[from := g[from] + [to]];
    var a, b := path[0], path[|path| - 1];
    if |path| == 1 {
      ReachSelf(g, a);
    } else {
      var c := path[1];
      assert Holds(g', a, c);
      assert IsPath(g', path[1..]);
      SplitAtNewHold(g, from, to, path[1..]);
      if Holds(g, a, c) {
        if Reach(g, c, b) {
          ReachStep(g, a, c, b);
        } else {
          ReachStep(g, a, c, from);
        }
      } else {
        ReachSelf(g, from);
      }
    }
  }

  /** A hold whose target does not reach its holder closes no cycle. */
  lemma AcceptedHoldKeepsAcyclic(g: Graph, from: nat, to: nat)
    requires Acyclic(g) && from in g && !Reach(g, to, from)
    ensures Acyclic(g[from := g[from] + [to]])
  {
    var g' := g[from := g[from] + [to]];
    forall a, b | Holds(g', a, b)
      ensures !Reach(g', b, a)
    {
      if Reach(g', b, a) {
        var path :| IsPath(g', path) && path[0] == b && path[|path| - 1] == a;
        SplitAtNewHold(g, from, to, path);
        if Holds(g, a, b) {
          // b reaches from, and to reaches a, which holds b: to would reach from.
          ReachStep(g, a, b, from);
          Transitive(g, to, a, from);
        }
      }
    }
  }

  /** A refused hold would have closed one: the check refuses nothing else. */
  lemma RefusedHoldWouldCycle(g: Graph, from: nat, to: nat)
    requires from in g && Reach(g, to, from)
    ensures !Acyclic(g[from := g[from] + [to]])
  {
    var g' := g[from := g[from] + [to]];
    var path :| IsPath(g, path) && path[0] == to && path[|path| - 1] == from;
    assert IsPath(g', path) by {
      forall i | 0 <= i < |path| - 1
        ensures Holds(g', path[i], path[i + 1])
      {
        assert Holds(g, path[i], path[i + 1]);
      }
    }
    assert Holds(g', from, to) && Reach(g', to, from);
  }

  lemma FewerHoldsStayAcyclic(g: Graph, g': Graph)
    requires Acyclic(g) && forall a, b :: Holds(g', a, b) ==> Holds(g, a, b)
    ensures Acyclic(g')
  {
    assert forall path :: IsPath(g', path) ==> IsPath(g, path);
  }

  // ---------------------------------------------------------------- holders exist that nobody holds

  ghost predicate HeldWithin(g: Graph, s: set<nat>, b: nat) {
    exists a :: a in s && Holds(g, a, b)
  }

  lemma PathsAreSimple(g: Graph, path: seq<nat>, i: nat, j: nat)
    requires Acyclic(g) && IsPath(g, path) && i < j < |path|
    ensures path[i] != path[j]
  {
    var rest := path[i + 1..j + 1];
    assert IsPath(g, rest) by {
      forall n | 0 <= n < |rest| - 1
        ensures Holds(g, rest[n], rest[n + 1])
      {
        assert rest[n] == path[i + 1 + n] && rest[n + 1] == path[i + 1 + n + 1];
      }
    }
    assert Reach(g, path[i + 1], path[j]);
    assert Holds(g, path[i], path[i + 1]);
  }

  lemma {:induction false} DistinctFit(path: seq<nat>, s: set<nat>)
    requires forall i :: 0 <= i < |path| ==> path[i] in s
    requires forall i, j :: 0 <= i < j < |path| ==> path[i] != path[j]
    ensures |path| <= |s|
    decreases |path|
  {
    if path != [] {
      DistinctFit(path[1..], s - {path[0]});
    }
  }

  /** Walking up from any record of `s` ends, within |s| steps, at one that no record of `s` holds. */
  lemma {:induction false} ClimbToFreeRecord(g: Graph, s: set<nat>, path: seq<nat>) returns (free: nat)
    requires Acyclic(g) && IsPath(g, path) && forall i :: 0 <= i < |path| ==> path[i] in s
    ensures free in s && !HeldWithin(g, s, free)
    decreases |s| - |path|
  {
    forall i, j | 0 <= i < j < |path|
      ensures path[i] != path[j]
    {
      PathsAreSimple(g, path, i, j);
    }
    DistinctFit(path, s);
    if !HeldWithin(g, s, path[0]) {
      return path[0];
    }
    var a :| a in s && Holds(g, a, path[0]);
    var longer := [a] + path;
    assert forall i :: 0 < i < |longer| ==> longer[i] == path[i - 1];
    assert IsPath(g, longer);
    forall i, j | 0 <= i < j < |longer|
      ensures longer[i] != longer[j]
    {
      PathsAreSimple(g, longer, i, j);
    }
    DistinctFit(longer, s);
    free := ClimbToFreeRecord(g, s, longer);
  }

  // ---------------------------------------------------------------- the worklist loops

  /** True if `from` is `to` or holds it, directly or transitively. */
  method Reaches(g: Graph, from: nat, to: nat) returns (found: bool)
    requires Closed(g) && from in g
    ensures found <==> Reach(g, from, to)
  {
    var seen: set<nat> := {};
    var stack := [from];
    ReachSelf(g, from);
    while stack != []
      invariant seen <= g.Keys && to !in seen
      invariant forall x :: x in stack ==> x in g && Reach(g, from, x)
      invariant forall x :: x in seen ==> Reach(g, from, x)
      invariant from in seen || from in stack
      invariant forall x, y :: x in seen && Holds(g, x, y) ==> y in seen || y in stack
      decreases g.Keys - seen, |stack|
    {
      var record := stack[|stack| - 1];
      var rest := stack[..|stack| - 1];
      assert stack == rest + [record];
      if record == to {
        return true;
      }
      if record in seen {
        stack := rest;
        continue;
      }
      forall y | y in g[record]
        ensures Reach(g, from, y)
      {
        ReachOnce(g, record, y);
        Transitive(g, from, record, y);
      }
      assert g.Keys - (seen + {record}) < g.Keys - seen by {
        assert record in g.Keys - seen;
      }
      seen := seen + {record};
      stack := rest + g[record];
    }
    NothingLeft(g, seen, from, to);
    return false;
  }

  lemma NothingLeft(g: Graph, seen: set<nat>, from: nat, to: nat)
    requires from in seen && to !in seen
    requires forall x, y :: x in seen && Holds(g, x, y) ==> y in seen
    ensures !Reach(g, from, to)
  {
    if Reach(g, from, to) {
      var path :| IsPath(g, path) && path[0] == from && path[|path| - 1] == to;
      var i := 0;
      while i < |path| - 1
        invariant 0 <= i < |path| && path[i] in seen
      {
        assert Holds(g, path[i], path[i + 1]);
        i := i + 1;
      }
    }
  }

  /** Which wave a record was disposed in. */
  ghost predicate InWave(waves: seq<set<nat>>, r: nat, i: nat) { i < |waves| && r in waves[i] }

  /**
   * Forced disposal of `records`: every record once, every holder in an earlier wave than what it holds. The fallback
   * for a cycle (dispose the rest together) is never taken.
   */
  method DisposeHoldersFirst(g: Graph, records: set<nat>) returns (waves: seq<set<nat>>, together: bool)
    requires Acyclic(g)
    ensures !together
    ensures forall r :: r in records <==> exists i :: InWave(waves, r, i)
    ensures forall r, i, j :: InWave(waves, r, i) && InWave(waves, r, j) ==> i == j
    ensures forall a, b, i, j :: Holds(g, a, b) && InWave(waves, a, i) && InWave(waves, b, j) ==> i < j
  {
    waves, together := [], false;
    var remaining := records;
    while remaining != {}
      invariant !together && remaining <= records
      invariant forall r :: r in records && r !in remaining ==> exists i :: InWave(waves, r, i)
      invariant forall r, i :: InWave(waves, r, i) ==> r in records && r !in remaining
      invariant forall r, i, j :: InWave(waves, r, i) && InWave(waves, r, j) ==> i == j
      invariant forall a, b, i, j :: Holds(g, a, b) && InWave(waves, a, i) && InWave(waves, b, j) ==> i < j
      invariant forall a, b, j :: Holds(g, a, b) && a in remaining ==> !InWave(waves, b, j)
      decreases remaining
    {
      var heldByRemaining := set a, b | a in remaining && a in g && b in g[a] :: b;
      var wave := remaining - heldByRemaining;
      var some :| some in remaining;
      var free := ClimbToFreeRecord(g, remaining, [some]);
      assert free in wave;
      if wave == {} {
        wave := remaining;
        together := true;
      }
      ghost var before := waves;
      waves := waves + [wave];
      assert forall r, i :: InWave(waves, r, i) <==> InWave(before, r, i) || (i == |before| && r in wave);
      assert forall r :: r in wave ==> InWave(waves, r, |before|);
      remaining := remaining - wave;
    }
  }

  // ---------------------------------------------------------------- the host's records

  /** The records of a host with the holds of their declarations, installed or pending. */
  class Records {
    var holds: Graph

    ghost predicate Valid()
      reads this
    {
      Closed(holds) && Acyclic(holds)
    }

    constructor ()
      ensures Valid() && holds == map[]
    {
      holds := map[];
    }

    /** A new record holds nothing: its factory runs later. */
    method Create(record: nat)
      requires Valid() && record !in holds
      modifies this
      ensures Valid() && holds == old(holds)[record := []]
    {
      ghost var before := holds;
      holds := holds[record := []];
      FewerHoldsStayAcyclic(before, holds);
    }

    /** A factory of `from` asks for a hold on `to`: refused exactly if it would close a cycle. */
    method Acquire(from: nat, to: nat) returns (accepted: bool)
      requires Valid() && from in holds && to in holds
      modifies this
      ensures Valid()
      ensures accepted <==> Acyclic(old(holds)[from := old(holds)[from] + [to]])
      ensures holds == if accepted then old(holds)[from := old(holds)[from] + [to]] else old(holds)
    {
      var cycle := to == from;
      if cycle {
        ReachSelf(holds, from);
      } else {
        cycle := Reaches(holds, to, from);
      }
      if cycle {
        RefusedHoldWouldCycle(holds, from, to);
        return false;
      }
      AcceptedHoldKeepsAcyclic(holds, from, to);
      holds := holds[from := holds[from] + [to]];
      return true;
    }

    /** Retirement, a discarded run or disposal: the record keeps some of its holds. */
    method Keep(record: nat, kept: seq<nat>)
      requires Valid() && record in holds && forall b :: b in kept ==> b in holds[record]
      modifies this
      ensures Valid() && holds == old(holds)[record := kept]
    {
      ghost var before := holds;
      holds := holds[record := kept];
      FewerHoldsStayAcyclic(before, holds);
    }
  }
}
