/** Sources and their dependents as the source keeps them: sets of dependents, a worklist, recomputation in order. */
module CellHost {
  import opened Wrappers
  import opened Cells

  /** The attached derivations that list `s` as a source. */
  ghost predicate DependentsOk(g: Graph, dependents: map<nat, set<nat>>) {
    && dependents.Keys == g.values.Keys
    && forall s, d | s in dependents :: d in dependents[s] <==> d in g.derived && s in g.derived[d].sources
  }

  /** Nothing derives from `s` without being reached through the dependents of what derives from `s`. */
  lemma {:induction false} ClosedHoldsAll(g: Graph, dependents: map<nat, set<nat>>, s: nat, found: set<nat>, d: nat)
    requires WellFormed(g) && DependentsOk(g, dependents) && s in g.values
    requires dependents[s] <= found && forall x | x in found :: x in dependents && dependents[x] <= found
    requires DerivesFrom(g, s, d)
    ensures d in found
    decreases d
  {
    var i :| 0 <= i < |g.derived[d].sources|
             && (g.derived[d].sources[i] == s || DerivesFrom(g, s, g.derived[d].sources[i]));
    var x := g.derived[d].sources[i];
    if x != s {
      ClosedHoldsAll(g, dependents, s, found, x);
    }
    assert d in dependents[x];
  }

  lemma AllFound(g: Graph, dependents: map<nat, set<nat>>, s: nat, found: set<nat>)
    requires WellFormed(g) && DependentsOk(g, dependents) && s in dependents && found <= dependents.Keys
    requires dependents[s] <= found && forall x | x in found :: dependents[x] <= found
    ensures forall d | DerivesFrom(g, s, d) :: d in found
  {
    forall d | DerivesFrom(g, s, d) ensures d in found {
      ClosedHoldsAll(g, dependents, s, found, d);
    }
  }

  lemma Direct(g: Graph, dependents: map<nat, set<nat>>, s: nat, x: nat, d: nat)
    requires WellFormed(g) && DependentsOk(g, dependents) && x in dependents && d in dependents[x]
    requires x == s || DerivesFrom(g, s, x)
    ensures d in g.derived && DerivesFrom(g, s, d)
  {
    var i :| 0 <= i < |g.derived[d].sources| && g.derived[d].sources[i] == x;
  }

  lemma DirectAll(g: Graph, dependents: map<nat, set<nat>>, s: nat, x: nat, ds: set<nat>)
    requires WellFormed(g) && DependentsOk(g, dependents) && x in dependents && ds <= dependents[x]
    requires x == s || DerivesFrom(g, s, x)
    ensures ds <= g.derived.Keys && forall d | d in ds :: DerivesFrom(g, s, d)
  {
    forall d | d in ds ensures d in g.derived && DerivesFrom(g, s, d) {
      Direct(g, dependents, s, x, d);
    }
  }

  /** What directly derives from one that was found is found as well, and is still to be visited. */
  lemma FindsMore(g: Graph, table: map<nat, set<nat>>, s: nat, found: set<nat>, todo: set<nat>, x: nat)
    requires WellFormed(g) && DependentsOk(g, table) && found <= g.derived.Keys <= table.Keys
    requires x in todo && todo <= found
    requires forall d | d in found :: DerivesFrom(g, s, d)
    requires forall y | y in found && y !in todo :: table[y] <= found
    ensures var more := table[x] - found;
            && todo - {x} + more <= found + more <= g.derived.Keys
            && (forall d | d in found + more :: DerivesFrom(g, s, d))
            && (forall y | y in found + more && y !in todo - {x} + more :: table[y] <= found + more)
            && (more == {} || g.derived.Keys - (found + more) < g.derived.Keys - found)
  {
    hide DerivesFrom, WellFormed, DependentsOk;
    var more := table[x] - found;
    DirectAll(g, table, s, x, more);
    if more != {} {
      var d :| d in more;
      assert d in g.derived.Keys - found && d !in g.derived.Keys - (found + more);
    }
  }

  predicate Ascending(ids: seq<nat>) { forall i, j | 0 <= i < j < |ids| :: ids[i] < ids[j] }

  predicate Lists(order: seq<nat>, done: map<nat, int>) {
    Ascending(order) && (forall d | d in order :: d in done) && (forall d | d in done :: d in order)
  }

  /** The values computed so far are what the functions give over the new values, and valid. */
  ghost predicate Partial(fn: Fn, ok: Check, g: Graph, s: nat, value: int, done: map<nat, int>)
    requires WellFormed(g)
  {
    forall d | d in done ::
      d in g.derived && Compute(fn, g, d, Overlay(g, s, value, done)) == Some(done[d]) && ok(d, done[d])
  }

  function ComputeOver(fn: Fn, g: Graph, s: nat, value: int, m: map<nat, int>, d: nat): Option<int>
    requires WellFormed(g) && d in g.derived
  {
    Compute(fn, g, d, Overlay(g, s, value, m))
  }

  lemma AffectedAreDerived(g: Graph, s: nat, affected: set<nat>)
    requires WellFormed(g) && forall d :: d in affected <==> DerivesFrom(g, s, d)
    ensures affected <= g.derived.Keys
  {
  }

  lemma NothingYet(fn: Fn, ok: Check, g: Graph, s: nat, value: int)
    requires WellFormed(g)
    ensures Lists([], map[]) && Partial(fn, ok, g, s, value, map[])
  {
  }

  lemma OneMore(fn: Fn, ok: Check, g: Graph, s: nat, value: int, done: map<nat, int>, order: seq<nat>, d: nat,
                next: int)
    requires WellFormed(g) && Lists(order, done) && Partial(fn, ok, g, s, value, done)
    requires d in g.derived && (forall x | x in done :: x < d)
    requires ComputeOver(fn, g, s, value, done, d) == Some(next) && ok(d, next)
    ensures Lists(order + [d], done[d := next]) && Partial(fn, ok, g, s, value, done[d := next])
  {
    Extends(fn, g, s, value, done, d, next);
    hide Compute, Overlay;
    forall i | 0 <= i < |order| ensures order[i] < d {
      assert order[i] in order;
    }
  }

  lemma Stuck(fn: Fn, ok: Check, g: Graph, s: nat, value: int, affected: set<nat>, todo: set<nat>, done: map<nat, int>,
              d: nat)
    requires WellFormed(g) && Partial(fn, ok, g, s, value, done) && forall x :: x in affected <==> DerivesFrom(g, s, x)
    requires done.Keys == affected - todo && d in todo && todo <= affected && (forall x | x in todo :: d <= x)
             && d in g.derived
    requires var next := ComputeOver(fn, g, s, value, done, d); next.None? || !ok(d, next.value)
    ensures !Solvable(fn, ok, g, s, value)
  {
    forall x: nat | DerivesFrom(g, s, x) && x < d ensures x in done {
      assert x in affected;
    }
    NoSolution(fn, ok, g, s, value, done, d);
  }

  lemma IsSolution(fn: Fn, ok: Check, g: Graph, s: nat, value: int, affected: set<nat>, done: map<nat, int>,
                   order: seq<nat>)
    requires WellFormed(g) && Partial(fn, ok, g, s, value, done) && Lists(order, done)
    requires done.Keys == affected && forall x :: x in affected <==> DerivesFrom(g, s, x)
    ensures Solution(fn, ok, g, s, value, done) && Solvable(fn, ok, g, s, value)
    ensures Ascending(order) && forall d :: d in order <==> d in done
  {
    forall d | d in done
      ensures Compute(fn, g, d, Overlay(g, s, value, done)) == Some(done[d]) && ok(d, done[d])
    {
    }
    hide Compute, Overlay, Partial;
    assert forall d: nat :: d in done <==> DerivesFrom(g, s, d);
    assert Solution(fn, ok, g, s, value, done);
  }

  class CellGraph {
    var values: map<nat, int>
    var derived: map<nat, Derivation>
    var dependents: map<nat, set<nat>>
    /** The revisions published, in order: source and value. */
    var emitted: seq<(nat, int)>

    ghost function Model(): Graph
      reads this
    {
      Graph(values, derived)
    }

    ghost predicate Valid()
      reads this
    {
      WellFormed(Model()) && DependentsOk(Model(), dependents)
    }

    constructor ()
      ensures Valid() && Model() == Graph(map[], map[]) && emitted == []
    {
      values, derived, dependents, emitted := map[], map[], map[], [];
    }

    /** Everything that derives from `s`, by walking dependents. */
    method Dependents(s: nat) returns (found: set<nat>)
      requires Valid() && s in values
      ensures forall d :: d in found <==> DerivesFrom(Model(), s, d)
    {
      found := Walk(Model(), dependents, s);
    }

    static method Walk(ghost g: Graph, table: map<nat, set<nat>>, s: nat) returns (found: set<nat>)
      requires WellFormed(g) && DependentsOk(g, table) && s in g.values
      ensures forall d :: d in found <==> DerivesFrom(g, s, d)
    {
      assert s in table && g.derived.Keys <= table.Keys;
      hide DerivesFrom, WellFormed, DependentsOk;
      var todo := table[s];
      found := todo;
      DirectAll(g, table, s, s, found);
      while todo != {}
        invariant todo <= found <= g.derived.Keys && table[s] <= found
        invariant forall d | d in found :: DerivesFrom(g, s, d)
        invariant forall x | x in found && x !in todo :: table[x] <= found
        decreases g.derived.Keys - found, todo
      {
        var x :| x in todo;
        FindsMore(g, table, s, found, todo, x);
        var more := table[x] - found;
        todo := todo - {x} + more;
        found := found + more;
      }
      AllFound(g, table, s, found);
    }

    static method Least(ids: set<nat>) returns (least: nat)
      requires ids != {}
      ensures least in ids && forall x | x in ids :: least <= x
    {
      var rest := ids;
      least :| least in rest;
      rest := rest - {least};
      while rest != {}
        invariant rest <= ids && least in ids && least !in rest && forall x | x in ids && x !in rest :: least <= x
        decreases rest
      {
        var x :| x in rest;
        rest := rest - {x};
        if x < least {
          least := x;
        }
      }
    }

    /**
     * Recomputes everything that derives from `s` over its new value, in creation order. Fails exactly if there are no
     * new values that are all what the functions give, and valid.
     */
    method ComputeDependents(fn: Fn, ok: Check, s: nat, value: int)
      returns (result: Option<map<nat, int>>, order: seq<nat>)
      requires Valid() && s in values
      ensures result.Some? <==> Solvable(fn, ok, Model(), s, value)
      ensures result.Some? ==> Solution(fn, ok, Model(), s, value, result.value)
      ensures result.Some? ==> Ascending(order) && forall d :: d in order <==> d in result.value
    {
      var todo := Dependents(s);
      result, order := Recompute(fn, ok, Graph(values, derived), s, value, todo);
    }

    static method Recompute(fn: Fn, ok: Check, g: Graph, s: nat, value: int, affected: set<nat>)
      returns (result: Option<map<nat, int>>, order: seq<nat>)
      requires WellFormed(g) && forall d :: d in affected <==> DerivesFrom(g, s, d)
      ensures result.Some? <==> Solvable(fn, ok, g, s, value)
      ensures result.Some? ==> Solution(fn, ok, g, s, value, result.value)
      ensures result.Some? ==> Ascending(order) && forall d :: d in order <==> d in result.value
    {
      AffectedAreDerived(g, s, affected);
      NothingYet(fn, ok, g, s, value);
      hide DerivesFrom, Lists, Partial, WellFormed, Solvable, ComputeOver;
      var todo, done := affected, map[];
      order := [];
      while todo != {}
        invariant todo <= affected && done.Keys == affected - todo
        invariant forall d, x | d in done && x in todo :: d < x
        invariant Lists(order, done) && Partial(fn, ok, g, s, value, done)
        decreases todo
      {
        var d := Least(todo);
        var next := ComputeOver(fn, g, s, value, done, d);
        if next.None? || !ok(d, next.value) {
          Stuck(fn, ok, g, s, value, affected, todo, done, d);
          return None, [];
        }
        OneMore(fn, ok, g, s, value, done, order, d, next.value);
        todo, done, order := todo - {d}, done[d := next.value], order + [d];
      }
      IsSolution(fn, ok, g, s, value, affected, done, order);
      result := Some(done);
    }

    /**
     * A write: all of it or nothing. Observers hear of the cell first, then, in creation order, of the derivations
     * whose value changed. A write of the value the cell has does nothing, unless it is a reset (a reload's), which
     * checks nothing: then `ok` accepts everything.
     */
    method Publish(fn: Fn, ok: Check, s: nat, value: int, reset: bool)
      returns (done: bool, ghost m: map<nat, int>, order: seq<nat>)
      requires Valid() && s in values && s !in derived
      modifies this`values, this`emitted
      ensures Valid()
      ensures var same := !reset && value == old(values)[s];
              && (done <==> same || (ok(s, value) && Solvable(fn, ok, old(Model()), s, value)))
              && (!done || same ==> Model() == old(Model()) && emitted == old(emitted))
              && (done && !same ==>
                    && Solution(fn, ok, old(Model()), s, value, m) && Model() == Written(old(Model()), s, value, m)
                    && Ascending(order) && (forall d :: d in order <==> d in m)
                    && emitted == old(emitted) + [(s, value)] + Notices(old(values), m, order))
    {
      m := map[];
      if !reset && value == values[s] {
        return true, map[], [];
      }
      if !ok(s, value) {
        return false, map[], [];
      }
      var result: Option<map<nat, int>>;
      result, order := ComputeDependents(fn, ok, s, value);
      if result.None? {
        return false, map[], [];
      }
      m := result.value;
      NeverItself(Model(), s, m);
      Adopt(s, value, result.value, order);
      done := true;
    }

    /** Adopts every revision, then publishes: the cell first. */
    method Adopt(s: nat, value: int, m: map<nat, int>, order: seq<nat>)
      requires s in values && s !in m && m.Keys <= values.Keys
      requires Ascending(order) && forall d :: d in order <==> d in m
      modifies this`values, this`emitted
      ensures values == Overlay(old(Model()), s, value, m)
      ensures emitted == old(emitted) + [(s, value)] + Notices(old(values), m, order)
    {
      NoticesIgnore(values, s, value, m, order);
      values := values[s := value];
      emitted := emitted + [(s, value)];
      Install(m, order);
    }

    method Install(m: map<nat, int>, order: seq<nat>)
      requires Ascending(order) && (forall d :: d in order <==> d in m) && m.Keys <= values.Keys
      modifies this`values, this`emitted
      ensures values == old(values) + m
      ensures emitted == old(emitted) + Notices(old(values), m, order)
    {
      ghost var before := values;
      var i := 0;
      assert InstalledUpTo(values, before, m, order[..0]) && Notices(before, m, order[..0]) == [];
      hide InstalledUpTo, Notices, Ascending;
      while i < |order|
        invariant 0 <= i <= |order| && InstalledUpTo(values, before, m, order[..i])
        invariant emitted == old(emitted) + Notices(before, m, order[..i])
        modifies this`values, this`emitted
      {
        var d := order[i];
        InstallsOne(values, before, m, order, i);
        if m[d] != values[d] {
          emitted := emitted + [(d, m[d])];
        }
        values := values[d := m[d]];
        i := i + 1;
      }
      assert order[..i] == order;
      AllInstalled(values, before, m, order);
    }

    /** Attaches a derivation whose function gives a value now. */
    method Attach(d: nat, derivation: Derivation, value: int)
      requires Valid() && d !in values
      requires forall i | 0 <= i < |derivation.sources| :: derivation.sources[i] < d && derivation.sources[i] in values
      modifies this`values, this`derived, this`dependents
      ensures Valid() && Model() == Attached(old(Model()), d, derivation, value)
    {
      values, derived := values[d := value], derived[d := derivation];
      dependents := dependents[d := {}];
      Register(d, derivation.sources);
    }

    /** `d` becomes a dependent of each of the sources. */
    method Register(d: nat, sources: seq<nat>)
      requires forall s | s in sources :: s in dependents
      modifies this`dependents
      ensures dependents.Keys == old(dependents).Keys
      ensures forall s | s in dependents :: dependents[s] == old(dependents)[s] + (if s in sources then {d} else {})
    {
      var i := 0;
      while i < |sources|
        invariant 0 <= i <= |sources| && dependents.Keys == old(dependents).Keys
        invariant forall s | s in dependents ::
                    dependents[s] == old(dependents)[s] + (if s in sources[..i] then {d} else {})
      {
        var s := sources[i];
        assert sources[..i + 1] == sources[..i] + [s];
        dependents := dependents[s := dependents[s] + {d}];
        i := i + 1;
      }
      assert sources[..i] == sources;
    }

    method NewCell(c: nat, value: int)
      requires Valid() && c !in values
      modifies this`values, this`dependents
      ensures Valid() && Model() == old(Model()).(values := old(values)[c := value])
    {
      values, dependents := values[c := value], dependents[c := {}];
    }
  }

  /** The values after the first derivations of the order were installed. */
  predicate InstalledUpTo(values: map<nat, int>, before: map<nat, int>, m: map<nat, int>, done: seq<nat>) {
    && values.Keys == before.Keys
    && forall d | d in values :: if d in done then d in m && values[d] == m[d] else values[d] == before[d]
  }

  lemma InstallsOne(values: map<nat, int>, before: map<nat, int>, m: map<nat, int>, order: seq<nat>, i: nat)
    requires Ascending(order) && i < |order| && InstalledUpTo(values, before, m, order[..i])
    requires forall d | d in order :: d in m && d in before
    ensures order[i] in m && order[i] in values && values[order[i]] == before[order[i]]
    ensures InstalledUpTo(values[order[i] := m[order[i]]], before, m, order[..i + 1])
    ensures Notices(before, m, order[..i + 1])
            == Notices(before, m, order[..i])
              + (if m[order[i]] != before[order[i]] then [(order[i], m[order[i]])] else [])
  {
    assert order[..i + 1][..i] == order[..i] && order[i] !in order[..i];
    assert order[..i + 1] == order[..i] + [order[i]];
  }

  lemma AllInstalled(values: map<nat, int>, before: map<nat, int>, m: map<nat, int>, order: seq<nat>)
    requires InstalledUpTo(values, before, m, order) && (forall d :: d in order <==> d in m) && m.Keys <= before.Keys
    ensures values == before + m
  {
  }

  lemma NeverItself(g: Graph, s: nat, m: map<nat, int>)
    requires WellFormed(g) && s !in g.derived && forall d :: d in m <==> DerivesFrom(g, s, d)
    ensures s !in m && m.Keys <= g.values.Keys
  {
  }

  /** The derivations whose value changed, in the given order. */
  function Notices(before: map<nat, int>, m: map<nat, int>, order: seq<nat>): seq<(nat, int)>
    requires forall d | d in order :: d in m && d in before
  {
    if order == [] then []
    else
      var last := order[|order| - 1];
      Notices(before, m, order[..|order| - 1]) + (if m[last] != before[last] then [(last, m[last])] else [])
  }

  /** Observers hear of exactly the derivations whose value changed, of each once and in creation order. */
  lemma NoticesAre(before: map<nat, int>, m: map<nat, int>, order: seq<nat>)
    requires Ascending(order) && forall d | d in order :: d in m && d in before
    ensures forall d, x :: (d, x) in Notices(before, m, order) <==> d in order && x == m[d] != before[d]
    ensures var notices := Notices(before, m, order);
            forall i, j | 0 <= i < j < |notices| :: notices[i].0 < notices[j].0
  {
    forall d, x ensures (d, x) in Notices(before, m, order) <==> d in order && x == m[d] != before[d] {
      NoticeIs(before, m, order, d, x);
    }
    NoticesRise(before, m, order);
    hide Notices;
  }

  lemma {:induction false} NoticeIs(before: map<nat, int>, m: map<nat, int>, order: seq<nat>, d: nat, x: int)
    requires forall d | d in order :: d in m && d in before
    ensures (d, x) in Notices(before, m, order) <==> d in order && x == m[d] != before[d]
  {
    if order != [] {
      var rest, last := order[..|order| - 1], order[|order| - 1];
      NoticeIs(before, m, rest, d, x);
      assert order == rest + [last];
      assert d in order <==> d in rest || d == last;
    }
  }

  lemma {:induction false} NoticesRise(before: map<nat, int>, m: map<nat, int>, order: seq<nat>)
    requires Ascending(order) && forall d | d in order :: d in m && d in before
    ensures var notices := Notices(before, m, order);
            forall i, j | 0 <= i < j < |notices| :: notices[i].0 < notices[j].0
  {
    if order != [] {
      var rest, last := order[..|order| - 1], order[|order| - 1];
      NoticesRise(before, m, rest);
      var notices := Notices(before, m, rest);
      forall i | 0 <= i < |notices| ensures notices[i].0 < last {
        NoticeIs(before, m, rest, notices[i].0, notices[i].1);
        assert notices[i] == (notices[i].0, notices[i].1) && notices[i] in notices;
        var k :| 0 <= k < |rest| && rest[k] == notices[i].0;
        assert order[k] < order[|order| - 1];
      }
    }
  }

  lemma NoticesIgnore(before: map<nat, int>, s: nat, value: int, m: map<nat, int>, order: seq<nat>)
    requires s !in order && forall d | d in order :: d in m && d in before
    ensures Notices(before[s := value], m, order) == Notices(before, m, order)
  {
    if order != [] {
      NoticesIgnore(before, s, value, m, order[..|order| - 1]);
    }
  }

  /** One more derivation in creation order: those before it read none of it, and keep their values. */
  lemma Extends(fn: Fn, g: Graph, s: nat, value: int, m: map<nat, int>, d: nat, next: int)
    requires WellFormed(g) && d in g.derived && (forall x | x in m :: x < d && x in g.derived)
    ensures forall x | x in m ::
            Compute(fn, g, x, Overlay(g, s, value, m[d := next])) == Compute(fn, g, x, Overlay(g, s, value, m))
    ensures Compute(fn, g, d, Overlay(g, s, value, m[d := next])) == Compute(fn, g, d, Overlay(g, s, value, m))
  {
    var v, v' := Overlay(g, s, value, m), Overlay(g, s, value, m[d := next]);
    forall x | x in m || x == d ensures Read(v', g.derived[x].sources) == Read(v, g.derived[x].sources) {
      assert d !in g.derived[x].sources;
    }
  }

  /** A function that throws, or a value that is not valid, in creation order: there are no new values at all. */
  lemma NoSolution(fn: Fn, ok: Check, g: Graph, s: nat, value: int, m: map<nat, int>, d: nat)
    requires WellFormed(g) && DerivesFrom(g, s, d)
    requires forall x | x in m :: x in g.derived && DerivesFrom(g, s, x)
    requires forall x: nat | DerivesFrom(g, s, x) && x < d :: x in m
    requires forall x | x in m :: Compute(fn, g, x, Overlay(g, s, value, m)) == Some(m[x])
    requires var next := Compute(fn, g, d, Overlay(g, s, value, m)); next.None? || !ok(d, next.value)
    ensures !Solvable(fn, ok, g, s, value)
  {
    forall m' ensures !Solution(fn, ok, g, s, value, m') {
      if Solution(fn, ok, g, s, value, m') {
        Agree(fn, ok, g, s, value, m, m', d);
      }
    }
  }

  lemma {:induction false} Agree(fn: Fn, ok: Check, g: Graph, s: nat, value: int, m: map<nat, int>, m': map<nat, int>,
                                 d: nat)
    requires WellFormed(g) && Solution(fn, ok, g, s, value, m') && d in g.derived
    requires forall x | x in m :: x in g.derived && DerivesFrom(g, s, x)
    requires forall x: nat | DerivesFrom(g, s, x) && x < d :: x in m
    requires forall x | x in m :: Compute(fn, g, x, Overlay(g, s, value, m)) == Some(m[x])
    ensures Compute(fn, g, d, Overlay(g, s, value, m)) == Compute(fn, g, d, Overlay(g, s, value, m'))
    decreases d
  {
    var sources := g.derived[d].sources;
    var v, v' := Overlay(g, s, value, m), Overlay(g, s, value, m');
    forall i | 0 <= i < |sources| ensures v[sources[i]] == v'[sources[i]] {
      var x := sources[i];
      if x in m {
        Agree(fn, ok, g, s, value, m, m', x);
      } else {
        assert !DerivesFrom(g, s, x);
      }
    }
    assert Read(v, sources) == Read(v', sources);
  }
}
