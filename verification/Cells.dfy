/**
 * State sources: cells and the derivations over them. A write recomputes every transitive derivation in creation order
 * and installs all of it, or nothing.
 *
 * Sources are numbered in creation order. `fn` is what a derivation function computes (`None`: it throws); `ok` is
 * per-write validation against the schemas of a source.
 */
module Cells {
  import opened Wrappers

  type Fn = (nat, seq<int>) -> Option<int>

  type Check = (nat, int) -> bool

  datatype Derivation = Derivation(sources: seq<nat>, fn: nat)

  /** `derived` holds the attached derivations; every source has a value. */
  datatype Graph = Graph(values: map<nat, int>, derived: map<nat, Derivation>)

  /** Sources exist before what derives from them. */
  ghost predicate WellFormed(g: Graph) {
    forall d | d in g.derived ::
      d in g.values && forall i | 0 <= i < |g.derived[d].sources| ::
        g.derived[d].sources[i] < d && g.derived[d].sources[i] in g.values
  }

  function Read(values: map<nat, int>, sources: seq<nat>): seq<int>
    requires forall i | 0 <= i < |sources| :: sources[i] in values
  {
    seq(|sources|, i requires 0 <= i < |sources| => values[sources[i]])
  }

  function Compute(fn: Fn, g: Graph, d: nat, values: map<nat, int>): Option<int>
    requires d in g.derived && forall i | 0 <= i < |g.derived[d].sources| :: g.derived[d].sources[i] in values
  {
    fn(g.derived[d].fn, Read(values, g.derived[d].sources))
  }

  /** Every derivation has the value its function gives for the values of its sources. */
  ghost predicate Consistent(fn: Fn, g: Graph)
    requires WellFormed(g)
  {
    forall d | d in g.derived :: Compute(fn, g, d, g.values) == Some(g.values[d])
  }

  /** Does `d` derive, directly or not, from `s`? */
  predicate DerivesFrom(g: Graph, s: nat, d: nat)
    requires WellFormed(g)
    decreases d
  {
    d in g.derived && exists i | 0 <= i < |g.derived[d].sources| ::
      g.derived[d].sources[i] == s || DerivesFrom(g, s, g.derived[d].sources[i])
  }

  // ---------------------------------------------------------------- what a write must install

  function Overlay(g: Graph, s: nat, value: int, m: map<nat, int>): map<nat, int> { g.values[s := value] + m }

  /**
   * New values for exactly the derivations of `s`, each what its function gives over the new values, all valid.
   */
  ghost predicate Solution(fn: Fn, ok: Check, g: Graph, s: nat, value: int, m: map<nat, int>)
    requires WellFormed(g)
  {
    && (forall d :: d in m <==> DerivesFrom(g, s, d))
    && (forall d | d in m :: Compute(fn, g, d, Overlay(g, s, value, m)) == Some(m[d]) && ok(d, m[d]))
  }

  ghost predicate Solvable(fn: Fn, ok: Check, g: Graph, s: nat, value: int)
    requires WellFormed(g)
  {
    exists m :: Solution(fn, ok, g, s, value, m)
  }

  function Written(g: Graph, s: nat, value: int, m: map<nat, int>): Graph { g.(values := Overlay(g, s, value, m)) }

  /** There is at most one way to install a write. */
  lemma {:induction false} SolutionsAgree(fn: Fn, ok: Check, g: Graph, s: nat, value: int, m: map<nat, int>,
                                          m': map<nat, int>, d: nat)
    requires WellFormed(g) && Solution(fn, ok, g, s, value, m) && Solution(fn, ok, g, s, value, m')
    requires d in m
    ensures d in m' && m[d] == m'[d]
    decreases d
  {
    var sources := g.derived[d].sources;
    assert m.Keys == m'.Keys;
    forall i | 0 <= i < |sources|
      ensures Overlay(g, s, value, m)[sources[i]] == Overlay(g, s, value, m')[sources[i]]
    {
      if sources[i] in m {
        SolutionsAgree(fn, ok, g, s, value, m, m', sources[i]);
      }
    }
    hide DerivesFrom;
    assert Read(Overlay(g, s, value, m), sources) == Read(Overlay(g, s, value, m'), sources);
  }

  lemma SolutionIsUnique(fn: Fn, ok: Check, g: Graph, s: nat, value: int, m: map<nat, int>, m': map<nat, int>)
    requires WellFormed(g) && Solution(fn, ok, g, s, value, m) && Solution(fn, ok, g, s, value, m')
    ensures m == m'
  {
    forall d | d in m ensures m[d] == m'[d] {
      SolutionsAgree(fn, ok, g, s, value, m, m', d);
    }
  }

  /**
   * After a write of a cell every derivation, however indirect, has its function's value over the new values, and a
   * source that does not derive from the cell keeps its value.
   */
  lemma WriteKeepsConsistent(fn: Fn, ok: Check, g: Graph, s: nat, value: int, m: map<nat, int>)
    requires WellFormed(g) && Consistent(fn, g) && Solution(fn, ok, g, s, value, m)
    requires s in g.values && s !in g.derived
    ensures WellFormed(Written(g, s, value, m)) && Consistent(fn, Written(g, s, value, m))
    ensures Written(g, s, value, m).values[s] == value
    ensures forall x | x in g.values && x != s && !DerivesFrom(g, s, x) ::
            Written(g, s, value, m).values[x] == g.values[x]
  {
    var g' := Written(g, s, value, m);
    assert !DerivesFrom(g, s, s);
    forall d | d in g.derived ensures Compute(fn, g', d, g'.values) == Some(g'.values[d]) {
      var sources := g.derived[d].sources;
      if d !in m {
        assert !DerivesFrom(g, s, d);
        forall i | 0 <= i < |sources| ensures g'.values[sources[i]] == g.values[sources[i]] {
          assert sources[i] != s && !DerivesFrom(g, s, sources[i]);
        }
        assert Read(g'.values, sources) == Read(g.values, sources);
      }
    }
  }

  // ---------------------------------------------------------------- what the values mean

  /** The value of a source, computed from the cells alone. */
  function Meaning(fn: Fn, g: Graph, x: nat): Option<int>
    requires WellFormed(g)
    decreases x
  {
    if x in g.derived then
      var sources := g.derived[x].sources;
      var parts := seq(|sources|, i requires 0 <= i < |sources| && sources[i] < x => Meaning(fn, g, sources[i]));
      if exists i | 0 <= i < |parts| :: parts[i].None? then None
      else fn(g.derived[x].fn, seq(|parts|, i requires 0 <= i < |parts| && parts[i].Some? => parts[i].value))
    else if x in g.values then Some(g.values[x])
    else None
  }

  /** Consistent values are exactly what the cells mean: no derivation shows anything else. */
  lemma {:induction false} ConsistentMeans(fn: Fn, g: Graph, x: nat)
    requires WellFormed(g) && Consistent(fn, g) && x in g.values
    ensures Meaning(fn, g, x) == Some(g.values[x])
    decreases x
  {
    if x in g.derived {
      var sources := g.derived[x].sources;
      forall i | 0 <= i < |sources| ensures Meaning(fn, g, sources[i]) == Some(g.values[sources[i]]) {
        ConsistentMeans(fn, g, sources[i]);
      }
      var parts := seq(|sources|, i requires 0 <= i < |sources| && sources[i] < x => Meaning(fn, g, sources[i]));
      assert seq(|parts|, i requires 0 <= i < |parts| && parts[i].Some? => parts[i].value) == Read(g.values, sources);
    }
  }

  // ---------------------------------------------------------------- attaching a derivation

  function Attached(g: Graph, d: nat, derivation: Derivation, value: int): Graph {
    Graph(g.values[d := value], g.derived[d := derivation])
  }

  /**
   * A derivation attached with a value computed earlier (a reload's dry run) is consistent exactly if that is what its
   * function gives for the values of its sources now.
   */
  lemma AttachIsConsistentIff(fn: Fn, g: Graph, d: nat, derivation: Derivation, value: int)
    requires WellFormed(g) && Consistent(fn, g) && d !in g.values
    requires forall i | 0 <= i < |derivation.sources| :: derivation.sources[i] < d && derivation.sources[i] in g.values
    ensures WellFormed(Attached(g, d, derivation, value))
    ensures Consistent(fn, Attached(g, d, derivation, value))
            <==> fn(derivation.fn, Read(g.values, derivation.sources)) == Some(value)
  {
    var g' := Attached(g, d, derivation, value);
    forall x | x in g'.derived
      ensures Read(g'.values, g'.derived[x].sources) == Read(g.values, g'.derived[x].sources)
    {
      assert d !in g'.derived[x].sources;
    }
    assert Compute(fn, g', d, g'.values) == fn(derivation.fn, Read(g.values, derivation.sources));
    forall x | x in g.derived ensures Compute(fn, g', x, g'.values) == Compute(fn, g, x, g.values) {
    }
  }

  /** A write of a cell: the new value, and the new values of everything that derives from it. */
  datatype Write = Write(s: nat, value: int, m: map<nat, int>)

  ghost predicate Writes(fn: Fn, ok: Check, g: Graph, w: Write) {
    WellFormed(g) && w.s in g.values && w.s !in g.derived && Solution(fn, ok, g, w.s, w.value, w.m)
  }

  /** `g'` is `g` after some writes. */
  ghost predicate After(fn: Fn, ok: Check, g: Graph, writes: seq<Write>, g': Graph)
    decreases |writes|
  {
    if writes == [] then g' == g
    else Writes(fn, ok, g, writes[0])
         && After(fn, ok, Written(g, writes[0].s, writes[0].value, writes[0].m), writes[1..], g')
  }

  /** A write reaches what reads `sources` if it is of one of them, or of a cell that one of them derives from. */
  predicate Reaches(g: Graph, sources: seq<nat>, s: nat)
    requires WellFormed(g)
  {
    exists i | 0 <= i < |sources| :: sources[i] == s || DerivesFrom(g, s, sources[i])
  }

  lemma {:induction false} SameDerivations(g: Graph, g': Graph, s: nat, d: nat)
    requires WellFormed(g) && WellFormed(g') && g'.derived == g.derived
    ensures DerivesFrom(g', s, d) == DerivesFrom(g, s, d)
    decreases d
  {
    if d in g.derived {
      forall i | 0 <= i < |g.derived[d].sources|
        ensures DerivesFrom(g', s, g.derived[d].sources[i]) == DerivesFrom(g, s, g.derived[d].sources[i])
      {
        SameDerivations(g, g', s, g.derived[d].sources[i]);
      }
    }
  }

  lemma OneWrite(fn: Fn, ok: Check, g: Graph, w: Write, sources: seq<nat>)
    requires Sound(fn, g) && Writes(fn, ok, g, w) && forall i | 0 <= i < |sources| :: sources[i] in g.values
    ensures var g1 := Written(g, w.s, w.value, w.m);
            && Sound(fn, g1) && g1.derived == g.derived && g1.values.Keys == g.values.Keys
            && (!Reaches(g, sources, w.s) ==> Read(g1.values, sources) == Read(g.values, sources))
            && (forall s :: Reaches(g1, sources, s) == Reaches(g, sources, s))
  {
    var g1 := Written(g, w.s, w.value, w.m);
    WriteKeepsConsistent(fn, ok, g, w.s, w.value, w.m);
    assert w.m.Keys <= g.values.Keys;
    forall s, i | 0 <= i < |sources| ensures DerivesFrom(g1, s, sources[i]) == DerivesFrom(g, s, sources[i]) {
      SameDerivations(g, g1, s, sources[i]);
    }
    hide DerivesFrom, Solution, Overlay;
    if !Reaches(g, sources, w.s) {
      forall i | 0 <= i < |sources| ensures g1.values[sources[i]] == g.values[sources[i]] {
      }
    }
  }

  ghost predicate Sound(fn: Fn, g: Graph) { WellFormed(g) && Consistent(fn, g) }

  lemma {:induction false} WritesKeep(fn: Fn, ok: Check, g: Graph, writes: seq<Write>, g': Graph, sources: seq<nat>)
    requires Sound(fn, g) && After(fn, ok, g, writes, g') && forall i | 0 <= i < |sources| :: sources[i] in g.values
    ensures Sound(fn, g') && g'.derived == g.derived && g'.values.Keys == g.values.Keys
    ensures (forall w | w in writes :: !Reaches(g, sources, w.s)) ==>
            Read(g'.values, sources) == Read(g.values, sources)
    decreases |writes|
  {
    if writes == [] {
    } else {
      var g1 := Written(g, writes[0].s, writes[0].value, writes[0].m);
      OneWrite(fn, ok, g, writes[0], sources);
      hide Writes, Sound, Reaches;
      WritesKeep(fn, ok, g1, writes[1..], g', sources);
    }
  }

  /**
   * A derivation whose value was computed in a dry run, attached after any writes: it is consistent exactly if its
   * function gives for what its sources hold now what it gave for what they held then. If the function gives this value
   * for nothing else, that is exactly if the sources hold the same; and they do if none of the writes was of a cell
   * that they are, or derive from.
   */
  lemma DryRunIsConsistentIff(fn: Fn, ok: Check, g: Graph, writes: seq<Write>, g': Graph, d: nat,
                              derivation: Derivation,
                              value: int)
    requires Sound(fn, g) && After(fn, ok, g, writes, g') && d !in g.values
    requires forall i | 0 <= i < |derivation.sources| :: derivation.sources[i] < d && derivation.sources[i] in g.values
    requires fn(derivation.fn, Read(g.values, derivation.sources)) == Some(value)
    ensures WellFormed(g') && g'.values.Keys == g.values.Keys && WellFormed(Attached(g', d, derivation, value))
    ensures Consistent(fn, Attached(g', d, derivation, value))
            <==> fn(derivation.fn, Read(g'.values, derivation.sources))
                 == fn(derivation.fn, Read(g.values, derivation.sources))
    ensures (forall xs :: fn(derivation.fn, xs) == Some(value) ==> xs == Read(g.values, derivation.sources)) ==>
              (Consistent(fn, Attached(g', d, derivation, value))
               <==> Read(g'.values, derivation.sources) == Read(g.values, derivation.sources))
    ensures (forall w | w in writes :: !Reaches(g, derivation.sources, w.s)) ==>
              Read(g'.values, derivation.sources) == Read(g.values, derivation.sources)
  {
    WritesKeep(fn, ok, g, writes, g', derivation.sources);
    AttachIsConsistentIff(fn, g', d, derivation, value);
  }

  function Copy(f: nat, values: seq<int>): Option<int> { if |values| == 1 then Some(values[0]) else None }

  /** Dry run, write, attach: the derivation of cell 0 shows 1 although the cell holds 2. */
  lemma DryRunGoesStale() returns (g: Graph, write: Write, g': Graph, derivation: Derivation)
    ensures Sound(Copy, g) && After(Copy, (s, v) => true, g, [write], g')
    ensures g.values == map[0 := 1] && g'.values == map[0 := 2] && derivation == Derivation([0], 0)
    ensures Copy(0, Read(g.values, derivation.sources)) == Some(1)
    ensures WellFormed(Attached(g', 1, derivation, 1)) && !Consistent(Copy, Attached(g', 1, derivation, 1))
  {
    g, write, derivation := Graph(map[0 := 1], map[]), Write(0, 2, map[]), Derivation([0], 0);
    g' := Written(g, 0, 2, map[]);
    assert g'.values == map[0 := 2];
    assert Read(g'.values, [0]) == [2];
    AttachIsConsistentIff(Copy, g', 1, derivation, 1);
  }
}
