/**
 * Publication of refreshed model lists. Every provider has a generation, raised whenever the provider is replaced,
 * deleted or refreshed anew, and a chain of publications: each stores first and then updates memory, if its generation
 * is still the current one. A store mutation is two steps, for it is awaited.
 */
module ModelRefresh {
  import opened Wrappers

  /** `id` numbers the publish calls of a provider. */
  datatype Publication = Publication(id: nat, generation: nat, persists: bool)

  /**
   * `begun` are the generations refreshes were started with, `live` the one whose controller is registered, `aborted`
   * those whose signal is aborted. `started` and `ended` log store mutations, `applied` in-memory updates.
   */
  datatype Chain = Chain(
    generation: nat,
    begun: set<nat>,
    live: Option<nat>,
    aborted: set<nat>,
    calls: nat,
    queue: seq<Publication>,
    storing: bool,
    started: seq<nat>,
    ended: seq<nat>,
    applied: seq<Publication>)

  const NewChain: Chain := Chain(0, {}, None, {}, 0, [], false, [], [], [])

  function Supersede(c: Chain): Chain {
    c.(generation := c.generation + 1,
       aborted := if c.live.Some? then c.aborted + {c.live.value} else c.aborted,
       live := None)
  }

  function BeginRefresh(c: Chain): Chain {
    var c1 := Supersede(c);
    c1.(begun := c1.begun + {c1.generation}, live := Some(c1.generation))
  }

  function EndRefresh(c: Chain, generation: nat): Chain { if c.live == Some(generation) then c.(live := None) else c }

  function Publish(c: Chain, generation: nat, persists: bool): Chain {
    c.(calls := c.calls + 1, queue := c.queue + [Publication(c.calls, generation, persists)])
  }

  predicate IsCurrent(c: Chain, p: Publication) { p.generation !in c.aborted && p.generation == c.generation }

  /** The publication in front has its turn: it is refused, stores, or updates at once. */
  function Start(c: Chain): Chain
    requires !c.storing && c.queue != []
  {
    var p := c.queue[0];
    if !IsCurrent(c, p) then c.(queue := c.queue[1..])
    else if p.persists then c.(storing := true, started := c.started + [p.id])
    else c.(queue := c.queue[1..], applied := c.applied + [p])
  }

  /** Its store mutation is over; memory is updated if nothing superseded it meanwhile. */
  function Stored(c: Chain, ok: bool): Chain
    requires c.storing && c.queue != []
  {
    var p := c.queue[0];
    c.(storing := false, ended := c.ended + [p.id], queue := c.queue[1..],
       applied := if ok && IsCurrent(c, p) then c.applied + [p] else c.applied)
  }

  datatype Models = Models(providers: set<nat>, chains: map<nat, Chain>)

  const NoModels: Models := Models({}, map[])

  function ChainOf(m: Models, id: nat): Chain { if id in m.chains then m.chains[id] else NewChain }

  function SetChain(m: Models, id: nat, c: Chain): Models { m.(chains := m.chains[id := c]) }

  /** Supersedes every provider that is registered or being refreshed. */
  function Clear(m: Models): Models {
    Models({},
           map id | id in m.chains.Keys + m.providers ::
             if id in m.providers || ChainOf(m, id).live.Some? then Supersede(ChainOf(m, id)) else ChainOf(m, id))
  }

  datatype Step =
    | SetProvider(id: nat)
    | DeleteProvider(id: nat)
    | ClearProviders
    | Begin(id: nat)
    | End(id: nat, generation: nat)
    | Abort(id: nat, generation: nat)
    | PublishStep(id: nat, generation: nat, persists: bool)
    | StartStep(id: nat)
    | StoredStep(id: nat, ok: bool)

  predicate Legal(m: Models, step: Step) {
    match step
    case Begin(id) => id in m.providers
    case PublishStep(id, generation, _) => generation in ChainOf(m, id).begun
    case StartStep(id) => !ChainOf(m, id).storing && ChainOf(m, id).queue != []
    case StoredStep(id, _) => ChainOf(m, id).storing && ChainOf(m, id).queue != []
    case _ => true
  }

  function Apply(m: Models, step: Step): Models
    requires Legal(m, step)
  {
    match step
    case SetProvider(id) => SetChain(m, id, Supersede(ChainOf(m, id))).(providers := m.providers + {id})
    case DeleteProvider(id) => SetChain(m, id, Supersede(ChainOf(m, id))).(providers := m.providers - {id})
    case ClearProviders => Clear(m)
    case Begin(id) => SetChain(m, id, BeginRefresh(ChainOf(m, id)))
    case End(id, generation) => SetChain(m, id, EndRefresh(ChainOf(m, id), generation))
    case Abort(id, generation) => SetChain(m, id, ChainOf(m, id).(aborted := ChainOf(m, id).aborted + {generation}))
    case PublishStep(id, generation, persists) => SetChain(m, id, Publish(ChainOf(m, id), generation, persists))
    case StartStep(id) => SetChain(m, id, Start(ChainOf(m, id)))
    case StoredStep(id, ok) => SetChain(m, id, Stored(ChainOf(m, id), ok))
  }

  // ---------------------------------------------------------------- one chain

  predicate Rising(ids: seq<nat>) { forall i, j | 0 <= i < j < |ids| :: ids[i] < ids[j] }

  /** The first call that still waits. */
  function Front(c: Chain): int { c.calls - |c.queue| }

  /** Calls wait in order; a mutation that began is the front's; those before are over. */
  predicate QueueOk(c: Chain) {
    && |c.queue| <= c.calls
    && (forall i | 0 <= i < |c.queue| :: c.queue[i].id == Front(c) + i && c.queue[i].generation in c.begun)
    && (c.storing ==> c.queue != [] && c.queue[0].persists && c.started == c.ended + [c.queue[0].id])
    && (!c.storing ==> c.started == c.ended)
  }

  predicate LogOk(c: Chain) {
    && (forall i | 0 <= i < |c.ended| :: c.ended[i] < Front(c))
    && (forall i | 0 <= i < |c.applied| :: c.applied[i].id < Front(c) && c.applied[i].generation <= c.generation)
    && Rising(c.ended)
    && (forall i, j | 0 <= i < j < |c.applied| ::
          c.applied[i].id < c.applied[j].id && c.applied[i].generation <= c.applied[j].generation)
  }

  predicate ChainOk(c: Chain) {
    && QueueOk(c) && LogOk(c)
    && (forall g | g in c.begun :: g <= c.generation)
    && (c.live.Some? ==> c.live.value in c.begun && c.live.value == c.generation)
    && (forall p | p in c.applied && p.persists :: p.id in c.ended)
  }

  /** A refresh of the current generation belongs to a provider that is registered. */
  predicate Inv(m: Models) {
    forall id | id in m.chains ::
      ChainOk(m.chains[id]) && (m.chains[id].generation in m.chains[id].begun ==> id in m.providers)
  }

  lemma SupersedeKeeps(c: Chain)
    requires ChainOk(c)
    ensures ChainOk(Supersede(c)) && Supersede(c).generation !in Supersede(c).begun
    ensures ChainOk(BeginRefresh(c))
  {
  }

  lemma PublishKeeps(c: Chain, generation: nat, persists: bool)
    requires ChainOk(c) && generation in c.begun
    ensures ChainOk(Publish(c, generation, persists))
  {
  }

  lemma StartKeeps(c: Chain)
    requires ChainOk(c) && !c.storing && c.queue != []
    ensures ChainOk(Start(c))
  {
  }

  lemma StoredKeeps(c: Chain, ok: bool)
    requires ChainOk(c) && c.storing
    ensures ChainOk(Stored(c, ok))
  {
  }

  /** The one chain that changes, and the registered providers. */
  lemma OneChain(m: Models, id: nat, c: Chain, providers: set<nat>)
    requires Inv(m) && ChainOk(c) && (c.generation in c.begun ==> id in providers)
    requires forall x | x in m.providers && x != id :: x in providers
    ensures Inv(Models(providers, m.chains[id := c]))
  {
    hide ChainOk;
  }

  lemma ClearKeeps(m: Models)
    requires Inv(m)
    ensures Inv(Clear(m))
  {
    hide ChainOk, Supersede;
    forall id | id in m.chains.Keys + m.providers
      ensures ChainOk(Clear(m).chains[id]) && Clear(m).chains[id].generation !in Clear(m).chains[id].begun
    {
      ChainIsOk(m, id);
      SupersedeKeeps(ChainOf(m, id));
    }
  }

  lemma ChainIsOk(m: Models, id: nat)
    requires Inv(m)
    ensures ChainOk(ChainOf(m, id)) && (ChainOf(m, id).generation in ChainOf(m, id).begun ==> id in m.providers)
  {
  }

  lemma SmallStepsKeep(c: Chain, generation: nat)
    requires ChainOk(c)
    ensures ChainOk(EndRefresh(c, generation)) && ChainOk(c.(aborted := c.aborted + {generation}))
  {
  }

  lemma StepKeepsInv(m: Models, step: Step)
    requires Inv(m) && Legal(m, step)
    ensures Inv(Apply(m, step))
  {
    hide ChainOk, Inv;
    if step.ClearProviders? {
      ClearKeeps(m);
    } else {
      var id, m' := step.id, Apply(m, step);
      var c := ChainOf(m, id);
      ChainIsOk(m, id);
      assert ChainOk(m'.chains[id]) && (m'.chains[id].generation in m'.chains[id].begun ==> id in m'.providers) by {
        match step
        case SetProvider(_) => SupersedeKeeps(c);
        case DeleteProvider(_) => SupersedeKeeps(c);
        case Begin(_) => SupersedeKeeps(c);
        case End(_, generation) => SmallStepsKeep(c, generation);
        case Abort(_, generation) => SmallStepsKeep(c, generation);
        case PublishStep(_, generation, persists) => PublishKeeps(c, generation, persists);
        case StartStep(_) => StartKeeps(c);
        case StoredStep(_, ok) => StoredKeeps(c, ok);
      }
      OneChain(m, id, m'.chains[id], m'.providers);
    }
  }

  // ---------------------------------------------------------------- every run

  ghost predicate RunsTo(steps: seq<Step>, from: Models, m: Models)
    decreases |steps|
  {
    if steps == [] then m == from
    else
      var rest, last := steps[..|steps| - 1], steps[|steps| - 1];
      exists m0 :: RunsTo(rest, from, m0) && Follows(m0, last, m)
  }

  predicate Follows(m0: Models, step: Step, m: Models) { Legal(m0, step) && m == Apply(m0, step) }

  lemma {:induction false} AlwaysInv(steps: seq<Step>, from: Models, m: Models)
    requires RunsTo(steps, from, m) && Inv(from)
    ensures Inv(m)
    decreases |steps|
  {
    if steps == [] {
    } else {
      var rest, last := steps[..|steps| - 1], steps[|steps| - 1];
      var m0 :| RunsTo(rest, from, m0) && Follows(m0, last, m);
      AlwaysInv(rest, from, m0);
      StepKeepsInv(m0, last);
    }
  }

  /**
   * Store mutations of one provider never overlap and follow call order; updates of memory too, and their generations
   * never decrease.
   */
  lemma MutationsFollowCallOrder(steps: seq<Step>, m: Models, id: nat)
    requires RunsTo(steps, NoModels, m)
    ensures var c := ChainOf(m, id);
            && Rising(c.started) && c.ended <= c.started && |c.started| <= |c.ended| + 1
            && (forall i, j | 0 <= i < j < |c.applied| ::
                  c.applied[i].id < c.applied[j].id && c.applied[i].generation <= c.applied[j].generation)
  {
    AlwaysInv(steps, NoModels, m);
  }

  lemma StepApplies(m: Models, step: Step, id: nat)
    requires Inv(m) && Legal(m, step)
    ensures var c, c' := ChainOf(m, id), ChainOf(Apply(m, step), id);
            && c.generation <= c'.generation && c.applied <= c'.applied
            && forall i | |c.applied| <= i < |c'.applied| ::
                 c'.applied[i].generation == c.generation && id in m.providers
  {
    assert ChainOk(ChainOf(m, id));
  }

  /** An update of memory runs only while its generation is the current one: none runs after it was superseded. */
  lemma {:induction false} NothingSupersededRuns(steps: seq<Step>, from: Models, m: Models, id: nat)
    requires RunsTo(steps, from, m) && Inv(from)
    ensures var c, c' := ChainOf(from, id), ChainOf(m, id);
            && c.generation <= c'.generation && c.applied <= c'.applied
            && forall i | |c.applied| <= i < |c'.applied| :: c'.applied[i].generation >= c.generation
    decreases |steps|
  {
    if steps == [] {
    } else {
      var rest, last := steps[..|steps| - 1], steps[|steps| - 1];
      var m0 :| RunsTo(rest, from, m0) && Follows(m0, last, m);
      AlwaysInv(rest, from, m0);
      NothingSupersededRuns(rest, from, m0, id);
      StepApplies(m0, last, id);
      hide Apply, Legal, Inv;
    }
  }

  lemma OutdatesAll(m: Models, step: Step, id: nat)
    requires Inv(m) && (step == SetProvider(id) || step == DeleteProvider(id) || step.ClearProviders?)
    ensures ChainOf(Apply(m, step), id).applied == ChainOf(m, id).applied
    ensures forall g | g in ChainOf(m, id).begun :: g < ChainOf(Apply(m, step), id).generation
  {
    ChainIsOk(m, id);
  }

  /**
   * After a provider is replaced or deleted, or all are cleared, no update of memory that was published before runs any
   * more, whatever is still queued or being stored.
   */
  lemma NothingFromBeforeRuns(before: Models, step: Step, steps: seq<Step>, m: Models, id: nat)
    requires Inv(before) && Legal(before, step)
    requires step == SetProvider(id) || step == DeleteProvider(id) || step.ClearProviders?
    requires RunsTo(steps, Apply(before, step), m)
    ensures var c, c' := ChainOf(before, id), ChainOf(m, id);
            && c.applied <= c'.applied
            && forall i | |c.applied| <= i < |c'.applied| :: c'.applied[i].generation !in c.begun
  {
    var from := Apply(before, step);
    StepKeepsInv(before, step);
    NothingSupersededRuns(steps, from, m, id);
    OutdatesAll(before, step, id);
    hide Apply, Inv, RunsTo;
  }

  // ---------------------------------------------------------------- what does run

  /**
   * The publication in front: it begins to store if it is to be stored and is current; when its turn is over memory is
   * updated if and only if it is still current, its signal is not aborted, and what it was to store is stored.
   */
  lemma TurnUpdatesIff(m: Models, step: Step, id: nat)
    requires Inv(m) && Legal(m, step) && ChainOf(m, id).queue != []
    ensures var c, c' := ChainOf(m, id), ChainOf(Apply(m, step), id);
            var p := c.queue[0];
            var current := p.generation == c.generation && p.generation !in c.aborted;
            && (step == StartStep(id) ==> (c'.storing <==> current && p.persists))
            && (c'.queue == c.queue[1..] ==>
                  c'.applied == if current && (p.persists ==> step == StoredStep(id, true)) then c.applied + [p]
                                else c.applied)
  {
    ChainIsOk(m, id);
    assert |ChainOf(m, id).queue[1..]| < |ChainOf(m, id).queue|;
    assert |ChainOf(Apply(m, step), id).queue| == |ChainOf(m, id).queue| - 1
           ==> step == StartStep(id) || (step.StoredStep? && step.id == id);
  }

  lemma StepPublishes(m: Models, step: Step, id: nat, p: Publication)
    requires Inv(m) && Legal(m, step) && p in ChainOf(m, id).queue
    ensures var c, c' := ChainOf(m, id), ChainOf(Apply(m, step), id);
            && c.aborted <= c'.aborted && c.generation <= c'.generation && c.applied <= c'.applied
            && (p.generation == c'.generation && p.generation !in c'.aborted ==>
                  p in c'.queue || p in c'.applied || (p.persists && step == StoredStep(id, false)))
  {
    var c := ChainOf(m, id);
    assert ChainOk(c) && c.queue == [c.queue[0]] + c.queue[1..];
  }

  /**
   * A publication whose refresh is neither superseded nor aborted updates memory when its turn is over, unless it is to
   * be stored and a store mutation fails.
   */
  lemma {:induction false} UndisturbedPublicationsRun(steps: seq<Step>, from: Models, m: Models, id: nat,
                                                      p: Publication)
    requires RunsTo(steps, from, m) && Inv(from) && p in ChainOf(from, id).queue
    requires p.generation == ChainOf(m, id).generation && p.generation !in ChainOf(m, id).aborted
    ensures p in ChainOf(m, id).queue || p in ChainOf(m, id).applied
            || (p.persists && StoredStep(id, false) in steps)
    decreases |steps|
  {
    if steps == [] {
    } else {
      hide Apply, Legal, Inv;
      var rest, last := steps[..|steps| - 1], steps[|steps| - 1];
      var m0 :| RunsTo(rest, from, m0) && Follows(m0, last, m);
      AlwaysInv(rest, from, m0);
      GenerationsRise(rest, from, m0, id);
      StepRises(m0, last, id);
      QueuedIsBegun(from, id, p);
      UndisturbedPublicationsRun(rest, from, m0, id, p);
      if p in ChainOf(m0, id).queue {
        StepPublishes(m0, last, id, p);
      }
    }
  }

  lemma QueuedIsBegun(m: Models, id: nat, p: Publication)
    requires Inv(m) && p in ChainOf(m, id).queue
    ensures p.generation <= ChainOf(m, id).generation
  {
    ChainIsOk(m, id);
  }

  lemma StepRises(m: Models, step: Step, id: nat)
    requires Inv(m) && Legal(m, step)
    ensures var c, c' := ChainOf(m, id), ChainOf(Apply(m, step), id);
            c.generation <= c'.generation && c.aborted <= c'.aborted && c.applied <= c'.applied
  {
  }

  lemma {:induction false} GenerationsRise(steps: seq<Step>, from: Models, m: Models, id: nat)
    requires RunsTo(steps, from, m) && Inv(from)
    ensures var c, c' := ChainOf(from, id), ChainOf(m, id);
            c.generation <= c'.generation && c.aborted <= c'.aborted && c.applied <= c'.applied
    decreases |steps|
  {
    if steps == [] {
    } else {
      hide Apply, Legal, Inv;
      var rest, last := steps[..|steps| - 1], steps[|steps| - 1];
      var m0 :| RunsTo(rest, from, m0) && Follows(m0, last, m);
      AlwaysInv(rest, from, m0);
      GenerationsRise(rest, from, m0, id);
      StepRises(m0, last, id);
    }
  }

  lemma StepOfAborted(m: Models, step: Step, id: nat, g: nat)
    requires Inv(m) && Legal(m, step) && g in ChainOf(m, id).aborted
    ensures var c, c' := ChainOf(m, id), ChainOf(Apply(m, step), id);
            forall i | |c.applied| <= i < |c'.applied| :: c'.applied[i].generation != g
  {
  }

  /** Once the signal of a refresh is aborted, nothing it published updates memory any more. */
  lemma {:induction false} NothingAbortedRuns(steps: seq<Step>, from: Models, m: Models, id: nat, g: nat)
    requires RunsTo(steps, from, m) && Inv(from) && g in ChainOf(from, id).aborted
    ensures var c, c' := ChainOf(from, id), ChainOf(m, id);
            c.applied <= c'.applied && forall i | |c.applied| <= i < |c'.applied| :: c'.applied[i].generation != g
    decreases |steps|
  {
    if steps == [] {
    } else {
      hide Apply, Legal, Inv;
      var rest, last := steps[..|steps| - 1], steps[|steps| - 1];
      var m0 :| RunsTo(rest, from, m0) && Follows(m0, last, m);
      AlwaysInv(rest, from, m0);
      GenerationsRise(rest, from, m0, id);
      NothingAbortedRuns(rest, from, m0, id, g);
      StepRises(m0, last, id);
      StepOfAborted(m0, last, id, g);
    }
  }

  /**
   * A refresh stays registered until it ends itself; if a newer refresh, a replacement, a deletion or a clearing takes
   * its place, its signal is aborted.
   */
  lemma RefreshIsRegisteredUntil(m: Models, step: Step, id: nat, g: nat)
    requires Inv(m) && Legal(m, step) && ChainOf(m, id).live == Some(g)
    ensures var c' := ChainOf(Apply(m, step), id);
            && (c'.live == Some(g) <==> step != End(id, g) && c'.generation == g)
            && (c'.generation != g ==> g in c'.aborted)
            && (c'.generation != g <==> step in {Begin(id), SetProvider(id), DeleteProvider(id), ClearProviders})
  {
    ChainIsOk(m, id);
  }

  // ---------------------------------------------------------------- in place

  /** The collection's own bookkeeping of generations and controllers. */
  class ModelCollection {
    var providers: set<nat>
    var chains: map<nat, Chain>

    ghost function Model(): Models
      reads this
    {
      Models(providers, chains)
    }

    constructor ()
      ensures Model() == NoModels
    {
      providers, chains := {}, map[];
    }

    /** One generation on; the refresh that ran is aborted and no longer registered. */
    static ghost predicate Superseded(c: Chain, c': Chain) {
      && c'.generation == c.generation + 1 && c'.live.None?
      && (forall g :: g in c'.aborted <==> g in c.aborted || c.live == Some(g))
      && c' == c.(generation := c'.generation, live := None, aborted := c'.aborted)
    }

    method SupersedeProvider(id: nat) returns (generation: nat)
      modifies this`chains
      ensures chains == old(chains)[id := Supersede(ChainOf(old(Model()), id))]
      ensures Superseded(ChainOf(old(Model()), id), chains[id])
      ensures generation == chains[id].generation
    {
      var c := if id in chains then chains[id] else NewChain;
      generation := c.generation + 1;
      c := c.(generation := generation);
      if c.live.Some? {
        c := c.(aborted := c.aborted + {c.live.value}, live := None);
      }
      chains := chains[id := c];
    }

    method Replace(id: nat)
      modifies this
      ensures Model() == Apply(old(Model()), SetProvider(id))
      ensures providers == old(providers) + {id} && chains.Keys == old(chains).Keys + {id}
      ensures Superseded(ChainOf(old(Model()), id), chains[id])
    {
      var _ := SupersedeProvider(id);
      providers := providers + {id};
    }

    method Delete(id: nat)
      modifies this
      ensures Model() == Apply(old(Model()), DeleteProvider(id))
      ensures providers == old(providers) - {id} && chains.Keys == old(chains).Keys + {id}
      ensures Superseded(ChainOf(old(Model()), id), chains[id])
    {
      var _ := SupersedeProvider(id);
      providers := providers - {id};
    }

    method ClearAll()
      modifies this
      ensures Model() == Apply(old(Model()), ClearProviders)
      ensures providers == {} && chains.Keys == old(chains).Keys + old(providers)
      ensures forall id | id in chains :: var c := ChainOf(old(Model()), id);
                if id in old(providers) || c.live.Some? then Superseded(c, chains[id]) else chains[id] == c
    {
      var todo := providers + set id | id in chains && chains[id].live.Some?;
      ghost var m, all := Model(), todo;
      while todo != {}
        invariant todo <= all && providers == m.providers && chains.Keys == m.chains.Keys + (all - todo)
        invariant forall id | id in chains ::
                    chains[id] == if id in all && id !in todo then Supersede(ChainOf(m, id)) else ChainOf(m, id)
        decreases todo
      {
        var id :| id in todo;
        todo := todo - {id};
        var _ := SupersedeProvider(id);
      }
      providers := {};
    }

    method BeginProviderRefresh(id: nat) returns (generation: nat)
      requires id in providers
      modifies this`chains
      ensures Model() == Apply(old(Model()), Begin(id))
      ensures generation == chains[id].generation == ChainOf(old(Model()), id).generation + 1
      ensures generation in chains[id].begun && chains[id].live == Some(generation)
      ensures ChainOf(old(Model()), id).live.Some? ==> ChainOf(old(Model()), id).live.value in chains[id].aborted
    {
      generation := SupersedeProvider(id);
      chains := chains[id := chains[id].(begun := chains[id].begun + {generation}, live := Some(generation))];
    }
  }
}
