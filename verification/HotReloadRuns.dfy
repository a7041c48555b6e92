/** Runs in which a host does what the comments of the source say it does not, step by step from a new host. */
module HotReloadRuns {
  import opened Wrappers
  import opened HotReload
  import opened HotReloadInvariant
  import opened HotReloadSafety

  ghost predicate Leads(mig: Migration, from: Host, h: Host) { exists steps :: RunsTo(mig, steps, from, h) }

  lemma Stays(mig: Migration, h: Host)
    ensures Leads(mig, h, h)
  {
    assert RunsTo(mig, [], h, h);
  }

  lemma Then(mig: Migration, from: Host, h: Host, step: Step, h': Host)
    requires Leads(mig, from, h) && Follows(mig, h, step, h')
    ensures Leads(mig, from, h')
  {
    var steps :| RunsTo(mig, steps, from, h);
    assert (steps + [step])[..|steps + [step]| - 1] == steps;
    assert RunsTo(mig, steps + [step], from, h');
  }

  lemma LedToIsReached(mig: Migration, services: Services, h: Host)
    requires Leads(mig, NewHost(services), h)
    ensures Reached(mig, h)
  {
  }

  const NoReload: Reload := Reload(0, Waiting, false, false, 0, map[], map[], {}, {}, {})

  // ---------------------------------------------------------------- a record left by a rollback

  const S: Service := Service(1, 0)

  /** A record of the added type 8, under epoch 2. */
  function Added(status: Status): Rec {
    Rec(8, status, Some(S), 0, 0, if status.Activating? then map[]
        else map[2 := S], {}, None, None, !status.Activating?, 0)
  }

  const Adding: Reload := NoReload.(phase := Preparing, next := 2, services := map[8 := S])

  /** A host that served nothing, while a reload adds type 8 as epoch 2. */
  function Prepares(recs: map<nat, Rec>): Host {
    Host(map[1 := map[]], 1, None, 2, Some(Pending(2, map[8 := S])), {}, recs, map[], Some(Adding), map[], 1, false)
  }

  /** The same, aborted. */
  function RollsBack(recs: map<nat, Rec>, todo: Option<set<nat>>): Host {
    Prepares(recs).(reload := Some(Adding.(aborted := true)), rollbacks := map[0 := Rollback({}, todo)])
  }

  /** The same, when the rollback is over. */
  function RolledBack(recs: map<nat, Rec>): Host {
    Prepares(recs).(pending := None, reload := Some(Adding.(aborted := true)))
  }

  lemma AddsType(mig: Migration)
    ensures Leads(mig, NewHost(map[]), Prepares(map[]))
  {
    var h0 := NewHost(map[]);
    var h1 := h0.(reload := Some(NoReload), reloads := 1);
    Stays(mig, h0);
    assert Follows(mig, h0, BeginReload, h1);
    Then(mig, h0, h0, BeginReload, h1);
    assert Follows(mig, h1, LoadStep(2, map[8 := S]), Prepares(map[]));
    Then(mig, h0, h1, LoadStep(2, map[8 := S]), Prepares(map[]));
  }

  lemma AcquiresIt(mig: Migration, h: Host, r: nat)
    requires r !in h.recs && 8 !in CurrentServices(h) && h.pending == Some(Pending(2, map[8 := S])) && h.gating == {}
    ensures Leads(mig, h, h.(recs := h.recs[r := Added(Activating)]))
  {
    var h1 := h.(recs := h.recs[r := NewRec(8, 0)]);
    var h2 := h.(recs := h.recs[r := Added(Activating)]);
    Stays(mig, h);
    assert Follows(mig, h, Acquire(r, 8, 0), h1);
    Then(mig, h, h, Acquire(r, 8, 0), h1);
    assert h1.recs[r := Added(Activating)] == h2.recs;
    assert Follows(mig, h1, Begin(r), h2);
    Then(mig, h, h1, Begin(r), h2);
  }

  lemma ActivatesIt(mig: Migration, h: Host, r: nat)
    requires h.epochs == map[1 := map[]] && h.current == 1 && h.pending == Some(Pending(2, map[8 := S]))
    requires r in h.recs && h.recs[r] == Added(Activating)
    ensures Leads(mig, h, h.(recs := h.recs[r := Added(Live)]))
  {
    var h1 := h.(recs := h.recs[r := Added(Live)]);
    Stays(mig, h);
    assert BehaviorsFor(h, 8, S) == map[2 := S];
    assert Follows(mig, h, Finalize(r), h1);
    Then(mig, h, h, Finalize(r), h1);
  }

  const OneLive: map<nat, Rec> := map[0 := Added(Live)]

  const OneGone: map<nat, Rec> := map[0 := Disposed(Added(Live))]

  lemma Reopens(mig: Migration)
    ensures Follows(mig, RollsBack(OneLive, None), ReopenStep(0), RollsBack(OneLive, Some({0})))
  {
    var h := RollsBack(OneLive, None);
    assert 0 in h.recs && Unserved(h, 0);
    assert OpenGates(h, h.rollbacks[0].gated) == h by {
      assert OpenGates(h, {}).recs == OneLive;
    }
    assert Present(h) == {0};
    assert h.rollbacks[0 := Rollback({}, Some({0}))] == RollsBack(OneLive, Some({0})).rollbacks;
    assert ReopenAll(h, 0) == RollsBack(OneLive, Some({0}));
  }

  lemma Disposes(mig: Migration)
    ensures Follows(mig, RollsBack(OneLive, Some({0})), DisposeStep(0, 0), RollsBack(OneGone, Some({})))
  {
    var h := RollsBack(OneLive, Some({0}));
    assert OneLive[0 := Disposed(OneLive[0])] == OneGone;
    assert {0} - {0} == {};
    assert h.rollbacks[0 := Rollback({}, Some({}))] == RollsBack(OneGone, Some({})).rollbacks;
  }

  /** A record of the type is live, prepare fails, and the rollback disposes it. */
  lemma RollsItBack(mig: Migration)
    ensures Leads(mig, Prepares(OneLive), RollsBack(OneGone, Some({})))
  {
    var h0 := Prepares(OneLive);
    Stays(mig, h0);
    assert Follows(mig, h0, AbortStep(false), RollsBack(OneLive, None));
    Reopens(mig);
    Disposes(mig);
    hide Follows;
    Then(mig, h0, h0, AbortStep(false), RollsBack(OneLive, None));
    Then(mig, h0, RollsBack(OneLive, None), ReopenStep(0), RollsBack(OneLive, Some({0})));
    Then(mig, h0, RollsBack(OneLive, Some({0})), DisposeStep(0, 0), RollsBack(OneGone, Some({})));
  }

  /** While the rollback awaits that disposal, the type is still served from the pending epoch: record 1 is acquired. */
  function Acquired(status: Status): map<nat, Rec> { map[0 := Disposed(Added(Live)), 1 := Added(status)] }

  lemma {:induction false} Joins(mig: Migration, a: Host, b: Host, c: Host)
    requires Leads(mig, a, b) && Leads(mig, b, c)
    ensures Leads(mig, a, c)
  {
    var steps :| RunsTo(mig, steps, b, c);
    JoinsRun(mig, a, b, steps, c);
  }

  lemma {:induction false} JoinsRun(mig: Migration, a: Host, b: Host, steps: seq<Step>, c: Host)
    requires Leads(mig, a, b) && RunsTo(mig, steps, b, c)
    ensures Leads(mig, a, c)
    decreases |steps|
  {
    if steps != [] {
      var rest, last := steps[..|steps| - 1], steps[|steps| - 1];
      var c0 :| RunsTo(mig, rest, b, c0) && Follows(mig, c0, last, c);
      JoinsRun(mig, a, b, rest, c0);
      hide Follows;
      Then(mig, a, c0, last, c);
    }
  }

  lemma AcquiredMeanwhile(mig: Migration)
    ensures Leads(mig, NewHost(map[]), RollsBack(Acquired(Activating), Some({})))
  {
    var start := NewHost(map[]);
    hide Leads;
    AddsType(mig);
    AcquiresIt(mig, Prepares(map[]), 0);
    assert map[][0 := Added(Activating)] == map[0 := Added(Activating)];
    Joins(mig, start, Prepares(map[]), Prepares(map[0 := Added(Activating)]));
    ActivatesIt(mig, Prepares(map[0 := Added(Activating)]), 0);
    assert map[0 := Added(Activating)][0 := Added(Live)] == map[0 := Added(Live)];
    Joins(mig, start, Prepares(map[0 := Added(Activating)]), Prepares(OneLive));
    RollsItBack(mig);
    Joins(mig, start, Prepares(OneLive), RollsBack(OneGone, Some({})));
    AcquiresIt(mig, RollsBack(OneGone, Some({})), 1);
    assert OneGone[1 := Added(Activating)] == Acquired(Activating);
    Joins(mig, start, RollsBack(OneGone, Some({})), RollsBack(Acquired(Activating), Some({})));
  }

  lemma EndsRollback(mig: Migration, recs: map<nat, Rec>)
    ensures Follows(mig, RollsBack(recs, Some({})), EndRollback(0), RolledBack(recs))
  {
    assert map[0 := Rollback({}, Some({}))] - {0} == map[];
  }

  /**
   * An activation is superseded: it began with the code of a type that a reload adds, while the reload's rollback was
   * disposing the type's other records, and it ends after the rollback.
   */
  lemma ActivationIsSuperseded(mig: Migration) returns (h: Host)
    ensures Reached(mig, h) && Legal(h, Finalize(1)) && Finish(h, 1).recs[1].status.Gone?
  {
    hide Follows, OnReload, Reached, Callable;
    h := RolledBack(Acquired(Activating));
    AcquiredMeanwhile(mig);
    EndsRollback(mig, Acquired(Activating));
    assert Reached(mig, h) by {
      hide Follows;
      Then(mig, NewHost(map[]), RollsBack(Acquired(Activating), Some({})), EndRollback(0), h);
      LedToIsReached(mig, map[], h);
    }
  }

  function LeftBehind(): Host { RolledBack(Acquired(Live)).(reload := None) }

  lemma LivesOn(mig: Migration)
    ensures Leads(mig, RollsBack(Acquired(Activating), Some({})), RollsBack(Acquired(Live), Some({})))
  {
    assert Acquired(Activating)[1 := Added(Live)] == Acquired(Live);
    ActivatesIt(mig, RollsBack(Acquired(Activating), Some({})), 1);
  }

  lemma LeavesOrphan(mig: Migration)
    ensures Leads(mig, NewHost(map[]), LeftBehind())
  {
    var start := NewHost(map[]);
    AcquiredMeanwhile(mig);
    LivesOn(mig);
    EndsRollback(mig, Acquired(Live));
    assert Follows(mig, RolledBack(Acquired(Live)), FreeStep, LeftBehind());
    hide Follows, Leads, RollsBack, RolledBack, LeftBehind;
    Joins(mig, start, RollsBack(Acquired(Activating), Some({})), RollsBack(Acquired(Live), Some({})));
    Then(mig, start, RollsBack(Acquired(Live), Some({})), EndRollback(0), RolledBack(Acquired(Live)));
    Then(mig, start, RolledBack(Acquired(Live)), FreeStep, LeftBehind());
  }

  /**
   * A record survives the rollback of the reload that added its type: it is live on a host where no reload and no
   * rollback runs, its type is not served, and no root can call it.
   */
  lemma OrphanIsLeft(mig: Migration) returns (h: Host)
    ensures Reached(mig, h) && Quiet(h) && !h.failed && Orphan(h, 1)
    ensures forall root :: !Callable(h, 1, root, h.current)
  {
    h := LeftBehind();
    LeavesOrphan(mig);
    LedToIsReached(mig, map[], h);
  }

  // ---------------------------------------------------------------- a reload that changes nothing

  /** The host after a reload of epoch `id` that serves what is served. */
  function NextEpoch(h: Host, id: nat): Host {
    h.(epochs := h.epochs[id := CurrentServices(h)], current := id, previous := Some(h.current), epochSeq := id,
       pending := None, gating := {}, reloads := h.reloads + 1,
       recs := map r | r in h.recs :: Carried(h.recs[r], h.current, id, h.recs[r].status.Live? && h.recs[r].deferred))
  }

  function Unchanged(h: Host, id: nat, phase: Phase, staged: set<nat>): Host {
    h.(epochSeq := id, pending := Some(Pending(id, CurrentServices(h))), reloads := h.reloads + 1,
       gating := if phase.Preparing? then h.gating else {},
       reload := Some(Reload(h.reloads, phase, false, false, id, CurrentServices(h), map[], {}, {}, staged)))
  }

  lemma LoadsUnchanged(mig: Migration, h: Host, id: nat)
    requires h.reload.None? && h.previous.None? && id > h.current
    ensures Leads(mig, h, Unchanged(h, id, Preparing, {}))
  {
    var h1 := StartReload(h);
    Stays(mig, h);
    assert Follows(mig, h, BeginReload, h1);
    assert CurrentServices(h1) == CurrentServices(h);
    assert Follows(mig, h1, LoadStep(id, CurrentServices(h)), Unchanged(h, id, Preparing, {}));
    hide Follows;
    Then(mig, h, h, BeginReload, h1);
    Then(mig, h, h1, LoadStep(id, CurrentServices(h)), Unchanged(h, id, Preparing, {}));
  }

  lemma CutsNothing(mig: Migration, h: Host, id: nat)
    ensures Follows(mig, Unchanged(h, id, Preparing, {}), BlockStep, Unchanged(h, id, Blocked, {}))
    ensures Follows(mig, Unchanged(h, id, Blocked, {}), CutStep, Unchanged(h, id, Draining, {}))
    ensures Follows(mig, Unchanged(h, id, Draining, {}), DrainStep, Unchanged(h, id, Drained, {}))
  {
    var h1, h2 := Unchanged(h, id, Preparing, {}), Unchanged(h, id, Blocked, {});
    assert CurrentServices(h1) == CurrentServices(h) && ChangedTypes(h1) == {};
    assert CurrentServices(h2) == CurrentServices(h) && ChangedTypes(h2) == {};
    assert NothingToDo(h1) && NothingToDo(h2);
    assert CutAll(h2).recs == h2.recs;
    assert GateSet(h2) == {} && LeasedGates(h2) == {};
    assert CutAll(h2) == Unchanged(h, id, Draining, {});
  }

  lemma CommitsUnchanged(mig: Migration, h: Host, id: nat)
    requires h.current in h.epochs && h.reload.None? && h.previous.None?
    ensures Follows(mig, Unchanged(h, id, Drained, {}), MigrateStep, Unchanged(h, id, Ready, Deferred(h)))
    ensures Follows(mig, Unchanged(h, id, Ready, Deferred(h)), CommitStep, NextEpoch(h, id))
  {
    var h1, h2 := Unchanged(h, id, Drained, {}), Unchanged(h, id, Ready, Deferred(h));
    assert MigrateAll(mig, h1).reload.value.candidates == map[];
    assert Deferred(h1) == Deferred(h);
    assert MigrateAll(mig, h1) == h2;
    assert Commit(h2).recs == NextEpoch(h, id).recs;
    assert Commit(h2) == NextEpoch(h, id);
  }

  lemma ChangesNothing(mig: Migration, h: Host, id: nat)
    requires h.current in h.epochs && h.reload.None? && h.previous.None? && id > h.current
    ensures Leads(mig, h, NextEpoch(h, id))
  {
    LoadsUnchanged(mig, h, id);
    CutsNothing(mig, h, id);
    CommitsUnchanged(mig, h, id);
    hide Leads, Follows, Unchanged, NextEpoch;
    Then(mig, h, Unchanged(h, id, Preparing, {}), BlockStep, Unchanged(h, id, Blocked, {}));
    Then(mig, h, Unchanged(h, id, Blocked, {}), CutStep, Unchanged(h, id, Draining, {}));
    Then(mig, h, Unchanged(h, id, Draining, {}), DrainStep, Unchanged(h, id, Drained, {}));
    Then(mig, h, Unchanged(h, id, Drained, {}), MigrateStep, Unchanged(h, id, Ready, Deferred(h)));
    Then(mig, h, Unchanged(h, id, Ready, Deferred(h)), CommitStep, NextEpoch(h, id));
  }

  /**
   * Code of an epoch that was never committed is called: the next reload commits the abandoned id, and the record the
   * rollback left behind has a behavior for it, of a type that is not served.
   */
  lemma AbandonedCodeIsCalled(mig: Migration) returns (h: Host)
    ensures Reached(mig, h) && Quiet(h) && IsLive(h, 1) && h.current == 2 && h.recs[1].behaviors == map[2 := S]
    ensures h.recs[1].typeName !in CurrentServices(h)
    ensures forall root :: Callable(h, 1, root, h.current)
  {
    LeavesOrphan(mig);
    ChangesNothing(mig, LeftBehind(), 2);
    h := NextEpoch(LeftBehind(), 2);
    assert h.recs[1].behaviors == map[2 := S];
    assert CurrentServices(h) == map[];
    hide Leads;
    Joins(mig, NewHost(map[]), LeftBehind(), h);
    LedToIsReached(mig, map[], h);
  }

  // ---------------------------------------------------------------- an epoch that stays pending

  const Dropped: Reload := NoReload.(no := 1, aborted := true, early := true)

  /** A reload that waits for epoch 1 to retire, and is cancelled meanwhile. */
  function Cancelled(previous: Option<nat>): Host {
    Host(if previous.Some? then map[1 := map[], 2 := map[]]
         else map[2 := map[]], 2, previous, 2, None, {}, map[], map[],
         Some(Dropped), map[], 2, false)
  }

  /** The second epoch, and a reload that begins while the first is still retained. */
  lemma WaitsForRetirement(mig: Migration)
    ensures Leads(mig, NewHost(map[]), Cancelled(Some(1)).(reload := Some(NoReload.(no := 1))))
  {
    var start := NewHost(map[]);
    var h0 := NextEpoch(start, 2);
    ChangesNothing(mig, start, 2);
    assert h0.epochs == map[1 := map[], 2 := map[]] && h0.recs == map[];
    var h1 := Cancelled(Some(1)).(reload := Some(NoReload.(no := 1)));
    assert Follows(mig, h0, BeginReload, h1);
    hide Follows, Leads;
    Then(mig, start, h0, BeginReload, h1);
  }

  lemma ReopensNothing(mig: Migration)
    ensures Follows(mig, Cancelled(Some(1)).(rollbacks := map[1 := Rollback({}, None)]), ReopenStep(1),
                    Cancelled(Some(1)))
    ensures Follows(mig, Cancelled(Some(1)), RetireStep, Cancelled(None))
  {
    assert OpenGates(Cancelled(Some(1)).(rollbacks := map[1 := Rollback({}, None)]), {}).recs == map[];
    assert map[1 := Rollback({}, None)] - {1} == map[];
    assert Cancelled(Some(1)).epochs - {1} == Cancelled(None).epochs;
  }

  lemma CancelsWaiting(mig: Migration)
    ensures Leads(mig, NewHost(map[]), Cancelled(None))
  {
    var start := NewHost(map[]);
    var h1 := Cancelled(Some(1)).(reload := Some(NoReload.(no := 1)));
    var h2 := Cancelled(Some(1)).(rollbacks := map[1 := Rollback({}, None)]);
    WaitsForRetirement(mig);
    assert Follows(mig, h1, AbortStep(true), h2);
    ReopensNothing(mig);
    hide Follows, Leads;
    Then(mig, start, h1, AbortStep(true), h2);
    Then(mig, start, h2, ReopenStep(1), Cancelled(Some(1)));
    Then(mig, start, Cancelled(Some(1)), RetireStep, Cancelled(None));
  }

  /**
   * A reload cancelled while it waits for retirement announces its epoch all the same, after its rollback: nobody
   * clears it, and the host serves types of an epoch that no reload will commit.
   */
  lemma PendingIsLeft(mig: Migration) returns (h: Host)
    ensures Reached(mig, h) && Quiet(h) && h.pending.Some? && 8 !in CurrentServices(h) && ServiceOf(h, 8) == Some(S)
  {
    CancelsWaiting(mig);
    var h0 := Cancelled(None);
    var h1 := h0.(epochSeq := 3, pending := Some(Pending(3, map[8 := S])), gating := {8},
                  reload := Some(Dropped.(phase := Preparing, next := 3, services := map[8 := S])));
    h := h1.(reload := None);
    assert Follows(mig, h0, LoadStep(3, map[8 := S]), h1) by {
      assert ChangedTypes(Announce(h0, 3, map[8 := S])) == {8};
    }
    assert Follows(mig, h1, FreeStep, h);
    assert Reached(mig, h) by {
      hide Follows, Leads;
      Then(mig, NewHost(map[]), h0, LoadStep(3, map[8 := S]), h1);
      Then(mig, NewHost(map[]), h1, FreeStep, h);
      LedToIsReached(mig, map[], h);
    }
  }

  // ---------------------------------------------------------------- upgrades of one record

  const V: Service := Service(0, 0)
  const W: Service := Service(2, 1)

  /** Record 0 runs `V`, in epoch 1. */
  const Running: Rec := Rec(7, Live, Some(V), 0, 0, map[1 := V], {}, None, Some(V), false, 0)

  lemma ActivatesServed(mig: Migration)
    ensures Leads(mig, NewHost(map[7 := V]), NewHost(map[7 := V]).(recs := map[0 := Running]))
  {
    var h0 := NewHost(map[7 := V]);
    var h1, h2 := h0.(recs := map[0 := NewRec(7, 0)]), h0.(recs := map[0 := NewRec(7, 0).(service := Some(V))]);
    Stays(mig, h0);
    assert Follows(mig, h0, Acquire(0, 7, 0), h1);
    assert Follows(mig, h1, Begin(0), h2);
    assert Follows(mig, h2, Finalize(0), h0.(recs := map[0 := Running])) by {
      assert BehaviorsFor(h2, 7, V) == map[1 := V];
    }
    hide Follows, Leads;
    Then(mig, h0, h0, Acquire(0, 7, 0), h1);
    Then(mig, h0, h1, Begin(0), h2);
    Then(mig, h0, h2, Finalize(0), h0.(recs := map[0 := Running]));
  }

  /** A reload is about to prepare record 0 only, which no root leases, for new code and a new state version. */
  predicate PreparesOne(h: Host, service: Service) {
    && InPhase(h, Preparing)
    && h.reload.value == NoReload.(no := h.reload.value.no, phase := Preparing, next := h.reload.value.next,
                                   services := h.reload.value.services)
    && IsLive(h, 0) && h.recs[0].leases == {} && ToDo(h, 0) && (forall r | r in h.recs && r != 0 :: !ToDo(h, r))
    && NewServices(h)[h.recs[0].typeName] == service && service.stateVersion != h.recs[0].stateVersion
  }

  function Prepared(h: Host, service: Service, phase: Phase): Host
    requires h.reload.Some?
  {
    h.(reload := Some(h.reload.value.(phase := phase, candidates := map[0 := Candidate(service, true, None)])),
       gating := if phase.Preparing? then h.gating else ChangedTypes(h))
  }

  function CutOne(h: Host, service: Service, phase: Phase): Host
    requires h.reload.Some? && 0 in h.recs
  {
    h.(reload := Some(h.reload.value.(phase := phase, candidates := map[0 := Candidate(service, true, None)],
                                      gated := {0})),
       gating := ChangedTypes(h), recs := h.recs[0 := Cut(h.recs[0])])
  }

  lemma BlocksOne(mig: Migration, h: Host, service: Service)
    requires PreparesOne(h, service)
    ensures Follows(mig, h, PrepareStep(0, false), Prepared(h, service, Preparing))
    ensures Follows(mig, Prepared(h, service, Preparing), BlockStep, Prepared(h, service, Blocked))
  {
    var h1 := Prepared(h, service, Preparing);
    assert Prepare(h, 0, false) == h1 by {
      assert map[][0 := CandidateFor(h, h.recs[0], false)] == map[0 := Candidate(service, true, None)];
    }
    assert ChangedTypes(h1) == ChangedTypes(h);
    assert forall r | r in h.recs && r != 0 :: ToDo(h1, r) == ToDo(h, r);
  }

  lemma CutsOne(mig: Migration, h: Host, service: Service)
    requires PreparesOne(h, service)
    ensures Follows(mig, Prepared(h, service, Blocked), CutStep, CutOne(h, service, Draining))
  {
    var h1 := Prepared(h, service, Blocked);
    assert NothingToDo(h1) by {
      assert forall r | r in h.recs && r != 0 :: ToDo(h1, r) == ToDo(h, r);
    }
    hide ToDo, NothingToDo, ChangedTypes;
    assert forall r :: ToGate(h1, r) <==> r == 0;
    assert GateSet(h1) == {0} && LeasedGates(h1) == {};
    assert CutAll(h1).recs == h.recs[0 := Cut(h.recs[0])];
    assert CutAll(h1) == CutOne(h, service, Draining);
  }

  lemma DrainsOne(mig: Migration, h: Host, service: Service)
    requires PreparesOne(h, service)
    ensures Follows(mig, CutOne(h, service, Draining), DrainStep, CutOne(h, service, Drained))
  {
    hide ChangedTypes, ToDo;
  }

  lemma GatesOne(mig: Migration, h: Host, service: Service)
    requires PreparesOne(h, service)
    ensures Leads(mig, h, CutOne(h, service, Draining)) && Leads(mig, h, CutOne(h, service, Drained))
  {
    Stays(mig, h);
    BlocksOne(mig, h, service);
    CutsOne(mig, h, service);
    DrainsOne(mig, h, service);
    hide Follows, Leads, Prepared, CutOne;
    Then(mig, h, h, PrepareStep(0, false), Prepared(h, service, Preparing));
    Then(mig, h, Prepared(h, service, Preparing), BlockStep, Prepared(h, service, Blocked));
    Then(mig, h, Prepared(h, service, Blocked), CutStep, CutOne(h, service, Draining));
    Then(mig, h, CutOne(h, service, Draining), DrainStep, CutOne(h, service, Drained));
  }

  function ReadyOne(mig: Migration, h: Host, service: Service): Host
    requires h.reload.Some? && 0 in h.recs
  {
    var candidate := Candidate(service, true, Some(mig(service, h.recs[0].stateVersion, h.recs[0].cell)));
    var h1 := CutOne(h, service, Ready);
    h1.(reload := Some(h1.reload.value.(candidates := map[0 := candidate], staged := Deferred(h1))))
  }

  lemma MigratesOne(mig: Migration, h: Host, service: Service)
    requires PreparesOne(h, service)
    ensures Follows(mig, CutOne(h, service, Drained), MigrateStep, ReadyOne(mig, h, service))
  {
    hide ChangedTypes, ToDo;
    var h1, h2 := CutOne(h, service, Drained), ReadyOne(mig, h, service);
    assert MigrateAll(mig, h1).reload.value.candidates == h2.reload.value.candidates;
    assert Deferred(h1) == Deferred(CutOne(h, service, Ready));
    assert MigrateAll(mig, h1) == h2;
  }

  lemma ReadiesOne(mig: Migration, h: Host, service: Service)
    requires PreparesOne(h, service)
    ensures Leads(mig, h, ReadyOne(mig, h, service))
  {
    GatesOne(mig, h, service);
    MigratesOne(mig, h, service);
    hide Follows, Leads, CutOne, ReadyOne, PreparesOne;
    Then(mig, h, CutOne(h, service, Drained), MigrateStep, ReadyOne(mig, h, service));
  }

  // ---------------------------------------------------------------- a rollback beside the next reload

  const T: Service := Service(3, 0)
  const W2: Service := Service(4, 1)

  const Extra: Rec := Rec(8, Live, Some(T), 0, 0, map[2 := T], {}, None, None, true, 0)

  /** Reload 0 upgrades type 7 and adds type 8. */
  function FirstLoaded(recs: map<nat, Rec>): Host {
    NewHost(map[7 := V]).(epochSeq := 2, pending := Some(Pending(2, map[7 := W, 8 := T])), recs := recs, reloads := 1,
                          reload := Some(NoReload.(phase := Preparing, next := 2, services := map[7 := W, 8 := T])))
  }

  lemma LoadsFirst(mig: Migration)
    ensures Leads(mig, NewHost(map[7 := V]), FirstLoaded(map[0 := Running]))
  {
    var start := NewHost(map[7 := V]);
    var h0 := start.(recs := map[0 := Running]);
    var h1 := h0.(reload := Some(NoReload), reloads := 1);
    ActivatesServed(mig);
    assert Follows(mig, h0, BeginReload, h1);
    assert Follows(mig, h1, LoadStep(2, map[7 := W, 8 := T]), FirstLoaded(map[0 := Running]));
    hide Follows, Leads;
    Then(mig, start, h0, BeginReload, h1);
    Then(mig, start, h1, LoadStep(2, map[7 := W, 8 := T]), FirstLoaded(map[0 := Running]));
  }

  lemma ExtraSteps(mig: Migration)
    ensures Follows(mig, FirstLoaded(map[0 := Running]), Acquire(1, 8, 0),
                    FirstLoaded(map[0 := Running, 1 := NewRec(8, 0)]))
    ensures Follows(mig, FirstLoaded(map[0 := Running, 1 := NewRec(8, 0)]), Begin(1),
                    FirstLoaded(map[0 := Running, 1 := NewRec(8, 0).(service := Some(T))]))
  {
    assert map[0 := Running][1 := NewRec(8, 0)] == map[0 := Running, 1 := NewRec(8, 0)];
    assert map[0 := Running, 1 := NewRec(8, 0)][1 := NewRec(8, 0).(service := Some(T))]
        == map[0 := Running, 1 := NewRec(8, 0).(service := Some(T))];
  }

  lemma ExtraIsLive(mig: Migration)
    ensures Follows(mig, FirstLoaded(map[0 := Running, 1 := NewRec(8, 0).(service := Some(T))]), Finalize(1),
                    FirstLoaded(map[0 := Running, 1 := Extra]))
  {
    var h := FirstLoaded(map[0 := Running, 1 := NewRec(8, 0).(service := Some(T))]);
    assert BehaviorsFor(h, 8, T) == map[2 := T];
    assert h.recs[1 := Extra] == map[0 := Running, 1 := Extra];
  }

  lemma AddsExtra(mig: Migration)
    ensures Leads(mig, NewHost(map[7 := V]), FirstLoaded(map[0 := Running, 1 := Extra]))
  {
    var start, added := NewHost(map[7 := V]), NewRec(8, 0);
    LoadsFirst(mig);
    ExtraSteps(mig);
    ExtraIsLive(mig);
    hide Follows, Leads, FirstLoaded;
    Then(mig, start, FirstLoaded(map[0 := Running]), Acquire(1, 8, 0), FirstLoaded(map[0 := Running, 1 := added]));
    Then(mig, start, FirstLoaded(map[0 := Running, 1 := added]), Begin(1),
         FirstLoaded(map[0 := Running, 1 := added.(service := Some(T))]));
    Then(mig, start, FirstLoaded(map[0 := Running, 1 := added.(service := Some(T))]), Finalize(1),
         FirstLoaded(map[0 := Running, 1 := Extra]));
  }

  /** Reload 0 gated record 0, was cancelled, and gave up the slot; its rollback unwinds. */
  function FirstUnwinds(reload: Option<Reload>): Host {
    FirstLoaded(map[0 := Cut(Running), 1 := Extra]).(gating := {7, 8}, reload := reload,
                                                    rollbacks := map[0 := Rollback({0}, None)])
  }

  lemma CancelsFirst(mig: Migration)
    ensures Leads(mig, NewHost(map[7 := V]), FirstUnwinds(None))
  {
    var start, h0 := NewHost(map[7 := V]), FirstLoaded(map[0 := Running, 1 := Extra]);
    var h1 := CutOne(h0, W, Draining);
    AddsExtra(mig);
    assert PreparesOne(h0, W);
    GatesOne(mig, h0, W);
    FirstAborts(mig);
    hide Follows, Leads, CutOne, FirstLoaded, FirstUnwinds;
    Joins(mig, start, h0, h1);
    Then(mig, start, h1, AbortStep(true), FirstUnwinds(Some(FirstAborted)));
    Then(mig, start, FirstUnwinds(Some(FirstAborted)), FreeStep, FirstUnwinds(None));
  }

  const FirstAborted: Reload :=
    NoReload.(phase := Draining, aborted := true, early := true, next := 2, services := map[7 := W, 8 := T])

  lemma FirstAborts(mig: Migration)
    ensures Follows(mig, CutOne(FirstLoaded(map[0 := Running, 1 := Extra]), W, Draining), AbortStep(true),
                    FirstUnwinds(Some(FirstAborted)))
    ensures Follows(mig, FirstUnwinds(Some(FirstAborted)), FreeStep, FirstUnwinds(None))
  {
    var h1 := CutOne(FirstLoaded(map[0 := Running, 1 := Extra]), W, Draining);
    assert h1.gating == {7, 8};
    assert h1.recs == map[0 := Cut(Running), 1 := Extra];
    assert Abort(h1, true).rollbacks == map[0 := Rollback({0}, None)];
  }

  /** Reload 1 upgrades type 7 too. */
  function SecondLoaded(): Host {
    FirstUnwinds(Some(NoReload.(no := 1, phase := Preparing, next := 2, services := map[7 := W2])))
    .(pending := Some(Pending(2, map[7 := W2])), reloads := 2)
  }

  lemma SecondLoads(mig: Migration)
    ensures Follows(mig, FirstUnwinds(None), BeginReload, FirstUnwinds(Some(NoReload.(no := 1))).(reloads := 2))
    ensures Follows(mig, FirstUnwinds(Some(NoReload.(no := 1))).(reloads := 2), LoadStep(2, map[7 := W2]),
                    SecondLoaded())
    ensures PreparesOne(SecondLoaded(), W2)
  {
  }

  lemma SecondIsReady(mig: Migration)
    ensures Leads(mig, NewHost(map[7 := V]), ReadyOne(mig, SecondLoaded(), W2))
  {
    var start, h1 := NewHost(map[7 := V]), FirstUnwinds(Some(NoReload.(no := 1))).(reloads := 2);
    CancelsFirst(mig);
    SecondLoads(mig);
    hide Follows, Leads, ReadyOne, FirstUnwinds, SecondLoaded, PreparesOne;
    ReadiesOne(mig, SecondLoaded(), W2);
    Then(mig, start, FirstUnwinds(None), BeginReload, h1);
    Then(mig, start, h1, LoadStep(2, map[7 := W2]), SecondLoaded());
    Joins(mig, start, SecondLoaded(), ReadyOne(mig, SecondLoaded(), W2));
  }

  /**
   * The rollback of reload 0 opens the gate of a record that reload 1 has drained and migrated, and reload 1 can still
   * commit: what is written now is lost (see OpenGateLosesWrites).
   */
  lemma RollbackOpensForeignGate(mig: Migration) returns (h: Host)
    ensures Reached(mig, h) && InPhase(h, Ready) && h.pending.Some? && !h.failed && IsLive(h, 0) && 0 in Gated(h)
    ensures h.recs[0].gate.None? && 0 in Candidates(h) && Candidates(h)[0].migrated == Some(mig(W2, 0, 0))
    ensures forall root :: Writable(h, 0, root, h.current) && Callable(h, 0, root, h.current)
  {
    var h0 := ReadyOne(mig, SecondLoaded(), W2);
    h := ReopenAll(h0, 0);
    ReadyFacts(mig, h0);
    SecondIsReady(mig);
    hide ReadyOne, Leads;
    Opened(mig, h0);
    hide Follows, ReopenAll;
    assert Reached(mig, h) by {
      Then(mig, NewHost(map[7 := V]), h0, ReopenStep(0), h);
      LedToIsReached(mig, map[7 := V], h);
    }
  }

  /** Reload 1 goes on: the rollback only looks at the record of the type that reload 0 added. */
  lemma Opened(mig: Migration, h: Host)
    requires h.recs == map[0 := Cut(Running), 1 := Extra] && h.rollbacks == map[0 := Rollback({0}, None)]
    requires h.epochs == map[1 := map[7 := V]] && h.current == 1
    ensures Follows(mig, h, ReopenStep(0), ReopenAll(h, 0))
    ensures var h' := ReopenAll(h, 0);
            && h'.reload == h.reload && h'.pending == h.pending && h'.failed == h.failed && h'.epochs == h.epochs
            && h'.current == 1 && 0 in h'.recs && h'.recs[0] == Running
  {
    assert 1 in h.recs && Unserved(h, 1);
    assert Reopened(Cut(Running)) == Running;
  }

  lemma ReadyFacts(mig: Migration, h: Host)
    requires h == ReadyOne(mig, SecondLoaded(), W2)
    ensures h.recs == map[0 := Cut(Running), 1 := Extra] && h.rollbacks == map[0 := Rollback({0}, None)] && !h.failed
    ensures h.epochs == map[1 := map[7 := V]] && h.current == 1 && h.pending.Some? && InPhase(h, Ready)
    ensures Gated(h) == {0} && Candidates(h) == map[0 := Candidate(W2, true, Some(mig(W2, 0, 0)))]
  {
    assert h.recs[0] == Cut(Running);
  }

  // ---------------------------------------------------------------- a call over migrated state

  /** Record 0 in epochs 1 and 2, and a call of root 5, which came over a link, in epoch 1. */
  function InFlight(leases: set<nat>, epochs: map<nat, Services>, reload: Option<Reload>): Host {
    Host(epochs, 2, if 1 in epochs then Some(1) else None, 2, None, {},
         map[0 := Running.(behaviors := map e | e in epochs :: V, leases := leases)],
         map[0 := Call(0, 5, 1, false, V)], reload, map[], if reload.Some? then 2 else 1, false)
  }

  function Both(): map<nat, Services> { map[1 := map[7 := V], 2 := map[7 := V]] }

  function OnlySecond(): map<nat, Services> { map[2 := map[7 := V]] }

  function Calling(): Host {
    NewHost(map[7 := V]).(recs := map[0 := Leased(Running, 5)], calls := map[0 := Call(0, 5, 1, false, V)])
  }

  lemma Calls(mig: Migration)
    ensures Leads(mig, NewHost(map[7 := V]), Calling())
  {
    var start := NewHost(map[7 := V]);
    var h0 := start.(recs := map[0 := Running]);
    ActivatesServed(mig);
    assert Follows(mig, h0, CallStep(0, 0, 5, 1, false), Calling());
    hide Follows, Leads;
    Then(mig, start, h0, CallStep(0, 0, 5, 1, false), Calling());
  }

  lemma MovesOn(mig: Migration)
    ensures NextEpoch(Calling(), 2) == InFlight({5}, Both(), None)
  {
    var h1, h2 := NextEpoch(Calling(), 2), InFlight({5}, Both(), None);
    assert h1.epochs == h2.epochs;
    assert h1.recs[0].behaviors == map[1 := V, 2 := V] == h2.recs[0].behaviors;
    assert h1.recs[0].leases == {5};
    assert h1.recs == h2.recs;
  }

  lemma CallsThenMovesOn(mig: Migration)
    ensures Leads(mig, NewHost(map[7 := V]), InFlight({5}, Both(), None))
  {
    Calls(mig);
    ChangesNothing(mig, Calling(), 2);
    MovesOn(mig);
    hide Leads;
    Joins(mig, NewHost(map[7 := V]), Calling(), InFlight({5}, Both(), None));
  }

  const Waits: Option<Reload> := Some(NoReload.(no := 1))

  lemma Retires(mig: Migration)
    ensures Follows(mig, InFlight({5}, Both(), Waits), RetireStep, InFlight({5}, OnlySecond(), Waits))
  {
    var h, h' := InFlight({5}, Both(), Waits), InFlight({5}, OnlySecond(), Waits);
    assert Both() - {1} == OnlySecond();
    assert h.recs[0].behaviors - {1} == h'.recs[0].behaviors;
    assert Retire(h).recs == h'.recs;
  }

  lemma EndsEarly(mig: Migration)
    ensures Follows(mig, InFlight({5}, OnlySecond(), Waits), EndRoot(5), InFlight({}, OnlySecond(), Waits))
  {
    var h, h' := InFlight({5}, OnlySecond(), Waits), InFlight({}, OnlySecond(), Waits);
    assert {5} - {5} == {};
    assert EndOfRoot(h, 5).recs[0] == h'.recs[0];
    assert EndOfRoot(h, 5).recs == h'.recs;
    assert {} - DrainedBy(h, 5) == {};
  }

  lemma DropsEpoch(mig: Migration)
    ensures Leads(mig, NewHost(map[7 := V]), InFlight({}, OnlySecond(), Waits))
  {
    var start := NewHost(map[7 := V]);
    CallsThenMovesOn(mig);
    assert Follows(mig, InFlight({5}, Both(), None), BeginReload, InFlight({5}, Both(), Waits));
    Retires(mig);
    EndsEarly(mig);
    hide Follows, Leads, InFlight;
    Then(mig, start, InFlight({5}, Both(), None), BeginReload, InFlight({5}, Both(), Waits));
    Then(mig, start, InFlight({5}, Both(), Waits), RetireStep, InFlight({5}, OnlySecond(), Waits));
    Then(mig, start, InFlight({5}, OnlySecond(), Waits), EndRoot(5), InFlight({}, OnlySecond(), Waits));
  }

  function Upgrading(): Host {
    InFlight({}, OnlySecond(), Some(NoReload.(no := 1, phase := Preparing, next := 3, services := map[7 := W])))
    .(epochSeq := 3, pending := Some(Pending(3, map[7 := W])))
  }

  /**
   * A retirement deadline drops epoch 1 under a call; the root's leases end with its link; the next reload's gate
   * drains without it, and its commit migrates the state the call still runs over.
   */
  lemma OldCallOverNewState(mig: Migration) returns (h: Host)
    ensures Reached(mig, h) && IsLive(h, 0) && h.recs[0].stateVersion == 1 && h.recs[0].cell == mig(W, 0, 0)
    ensures 0 in h.calls && h.calls[0].rec == 0 && h.calls[0].service.stateVersion == 0
  {
    var start := NewHost(map[7 := V]);
    var h1 := ReadyOne(mig, Upgrading(), W);
    h := Commit(h1);
    assert Follows(mig, h1, CommitStep, h);
    assert Reached(mig, h) by {
      UpgradeIsReady(mig);
      hide Follows, Leads, Commit, ReadyOne;
      Then(mig, start, h1, CommitStep, h);
      LedToIsReached(mig, map[7 := V], h);
    }
  }

  lemma UpgradeIsReady(mig: Migration)
    ensures Leads(mig, NewHost(map[7 := V]), ReadyOne(mig, Upgrading(), W))
  {
    var start, h0 := NewHost(map[7 := V]), InFlight({}, OnlySecond(), Waits);
    DropsEpoch(mig);
    assert Follows(mig, h0, LoadStep(3, map[7 := W]), Upgrading());
    assert PreparesOne(Upgrading(), W);
    ReadiesOne(mig, Upgrading(), W);
    hide Follows, Leads, ReadyOne, Upgrading;
    Then(mig, start, h0, LoadStep(3, map[7 := W]), Upgrading());
    Joins(mig, start, Upgrading(), ReadyOne(mig, Upgrading(), W));
  }

  // ---------------------------------------------------------------- a behavior for an epoch that never is

  /** A reload that changes nothing is pending as epoch 2, and record 0 activates meanwhile. */
  function Meanwhile(rec: Rec): Host { Unchanged(NewHost(map[7 := V]).(recs := map[0 := rec]), 2, Preparing, {}) }

  const Both0: Rec := Running.(behaviors := map[1 := V, 2 := V])

  lemma TwoBehaviors(mig: Migration)
    ensures var begun := NewRec(7, 0).(service := Some(V));
            && Follows(mig, Meanwhile(NewRec(7, 0)), Begin(0), Meanwhile(begun))
            && Follows(mig, Meanwhile(begun), Finalize(0), Meanwhile(Both0))
  {
    assert Follows(mig, Meanwhile(NewRec(7, 0)), Begin(0), Meanwhile(NewRec(7, 0).(service := Some(V))));
    GetsBoth(mig);
  }

  lemma GetsBoth(mig: Migration)
    ensures Follows(mig, Meanwhile(NewRec(7, 0).(service := Some(V))), Finalize(0), Meanwhile(Both0))
  {
    assert BehaviorsFor(Meanwhile(NewRec(7, 0).(service := Some(V))), 7, V) == map[1 := V, 2 := V];
  }

  lemma ActivatesMeanwhile(mig: Migration)
    ensures Leads(mig, NewHost(map[7 := V]), Meanwhile(Both0))
  {
    var start := NewHost(map[7 := V]);
    var h0 := start.(recs := map[0 := NewRec(7, 0)]);
    var begun := NewRec(7, 0).(service := Some(V));
    Stays(mig, start);
    assert Follows(mig, start, Acquire(0, 7, 0), h0);
    LoadsUnchanged(mig, h0, 2);
    TwoBehaviors(mig);
    hide Follows, Leads;
    Then(mig, start, start, Acquire(0, 7, 0), h0);
    Joins(mig, start, h0, Meanwhile(NewRec(7, 0)));
    Then(mig, start, Meanwhile(NewRec(7, 0)), Begin(0), Meanwhile(begun));
    Then(mig, start, Meanwhile(begun), Finalize(0), Meanwhile(Both0));
  }

  function Given(pending: Option<Pending>, reload: Option<Reload>, rollbacks: map<nat, Rollback>): Host {
    Meanwhile(Both0).(pending := pending, reload := reload, rollbacks := rollbacks)
  }

  lemma GivesUp(mig: Migration)
    ensures var h := Meanwhile(Both0);
            var aborted := h.reload.value.(aborted := true);
            && Follows(mig, h, AbortStep(false), Given(h.pending, Some(aborted), map[0 := Rollback({}, None)]))
            && Follows(mig, Given(h.pending, Some(aborted), map[0 := Rollback({}, None)]), ReopenStep(0),
                       Given(None, Some(aborted), map[]))
            && Follows(mig, Given(None, Some(aborted), map[]), FreeStep, Given(None, None, map[]))
  {
    var h := Given(Meanwhile(Both0).pending, Some(Meanwhile(Both0).reload.value.(aborted := true)),
                   map[0 := Rollback({}, None)]);
    assert OpenGates(h, {}).recs == h.recs;
    assert map[0 := Rollback({}, None)] - {0} == map[];
  }

  /**
   * A record activated while a reload is pending gets a behavior for the pending epoch too. If the reload is rolled
   * back that behavior stays, for an epoch that is neither retained nor pending.
   */
  lemma AbandonedEpochKeepsItsBehavior(mig: Migration) returns (h: Host)
    ensures Reached(mig, h) && Quiet(h) && IsLive(h, 0) && h.pending.None? && h.epochs.Keys == {1}
    ensures 2 in h.recs[0].behaviors
  {
    h := Given(None, None, map[]);
    assert Reached(mig, h) by {
      var start, h0 := NewHost(map[7 := V]), Meanwhile(Both0);
      var aborted := h0.reload.value.(aborted := true);
      ActivatesMeanwhile(mig);
      GivesUp(mig);
      hide Follows, Leads, Given;
      Then(mig, start, h0, AbortStep(false), Given(h0.pending, Some(aborted), map[0 := Rollback({}, None)]));
      Then(mig, start, Given(h0.pending, Some(aborted), map[0 := Rollback({}, None)]), ReopenStep(0),
           Given(None, Some(aborted), map[]));
      Then(mig, start, Given(None, Some(aborted), map[]), FreeStep, h);
      LedToIsReached(mig, map[7 := V], h);
    }
  }

  // ---------------------------------------------------------------- tasks that do not start

  function Adds(phase: Phase, status: Status): Host {
    Prepares(map[0 := Added(status)]).(gating := {8}, reload := Some(Adding.(phase := phase)))
  }

  lemma BlocksAdded(mig: Migration)
    ensures Follows(mig, Prepares(map[0 := Added(Activating)]), BlockStep, Adds(Blocked, Activating))
    ensures Follows(mig, Adds(Draining, Activating), DrainStep, Adds(Drained, Activating))
  {
    assert ChangedTypes(Prepares(map[0 := Added(Activating)])) == {8};
  }

  lemma CutsAdded(mig: Migration)
    ensures Follows(mig, Adds(Blocked, Activating), CutStep, Adds(Draining, Activating))
  {
    var h := Adds(Blocked, Activating);
    assert GateSet(h) == {} && LeasedGates(h) == {};
    assert CutAll(h).recs == h.recs;
    assert CutAll(h) == Adds(Draining, Activating);
  }

  lemma MigratesAdded(mig: Migration)
    ensures Follows(mig, Adds(Drained, Activating), MigrateStep, Adds(Ready, Activating))
  {
    var h := Adds(Drained, Activating);
    assert MigrateAll(mig, h).reload.value.candidates == map[];
    assert Deferred(h) == {};
    assert MigrateAll(mig, h) == Adds(Ready, Activating);
  }

  lemma AddsAndWaits(mig: Migration)
    ensures Leads(mig, NewHost(map[]), Adds(Ready, Activating))
  {
    var start, h0 := NewHost(map[]), Prepares(map[0 := Added(Activating)]);
    AddsType(mig);
    AcquiresIt(mig, Prepares(map[]), 0);
    assert map[][0 := Added(Activating)] == map[0 := Added(Activating)];
    BlocksAdded(mig);
    CutsAdded(mig);
    MigratesAdded(mig);
    hide Follows, Leads, Adds;
    Joins(mig, start, Prepares(map[]), h0);
    Then(mig, start, h0, BlockStep, Adds(Blocked, Activating));
    Then(mig, start, Adds(Blocked, Activating), CutStep, Adds(Draining, Activating));
    Then(mig, start, Adds(Draining, Activating), DrainStep, Adds(Drained, Activating));
    Then(mig, start, Adds(Drained, Activating), MigrateStep, Adds(Ready, Activating));
  }

  lemma CommitsAdded(mig: Migration)
    ensures Follows(mig, Adds(Ready, Activating), Finalize(0), Adds(Ready, Live))
    ensures Follows(mig, Adds(Ready, Live), CommitStep, Commit(Adds(Ready, Live)))
  {
    assert BehaviorsFor(Adds(Ready, Activating), 8, S) == map[2 := S];
  }

  /**
   * A record of an added type that becomes live between the end of prepare and the commit never starts its listeners
   * and tasks: after the commit it is open and served, and its runtime still waits for a commit.
   */
  lemma LateRecordStaysDeferred(mig: Migration) returns (h: Host)
    ensures Reached(mig, h) && Quiet(h) && IsLive(h, 0) && RunsCurrent(h, 0)
    ensures h.recs[0].deferred && h.recs[0].tasks.None? && !Notifiable(h, 0)
  {
    var h1 := Adds(Ready, Live);
    h := Commit(h1);
    assert Reached(mig, h) by {
      AddsAndWaits(mig);
      CommitsAdded(mig);
      hide Follows, Leads, Adds, Commit;
      Then(mig, NewHost(map[]), Adds(Ready, Activating), Finalize(0), h1);
      Then(mig, NewHost(map[]), h1, CommitStep, h);
      LedToIsReached(mig, map[], h);
    }
  }
}
