/** What holds in every run of a host that reloads. */
module HotReloadSafety {
  import opened Wrappers
  import opened HotReload
  import opened HotReloadInvariant

  ghost predicate RunsTo(mig: Migration, steps: seq<Step>, from: Host, h: Host)
    decreases |steps|
  {
    if steps == [] then h == from
    else
      var rest, last := steps[..|steps| - 1], steps[|steps| - 1];
      exists h0 :: RunsTo(mig, rest, from, h0) && Follows(mig, h0, last, h)
  }

  ghost predicate Follows(mig: Migration, h0: Host, step: Step, h: Host) {
    Legal(h0, step) && h == Apply(mig, h0, step)
  }

  lemma {:induction false} AlwaysInv(mig: Migration, steps: seq<Step>, from: Host, h: Host)
    requires RunsTo(mig, steps, from, h) && Inv(mig, from)
    ensures Inv(mig, h)
    decreases |steps|
  {
    hide Inv, Legal, Apply;
    if steps == [] {
    } else {
      var rest, last := steps[..|steps| - 1], steps[|steps| - 1];
      var h0 :| RunsTo(mig, rest, from, h0) && Follows(mig, h0, last, h);
      AlwaysInv(mig, rest, from, h0);
      StepKeepsInv(mig, h0, last);
    }
  }

  ghost predicate Reached(mig: Migration, h: Host) {
    exists services, steps :: RunsTo(mig, steps, NewHost(services), h)
  }

  lemma ReachedInv(mig: Migration, h: Host)
    requires Reached(mig, h)
    ensures Inv(mig, h)
  {
    var services, steps :| RunsTo(mig, steps, NewHost(services), h);
    InitInv(mig, services);
    hide Inv;
    AlwaysInv(mig, steps, NewHost(services), h);
  }

  // ---------------------------------------------------------------- one step, one record

  /** A commit that does not fail. */
  predicate Commits(h: Host, step: Step) { step.CommitStep? && h.pending.Some? }

  predicate Writes(step: Step, r: nat) { (step.Write? || step.TaskWrite?) && step.r == r }

  /** Rollback `k` will open the gate of `r`, whoever put it up. */
  predicate Threatens(h: Host, k: nat, r: nat) {
    k in h.rollbacks && h.rollbacks[k].todo.None? && r in h.rollbacks[k].gated
  }

  predicate Opens(h: Host, step: Step, r: nat) { step.ReopenStep? && Threatens(h, step.k, r) }

  /** What a step other than a commit does to a record that is not activating. */
  predicate RecMoves(h: Host, step: Step, r: nat, rec: Rec, rec': Rec) {
    && rec'.typeName == rec.typeName && rec'.service == rec.service && rec'.stateVersion == rec.stateVersion
    && rec'.minEpoch == rec.minEpoch && rec'.deferred == rec.deferred
    && !rec'.status.Activating? && (rec'.status.Live? ==> rec.status.Live?)
    && (rec'.behaviors == if step.RetireStep? && h.previous.Some? then rec.behaviors - {h.previous.value}
        else rec.behaviors)
    && (!Writes(step, r) ==> rec'.cell == rec.cell)
    && (!step.CutStep? ==> (rec'.gate.Some? <==> rec.gate.Some? && !Opens(h, step, r)))
  }

  lemma RecordStepOnRec(h: Host, step: Step, r: nat)
    requires !OnReload(step) && LegalRecord(h, step) && r in h.recs && !h.recs[r].status.Activating?
    ensures r in ApplyRecord(h, step).recs && RecMoves(h, step, r, h.recs[r], ApplyRecord(h, step).recs[r])
  {
    hide Admits, ServiceOf, BehaviorsFor, MayEnd, Notifiable, Writable;
  }

  /** Steps of a reload that change no record. */
  predicate LeavesRecords(h: Host, step: Step) {
    OnReload(step) && !step.CutStep? && !step.ReopenStep? && !step.DisposeStep? && !Commits(h, step)
  }

  lemma RecordsLeft(mig: Migration, h: Host, step: Step)
    requires LeavesRecords(h, step) && LegalReload(h, step)
    ensures ApplyReload(mig, h, step).recs == h.recs
  {
    hide Changed, ToDo, NothingToDo, IsFresh, CurrentServices, ChangedTypes, Migrated, CandidateFor;
  }

  lemma CutOnRec(h: Host, r: nat)
    requires h.reload.Some? && r in h.recs && !h.recs[r].status.Activating?
    ensures RecMoves(h, CutStep, r, h.recs[r], CutAll(h).recs[r])
  {
    hide ToGate;
  }

  lemma ReopenOnRec(h: Host, k: nat, r: nat)
    requires k in h.rollbacks && h.rollbacks[k].todo.None? && r in h.recs && !h.recs[r].status.Activating?
    ensures r in ReopenAll(h, k).recs && RecMoves(h, ReopenStep(k), r, h.recs[r], ReopenAll(h, k).recs[r])
  {
    hide Unserved;
    assert ReopenAll(h, k).recs == OpenGates(h, h.rollbacks[k].gated).recs by {
      hide OpenGates;
    }
    hide ReopenAll;
  }

  lemma ReloadStepOnRec(mig: Migration, h: Host, step: Step, r: nat)
    requires OnReload(step) && LegalReload(h, step) && !Commits(h, step) && r in h.recs && !h.recs[r].status.Activating?
    ensures r in ApplyReload(mig, h, step).recs && RecMoves(h, step, r, h.recs[r], ApplyReload(mig, h, step).recs[r])
  {
    hide Changed, ToDo, NothingToDo, IsFresh, CurrentServices;
    hide StartReload, Load, Prepare, Block, MigrateAll, Commit, Abort, Free;
    if LeavesRecords(h, step) {
      RecordsLeft(mig, h, step);
      hide ApplyReload, LegalReload;
    } else if step.CutStep? {
      CutOnRec(h, r);
      hide RecMoves;
    } else if step.ReopenStep? {
      ReopenOnRec(h, step.k, r);
      hide RecMoves;
    } else {
      hide CutAll, ReopenAll;
    }
  }

  lemma StepOnRec(mig: Migration, h: Host, step: Step, r: nat)
    requires Legal(h, step) && !Commits(h, step) && r in h.recs && !h.recs[r].status.Activating?
    ensures r in Apply(mig, h, step).recs && RecMoves(h, step, r, h.recs[r], Apply(mig, h, step).recs[r])
  {
    hide RecMoves, LegalRecord, LegalReload, ApplyRecord, ApplyReload;
    if OnReload(step) {
      ReloadStepOnRec(mig, h, step, r);
    } else {
      RecordStepOnRec(h, step, r);
    }
  }

  /** Steps on records leave the reload, what is pending and the rollbacks alone. */
  predicate SameReload(h: Host, h': Host) {
    && h'.current == h.current && h'.pending == h.pending && h'.gating == h.gating && h'.rollbacks == h.rollbacks
    && h'.failed == h.failed && (h'.reload.Some? <==> h.reload.Some?)
    && (h.reload.Some? ==> h'.reload.value == h.reload.value.(undrained := h'.reload.value.undrained))
  }

  lemma RecordStepOnHost(h: Host, step: Step)
    requires !OnReload(step) && LegalRecord(h, step)
    ensures SameReload(h, ApplyRecord(h, step))
    ensures !step.RetireStep? ==> ApplyRecord(h, step).epochs == h.epochs && ApplyRecord(h, step).previous == h.previous
  {
    hide Admits, ServiceOf, BehaviorsFor, MayEnd, Callable, Notifiable, Writable;
  }

  // ---------------------------------------------------------------- old code

  /**
   * In every state, whatever overlaps: no behavior a live record retains, and none of its tasks, runs over another
   * version of its state; and a call of an epoch that serves the record's type runs the code that epoch serves. What
   * a call of another epoch runs, ServedStaysIff says.
   */
  lemma NoOldCodeOverNewState(mig: Migration, h: Host, r: nat)
    requires Reached(mig, h) && IsLive(h, r)
    ensures forall e | e in h.recs[r].behaviors :: h.recs[r].behaviors[e].stateVersion == h.recs[r].stateVersion
    ensures h.recs[r].tasks.Some? ==> h.recs[r].tasks.value.stateVersion == h.recs[r].stateVersion
    ensures forall root, e | Callable(h, r, root, e) && h.recs[r].typeName in h.epochs[e] ::
              h.recs[r].behaviors[e] == h.epochs[e][h.recs[r].typeName]
  {
    ReachedInv(mig, h);
    assert RecOk(h, h.recs[r]);
  }

  /** Every call in flight on a live record runs over the state version the record has. */
  ghost predicate CallsMatch(h: Host) {
    forall c | c in h.calls && IsLive(h, h.calls[c].rec) ::
      h.calls[c].service.stateVersion == h.recs[h.calls[c].rec].stateVersion
  }

  /** A call in flight on a record whose state version the reload changes. */
  predicate Stranded(h: Host, c: nat) {
    && c in h.calls && IsLive(h, h.calls[c].rec) && h.calls[c].rec in Candidates(h)
    && Candidates(h)[h.calls[c].rec].service.stateVersion != h.recs[h.calls[c].rec].stateVersion
  }

  /**
   * Every step keeps calls in flight off migrated state, except a commit that finds a call on a record whose state
   * version it changes.
   */
  lemma CallsMatchIff(mig: Migration, h: Host, step: Step)
    requires Inv(mig, h) && Legal(h, step) && CallsMatch(h)
    ensures CallsMatch(Apply(mig, h, step)) <==> (step.CommitStep? && h.pending.Some? ==> forall c :: !Stranded(h, c))
  {
    if step.CommitStep? && h.pending.Some? {
      CommitMatchesIff(mig, h);
    } else {
      StepMatches(mig, h, step);
    }
  }

  lemma CommitMatchesIff(mig: Migration, h: Host)
    requires Inv(mig, h) && InPhase(h, Ready) && h.pending.Some? && CallsMatch(h)
    ensures CallsMatch(Commit(h)) <==> forall c :: !Stranded(h, c)
  {
    var h' := Commit(h);
    forall c | c in h.calls && IsLive(h', h.calls[c].rec)
      ensures h.calls[c].service.stateVersion == h'.recs[h.calls[c].rec].stateVersion <==> !Stranded(h, c)
    {
      CommitMatchesOne(mig, h, c);
    }
    forall c | Stranded(h, c) ensures IsLive(h', h.calls[c].rec) {
      assert CandidateOk(h, h.calls[c].rec);
    }
  }

  lemma CommitMatchesOne(mig: Migration, h: Host, c: nat)
    requires Inv(mig, h) && InPhase(h, Ready) && h.pending.Some? && CallsMatch(h)
    requires c in h.calls && IsLive(Commit(h), h.calls[c].rec)
    ensures h.calls[c].service.stateVersion == Commit(h).recs[h.calls[c].rec].stateVersion <==> !Stranded(h, c)
  {
    assert CallOk(h, h.calls[c]);
  }

  lemma StepMatches(mig: Migration, h: Host, step: Step)
    requires Inv(mig, h) && Legal(h, step) && CallsMatch(h) && !Commits(h, step)
    ensures CallsMatch(Apply(mig, h, step))
  {
    var h' := Apply(mig, h, step);
    NewCallMatches(mig, h, step);
    forall c | c in h'.calls && IsLive(h', h'.calls[c].rec)
      ensures h'.calls[c].service.stateVersion == h'.recs[h'.calls[c].rec].stateVersion
    {
      if c in h.calls {
        assert CallOk(h, h.calls[c]);
        hide Inv, Legal, Apply;
        StepOnRec(mig, h, step, h.calls[c].rec);
      }
    }
  }

  /** A step begins one call at most, with code for the state the record has. */
  lemma NewCallMatches(mig: Migration, h: Host, step: Step)
    requires Inv(mig, h) && Legal(h, step) && !Commits(h, step)
    ensures var h' := Apply(mig, h, step);
            && (forall c | c in h'.calls && c in h.calls :: h'.calls[c] == h.calls[c])
            && forall c | c in h'.calls && c !in h.calls ::
                 h'.calls[c].rec in h'.recs && h'.calls[c].service.stateVersion == h'.recs[h'.calls[c].rec].stateVersion
  {
    hide LegalReload, ApplyReload;
    if OnReload(step) {
      ReloadStepOnHost(mig, h, step);
    } else {
      if step.CallStep? || step.Listen? {
        assert RecOk(h, h.recs[step.r]);
      }
      hide Admits, ServiceOf, BehaviorsFor, MayEnd, Inv, RecOk, Finish, Start, Retire;
    }
  }

  /**
   * A stranded call is there only because somebody opened the record's gate, or because its root's leases ended early
   * (its epoch was dropped under it). In the second case it can neither write nor call any more.
   */
  lemma StrandedIsOpenOrDropped(mig: Migration, h: Host, c: nat)
    requires Reached(mig, h) && InPhase(h, Ready) && Stranded(h, c)
    ensures h.recs[h.calls[c].rec].gate.None? || (!h.calls[c].local && h.calls[c].epoch !in h.epochs)
    ensures h.calls[c].epoch !in h.epochs ==>
              forall r :: !Writable(h, r, h.calls[c].root, h.calls[c].epoch)
                && !Callable(h, r, h.calls[c].root, h.calls[c].epoch)
  {
    ReachedInv(mig, h);
    var r := h.calls[c].rec;
    assert CandidateOk(h, r) && CallOk(h, h.calls[c]);
    assert GateOk(h, r);
  }

  // ---------------------------------------------------------------- gates

  /**
   * From a drained gate until commit or rollback a gated record admits nothing (no call, no write, no listener, no
   * task, no call of a living root in flight) if and only if its gate is still up.
   */
  lemma DrainedGateAdmitsNothingIff(mig: Migration, h: Host, r: nat)
    requires Reached(mig, h) && HasDrained(h) && r in Gated(h) && IsLive(h, r) && !h.failed
    ensures (forall root, epoch :: !Callable(h, r, root, epoch) && !Writable(h, r, root, epoch))
            <==> h.recs[r].gate.Some?
    ensures h.recs[r].gate.Some? ==>
              && !Notifiable(h, r) && h.recs[r].tasks.None?
              && forall c | c in h.calls && h.calls[c].rec == r :: !Protected(h, h.calls[c])
  {
    ReachedInv(mig, h);
    assert GateOk(h, r) && RecOk(h, h.recs[r]);
    if h.recs[r].gate.None? {
      assert Writable(h, r, 0, h.current);
    }
    forall c | c in h.calls && h.calls[c].rec == r && h.recs[r].gate.Some? ensures !Protected(h, h.calls[c]) {
      assert CallOk(h, h.calls[c]);
    }
  }

  function Undrained(h: Host): set<nat> { if h.reload.Some? then h.reload.value.undrained else {} }

  function GateOf(h: Host, r: nat): Option<set<nat>> { if r in h.recs then h.recs[r].gate else None }

  /** A gate the reload waits for still admits a root, if it is up. */
  ghost predicate WaitsForRoots(h: Host) {
    forall r | r in Undrained(h) && GateOf(h, r).Some? :: GateOf(h, r) != Some({})
  }

  lemma EndOfRootWaits(h: Host, root: nat)
    requires WaitsForRoots(h)
    ensures WaitsForRoots(EndOfRoot(h, root))
  {
    var h' := EndOfRoot(h, root);
    forall r | r in Undrained(h') && GateOf(h', r).Some? ensures GateOf(h', r) != Some({}) {
      var gate := GateOf(h, r).value;
      assert r in Undrained(h) && r in h.recs && r !in DrainedBy(h, root) && gate != {};
      assert root !in gate ==> gate - {root} == gate;
    }
  }

  lemma RecordStepOnGate(h: Host, step: Step, r: nat)
    requires !OnReload(step) && LegalRecord(h, step) && !step.EndRoot?
    ensures GateOf(ApplyRecord(h, step), r) == GateOf(h, r)
    ensures ApplyRecord(h, step).reload == h.reload
  {
  }

  lemma ReloadStepOnGate(mig: Migration, h: Host, step: Step, r: nat)
    requires OnReload(step) && LegalReload(h, step) && !step.CutStep?
    ensures var h' := ApplyReload(mig, h, step);
            && (GateOf(h', r) == GateOf(h, r) || GateOf(h', r).None?)
            && (Undrained(h') == Undrained(h) || Undrained(h') == {})
            && (!step.AbortStep? && InPhase(h, Draining) && Undrained(h) != {} ==> h'.reload == h.reload)
  {
    assert GateOf(ApplyReload(mig, h, step), r) == GateOf(h, r) || GateOf(ApplyReload(mig, h, step), r).None? by {
      ReloadStepOpens(mig, h, step, r);
    }
    hide GateOf, Changed, ToDo, NothingToDo, IsFresh, CurrentServices, Unserved, Migrated, CandidateFor, Published,
      OpenGates;
  }

  lemma ReloadStepOpens(mig: Migration, h: Host, step: Step, r: nat)
    requires OnReload(step) && LegalReload(h, step) && !step.CutStep?
    ensures GateOf(ApplyReload(mig, h, step), r) == GateOf(h, r) || GateOf(ApplyReload(mig, h, step), r).None?
  {
    hide Changed, ToDo, NothingToDo, IsFresh, CurrentServices, Unserved, StartReload, Load, Prepare, Block, MigrateAll,
      Abort, Free;
    if LeavesRecords(h, step) {
      RecordsLeft(mig, h, step);
      hide ApplyReload, LegalReload, Commit, ReopenAll;
    }
  }

  lemma StepKeepsWaiting(mig: Migration, h: Host, step: Step)
    requires WaitsForRoots(h) && Legal(h, step)
    ensures WaitsForRoots(Apply(mig, h, step))
  {
    var h' := Apply(mig, h, step);
    hide ApplyRecord, ApplyReload, LegalRecord, LegalReload;
    if step.EndRoot? {
      EndRootIs(h, step.root);
      EndOfRootWaits(h, step.root);
    } else if step.CutStep? {
      CutIs(mig, h);
      hide ToGate;
      assert forall r | r in Undrained(h') :: GateOf(h', r) == Some(h.recs[r].leases);
    } else {
      forall r | r in Undrained(h') && GateOf(h', r).Some? ensures GateOf(h', r) != Some({}) {
        if OnReload(step) {
          ReloadStepOnGate(mig, h, step, r);
        } else {
          RecordStepOnGate(h, step, r);
        }
      }
    }
  }

  lemma EndRootIs(h: Host, root: nat)
    ensures LegalRecord(h, EndRoot(root)) ==> ApplyRecord(h, EndRoot(root)) == EndOfRoot(h, root)
  {
  }

  lemma CutIs(mig: Migration, h: Host)
    ensures LegalReload(h, CutStep) ==> h.reload.Some? && ApplyReload(mig, h, CutStep) == CutAll(h)
  {
  }

  lemma {:induction false} AlwaysWaits(mig: Migration, steps: seq<Step>, from: Host, h: Host)
    requires RunsTo(mig, steps, from, h) && WaitsForRoots(from)
    ensures WaitsForRoots(h)
    decreases |steps|
  {
    hide WaitsForRoots, Legal, Apply;
    if steps == [] {
    } else {
      var rest, last := steps[..|steps| - 1], steps[|steps| - 1];
      var h0 :| RunsTo(mig, rest, from, h0) && Follows(mig, h0, last, h);
      AlwaysWaits(mig, rest, from, h0);
      StepKeepsWaiting(mig, h0, last);
    }
  }

  /** A reload waits for a gate that is up exactly as long as the gate admits a root: it drains with its last one. */
  lemma DrainsWithItsLastRoot(mig: Migration, h: Host, r: nat)
    requires Reached(mig, h) && IsGating(h) && r in Gated(h)
    ensures r in h.recs && (h.recs[r].gate.Some? ==> (r in Undrained(h) <==> h.recs[r].gate != Some({})))
  {
    ReachedInv(mig, h);
    assert GateOk(h, r);
    hide Inv;
    var services, steps :| RunsTo(mig, steps, NewHost(services), h);
    AlwaysWaits(mig, steps, NewHost(services), h);
    assert GateOf(h, r) == h.recs[r].gate;
  }

  /**
   * A gate that an earlier rollback opened before it drained never drains: the reload waits for it until it is aborted,
   * by its deadline at the latest.
   */
  lemma OpenedGateNeverDrains(mig: Migration, h: Host, step: Step, r: nat)
    requires InPhase(h, Draining) && r in Undrained(h) && GateOf(h, r).None? && Legal(h, step) && !step.AbortStep?
    ensures var h' := Apply(mig, h, step);
            InPhase(h', Draining) && r in Undrained(h') && GateOf(h', r).None?
  {
    hide ApplyRecord, ApplyReload, LegalRecord, LegalReload;
    if step.EndRoot? {
      EndRootIs(h, step.root);
    } else if OnReload(step) {
      NotCutAgain(h, step);
      ReloadStepOnGate(mig, h, step, r);
    } else {
      RecordStepOnGate(h, step, r);
    }
  }

  lemma NotCutAgain(h: Host, step: Step)
    requires InPhase(h, Draining) && OnReload(step) && LegalReload(h, step)
    ensures !step.CutStep?
  {
  }

  /** Reload `no` has its gates up, one of them on the live record `r`. */
  predicate Gates(h: Host, no: nat, r: nat) { IsGating(h) && h.reload.value.no == no && r in Gated(h) && IsLive(h, r) }

  lemma StepKeepsGate(mig: Migration, h: Host, step: Step, no: nat, r: nat)
    requires Inv(mig, h) && Legal(h, step) && Gates(h, no, r) && Gates(Apply(mig, h, step), no, r)
    ensures Apply(mig, h, step).recs[r].gate.Some? <==> h.recs[r].gate.Some? && !Opens(h, step, r)
    ensures forall k :: Threatens(Apply(mig, h, step), k, r) <==> Threatens(h, k, r) && step != ReopenStep(k)
  {
    hide RecsOk, CandidatesOk, GatesOk, GatesOwned, FixpointOk, CallsOk, MigratedOk;
    assert !step.CommitStep? && !step.CutStep? && !step.AbortStep?;
    StepOnRec(mig, h, step, r);
    hide RecMoves;
    if OnReload(step) {
      RollbacksMove(mig, h, step, r);
    } else {
      RecordStepOnHost(h, step);
    }
  }

  lemma RollbacksMove(mig: Migration, h: Host, step: Step, r: nat)
    requires OnReload(step) && LegalReload(h, step) && !step.AbortStep?
    ensures forall k :: Threatens(ApplyReload(mig, h, step), k, r) <==> Threatens(h, k, r) && step != ReopenStep(k)
  {
    hide Changed, ToDo, NothingToDo, IsFresh, CurrentServices;
  }

  /** `h` is reached from `from` while reload `no` keeps its gates up and `r` lives. */
  ghost predicate GatesThrough(mig: Migration, steps: seq<Step>, from: Host, h: Host, no: nat, r: nat)
    decreases |steps|
  {
    Gates(h, no, r) &&
    if steps == [] then h == from
    else
      var rest, last := steps[..|steps| - 1], steps[|steps| - 1];
      exists h0 :: GatesThrough(mig, rest, from, h0, no, r) && Follows(mig, h0, last, h)
  }

  /**
   * A gate stays up until commit or rollback if and only if no rollback of an earlier reload, which gated the same
   * record and had not reopened it when the gate went up, reopens it meanwhile.
   */
  lemma {:induction false} GateStaysUpIff(mig: Migration, steps: seq<Step>, from: Host, h: Host, no: nat, r: nat)
    requires GatesThrough(mig, steps, from, h, no, r) && Inv(mig, from) && r in from.recs && from.recs[r].gate.Some?
    ensures h.recs[r].gate.Some? <==> forall k | ReopenStep(k) in steps :: !Threatens(from, k, r)
    ensures forall k :: Threatens(h, k, r) <==> Threatens(from, k, r) && ReopenStep(k) !in steps
    ensures Inv(mig, h)
    decreases |steps|
  {
    hide Inv, Legal, Apply, Threatens, Gates;
    if steps == [] {
    } else {
      var rest, last := steps[..|steps| - 1], steps[|steps| - 1];
      var h0 :| GatesThrough(mig, rest, from, h0, no, r) && Follows(mig, h0, last, h);
      GateStaysUpIff(mig, rest, from, h0, no, r);
      assert steps == rest + [last];
      StepKeepsGate(mig, h0, last, no, r);
      StepKeepsInv(mig, h0, last);
    }
  }

  /**
   * If no rollback that gated a record is unwinding when its gate goes up, nothing opens the gate before its reload
   * does.
   */
  lemma WithoutOverlapGatesHold(mig: Migration, steps: seq<Step>, from: Host, h: Host, no: nat, r: nat)
    requires GatesThrough(mig, steps, from, h, no, r) && Inv(mig, from) && r in from.recs && from.recs[r].gate.Some?
    requires forall k :: !Threatens(from, k, r)
    ensures h.recs[r].gate.Some?
  {
    hide Inv, Threatens;
    GateStaysUpIff(mig, steps, from, h, no, r);
  }

  /** If one is, it may open the gate at any moment, and the record admits calls and writes again. */
  lemma WithOverlapGatesOpen(mig: Migration, h: Host, no: nat, r: nat, k: nat)
    requires Inv(mig, h) && Gates(h, no, r) && Threatens(h, k, r) && !h.failed
    ensures Legal(h, ReopenStep(k))
    ensures var h' := Apply(mig, h, ReopenStep(k));
            Gates(h', no, r) && h'.recs[r].gate.None? && forall root :: Writable(h', r, root, h'.current)
  {
    assert RecOk(h, h.recs[r]) && EpochsOk(h);
    hide Inv, CurrentServices, Unserved, Present;
  }

  // ---------------------------------------------------------------- whether a commit can strand a call

  /** The ready reload `no` changes the state version of the live record `r`. */
  predicate Upgrades(h: Host, no: nat, r: nat) {
    && Gates(h, no, r) && InPhase(h, Ready) && r in Candidates(h)
    && Candidates(h)[r].service.stateVersion != h.recs[r].stateVersion
  }

  /** While the reload waits for its commit, a call may come to run on the record. */
  ghost predicate MayStrand(mig: Migration, h: Host, no: nat, r: nat) {
    exists steps, h' :: GatesThrough(mig, steps, h, h', no, r) && exists c :: Stranded(h', c) && h'.calls[c].rec == r
  }

  /** The gate is up, no other rollback is going to open it, and no call is left on the record. */
  ghost predicate Sealed(h: Host, r: nat) {
    && r in h.recs && h.recs[r].gate.Some? && (forall k :: !Threatens(h, k, r))
    && forall c | c in h.calls :: h.calls[c].rec != r
  }

  /**
   * A ready reload is safe to commit, whenever that will be, exactly if the record is sealed: then no call can run on
   * it until the commit, and otherwise one runs already or may be admitted.
   */
  lemma MayStrandIff(mig: Migration, h: Host, no: nat, r: nat)
    requires Inv(mig, h) && Upgrades(h, no, r) && !h.failed && h.recs[r].typeName in CurrentServices(h)
    ensures MayStrand(mig, h, no, r) <==> !Sealed(h, r)
  {
    hide Inv;
    if Sealed(h, r) {
      forall steps, h', c | GatesThrough(mig, steps, h, h', no, r) && Stranded(h', c) ensures h'.calls[c].rec != r {
        SealedStays(mig, steps, h, h', no, r);
      }
    } else if c :| c in h.calls && h.calls[c].rec == r {
      assert GatesThrough(mig, [], h, h, no, r) && Stranded(h, c);
    } else if h.recs[r].gate.None? {
      OpenStrands(mig, [], h, h, no, r);
    } else {
      var k :| Threatens(h, k, r);
      ReopenedUpgrades(mig, h, no, r, k);
      hide Upgrades, Threatens;
      OpenStrands(mig, [ReopenStep(k)], h, Apply(mig, h, ReopenStep(k)), no, r);
    }
  }

  lemma {:induction false} SealedStays(mig: Migration, steps: seq<Step>, from: Host, h: Host, no: nat, r: nat)
    requires GatesThrough(mig, steps, from, h, no, r) && Inv(mig, from) && InPhase(from, Ready) && Sealed(from, r)
    ensures Inv(mig, h) && InPhase(h, Ready) && Sealed(h, r)
    decreases |steps|
  {
    assert IsLive(h, r);
    if steps == [] {
    } else {
      hide Inv, Legal, Apply, Threatens, Gates, GatesThrough;
      GateStaysUpIff(mig, steps, from, h, no, r);
      var h0 := LastThrough(mig, steps, from, h, no, r);
      SealedStays(mig, steps[..|steps| - 1], from, h0, no, r);
      SealedStep(mig, h0, steps[|steps| - 1], no, r);
    }
  }

  lemma LastThrough(mig: Migration, steps: seq<Step>, from: Host, h: Host, no: nat, r: nat) returns (h0: Host)
    requires GatesThrough(mig, steps, from, h, no, r) && steps != []
    ensures GatesThrough(mig, steps[..|steps| - 1], from, h0, no, r) && Follows(mig, h0, steps[|steps| - 1], h)
    ensures Gates(h0, no, r) && Gates(h, no, r)
  {
    hide Gates, Follows;
    h0 :| GatesThrough(mig, steps[..|steps| - 1], from, h0, no, r) && Follows(mig, h0, steps[|steps| - 1], h);
  }

  lemma SealedStep(mig: Migration, h: Host, step: Step, no: nat, r: nat)
    requires Inv(mig, h) && InPhase(h, Ready) && Sealed(h, r) && Gates(h, no, r)
    requires Legal(h, step) && Gates(Apply(mig, h, step), no, r)
    ensures InPhase(Apply(mig, h, step), Ready)
    ensures forall c | c in Apply(mig, h, step).calls :: Apply(mig, h, step).calls[c].rec != r
  {
    StaysReady(mig, h, step, no, r);
    assert r in Gated(h);
    hide Inv, Legal, Apply, Gates, Sealed;
    forall c | c in Apply(mig, h, step).calls ensures Apply(mig, h, step).calls[c].rec != r {
      NoCallAdmitted(mig, h, step, r, c);
    }
  }

  lemma StaysReady(mig: Migration, h: Host, step: Step, no: nat, r: nat)
    requires Inv(mig, h) && Legal(h, step) && InPhase(h, Ready) && Gates(h, no, r) && Gates(Apply(mig, h, step), no, r)
    ensures InPhase(Apply(mig, h, step), Ready) && !step.CommitStep?
  {
    assert ReloadOk(h);
    hide Inv, Legal, Apply;
    SlotMoves(mig, h, step);
  }

  /** A sealed record admits no call. */
  lemma NoCallAdmitted(mig: Migration, h: Host, step: Step, r: nat, c: nat)
    requires Inv(mig, h) && Legal(h, step) && !step.CommitStep? && InPhase(h, Ready) && r in Gated(h) && Sealed(h, r)
    requires c in Apply(mig, h, step).calls
    ensures Apply(mig, h, step).calls[c].rec != r
  {
    assert GateOk(h, r) && ReloadOk(h);
    assert h.recs[r].gate == Some({});
    NewCallMatches(mig, h, step);
    hide Inv, Legal, Apply;
    if c !in h.calls {
      NewCallIsAdmitted(mig, h, step, c);
    }
  }

  lemma NewCallIsAdmitted(mig: Migration, h: Host, step: Step, c: nat)
    requires Legal(h, step) && !Commits(h, step) && c in Apply(mig, h, step).calls && c !in h.calls
    ensures var r := Apply(mig, h, step).calls[c].rec;
            || (step.CallStep? && Callable(h, r, step.root, step.epoch))
            || (step.Listen? && Notifiable(h, r))
  {
    hide LegalReload, ApplyReload, Callable, Notifiable;
    if OnReload(step) {
      ReloadStepOnHost(mig, h, step);
    } else {
      hide ServiceOf, BehaviorsFor, MayEnd, Start, Finish, Retire, EndOfRoot;
    }
  }

  lemma ReopenedUpgrades(mig: Migration, h: Host, no: nat, r: nat, k: nat)
    requires Inv(mig, h) && Upgrades(h, no, r) && Threatens(h, k, r) && !h.failed
    ensures Legal(h, ReopenStep(k))
    ensures var h' := Apply(mig, h, ReopenStep(k));
            && Inv(mig, h') && Upgrades(h', no, r) && h'.recs[r].gate.None? && !h'.failed
            && h'.recs[r].typeName == h.recs[r].typeName && CurrentServices(h') == CurrentServices(h)
            && GatesThrough(mig, [ReopenStep(k)], h, h', no, r)
  {
    var step := ReopenStep(k);
    assert !h.recs[r].status.Activating? && EpochsOk(h);
    WithOverlapGatesOpen(mig, h, no, r, k);
    StepKeepsInv(mig, h, step);
    ReopenLeavesReload(mig, h, k);
    hide Inv, Apply, Legal;
    StepOnRec(mig, h, step, r);
    StepKeepsEpochs(mig, h, step);
    OneMoreThrough(mig, [], h, h, step, Apply(mig, h, step), no, r);
  }

  lemma ReopenLeavesReload(mig: Migration, h: Host, k: nat)
    requires Legal(h, ReopenStep(k))
    ensures Apply(mig, h, ReopenStep(k)).reload == h.reload && Apply(mig, h, ReopenStep(k)).failed == h.failed
  {
    hide Reopened, Unserved, Present;
  }

  /** With the gate open a call is admitted. */
  lemma OpenStrands(mig: Migration, steps: seq<Step>, from: Host, h: Host, no: nat, r: nat)
    requires GatesThrough(mig, steps, from, h, no, r) && Inv(mig, h) && Upgrades(h, no, r) && !h.failed
    requires h.recs[r].gate.None? && h.recs[r].typeName in CurrentServices(h)
    ensures MayStrand(mig, from, no, r)
  {
    OpenIsCallable(mig, h, r);
    hide Inv, Callable;
    var c := FreshId(h.calls.Keys);
    CallStrands(mig, h, no, r, c);
    var step, h' := CallStep(c, r, 0, h.current, true), BeginCall(h, c, r, 0, h.current, true);
    hide *;
    OneMoreThrough(mig, steps, from, h, step, h', no, r);
    Strands(mig, steps + [step], from, h', no, r, c);
  }

  lemma OneMoreThrough(mig: Migration, steps: seq<Step>, from: Host, h: Host, step: Step, h': Host, no: nat, r: nat)
    requires GatesThrough(mig, steps, from, h, no, r) && Follows(mig, h, step, h') && Gates(h', no, r)
    ensures GatesThrough(mig, steps + [step], from, h', no, r)
  {
    hide Gates, Follows;
    assert (steps + [step])[..|steps|] == steps;
  }

  lemma Strands(mig: Migration, steps: seq<Step>, from: Host, h: Host, no: nat, r: nat, c: nat)
    requires GatesThrough(mig, steps, from, h, no, r) && Stranded(h, c) && h.calls[c].rec == r
    ensures MayStrand(mig, from, no, r)
  {
    hide GatesThrough, Stranded;
  }

  lemma OpenIsCallable(mig: Migration, h: Host, r: nat)
    requires Inv(mig, h) && IsLive(h, r) && !h.failed && h.recs[r].gate.None?
    requires h.recs[r].typeName in CurrentServices(h)
    ensures Callable(h, r, 0, h.current)
  {
    assert RecOk(h, h.recs[r]) && EpochsOk(h);
    hide CandidatesOk, GatesOk, GatesOwned, FixpointOk, CallsOk, MigratedOk, ReloadOk, RecsOk;
  }

  lemma CallStrands(mig: Migration, h: Host, no: nat, r: nat, c: nat)
    requires Upgrades(h, no, r) && c !in h.calls && Callable(h, r, 0, h.current)
    ensures var h' := BeginCall(h, c, r, 0, h.current, true);
            && Follows(mig, h, CallStep(c, r, 0, h.current, true), h')
            && Gates(h', no, r) && Stranded(h', c) && h'.calls[c].rec == r
  {
  }

  lemma FreshId(ids: set<nat>) returns (id: nat)
    ensures forall i | i in ids :: i < id
  {
    id := 0;
    if ids != {} {
      var i :| i in ids;
      var above := FreshId(ids - {i});
      id := if above > i then above else i + 1;
      forall j | j in ids ensures j < id {
        assert j == i || j in ids - {i};
      }
    }
  }

  // ---------------------------------------------------------------- commits

  /**
   * No lost update: however long a ready reload waits for its commit, the state it installs is the migration of the
   * state at that moment, if the gate is up; and without a new state version the state is the one the record has.
   */
  lemma CommitMigratesTheLatestState(mig: Migration, h: Host, r: nat)
    requires Reached(mig, h) && InPhase(h, Ready) && h.pending.Some? && IsLive(h, r) && IsLive(Commit(h), r)
    requires r in Gated(h) ==> h.recs[r].gate.Some?
    ensures var rec, rec' := h.recs[r], Commit(h).recs[r];
            rec'.cell == if r in Candidates(h) && rec'.stateVersion != rec.stateVersion
                         then mig(rec'.service.value, rec.stateVersion, rec.cell) else rec.cell
  {
    ReachedInv(mig, h);
    assert RecOk(h, h.recs[r]);
    if r in Candidates(h) {
      assert CandidateOk(h, r) && MigratedAt(mig, h, r);
    }
  }

  /**
   * If the gate of a ready record was opened, any root may write, and the commit installs what it had migrated before:
   * the write is lost, unless it migrates to the very same state.
   */
  lemma OpenGateLosesWrites(mig: Migration, h: Host, r: nat, root: nat, value: int)
    requires Reached(mig, h) && InPhase(h, Ready) && h.pending.Some? && !h.failed && IsLive(h, r) && r in Gated(h)
    requires h.recs[r].gate.None? && r in Candidates(h) && Candidates(h)[r].migrated.Some?
    ensures Legal(h, Write(r, root, h.current, value))
    ensures var h1 := Apply(mig, h, Write(r, root, h.current, value));
            && h1.recs[r].cell == value && Legal(h1, CommitStep)
            && Commit(h1).recs[r].cell == Candidates(h)[r].migrated.value == Commit(h).recs[r].cell
            && Commit(h1).recs[r].stateVersion != h1.recs[r].stateVersion
  {
    ReachedInv(mig, h);
    assert RecOk(h, h.recs[r]) && GateOk(h, r) && CandidateOk(h, r) && MigratedAt(mig, h, r);
  }

  /** A live record of a type that no current epoch serves, nor one that is pending. */
  predicate Orphan(h: Host, r: nat) {
    IsLive(h, r) && h.recs[r].typeName !in CurrentServices(h) && h.recs[r].typeName !in PendingServices(h)
  }

  ghost predicate NoOrphans(h: Host) { forall r :: !Orphan(h, r) }

  predicate RunsCurrent(h: Host, r: nat)
    requires r in h.recs
  {
    && h.recs[r].typeName in CurrentServices(h) && h.current in h.recs[r].behaviors
    && h.recs[r].behaviors[h.current] == CurrentServices(h)[h.recs[r].typeName]
  }

  /**
   * After a commit two epochs are retained, in order, and every live record runs the code its type is served with, if
   * and only if there was no orphan before.
   */
  lemma CommitLeavesNoRecordBehindIff(mig: Migration, h: Host)
    requires Reached(mig, h) && InPhase(h, Ready) && h.pending.Some?
    ensures var h' := Commit(h);
            && h'.epochs.Keys == {h.current, h'.current} && h.current < h'.current
            && h'.epochs[h'.current] == h.pending.value.services
            && ((forall r | IsLive(h', r) :: RunsCurrent(h', r)) <==> NoOrphans(h))
  {
    ReachedInv(mig, h);
    var h' := Commit(h);
    CommitKeeps(mig, h);
    forall r | IsLive(h', r) ensures RunsCurrent(h', r) <==> !Orphan(h, r) {
      RunsCurrentIff(mig, h, r);
    }
    forall r | Orphan(h, r) ensures IsLive(h', r) {
    }
    hide Inv, Orphan, RunsCurrent, Published;
  }

  lemma RunsCurrentIff(mig: Migration, h: Host, r: nat)
    requires Inv(mig, h) && InPhase(h, Ready) && h.pending.Some?
    requires Inv(mig, Commit(h)) && IsLive(Commit(h), r)
    ensures RunsCurrent(Commit(h), r) <==> !Orphan(h, r)
  {
    assert RecOk(Commit(h), Commit(h).recs[r]);
    hide RecsOk, CandidatesOk, GatesOk, GatesOwned, FixpointOk, CallsOk, MigratedOk;
  }

  /**
   * Reload `no`, which was in `ready` when it ended its prepare, is still ready or will never commit: what it staged is
   * the same, and the records that lived then still wait, or do not, as they did.
   */
  ghost predicate StillReady(ready: Host, h: Host, no: nat) {
    && no < h.reloads
    && (InPhase(ready, Ready) && h.reload.Some? && h.reload.value.no == no && !h.reload.value.aborted ==>
          && h.reload.value.phase.Ready? && h.reload.value.staged == ready.reload.value.staged
          && forall r | IsLive(ready, r) ::
               r in h.recs && !h.recs[r].status.Activating? && h.recs[r].deferred == ready.recs[r].deferred)
  }

  lemma StepStaysReady(mig: Migration, ready: Host, h: Host, step: Step, no: nat)
    requires StillReady(ready, h, no) && Legal(h, step)
    ensures StillReady(ready, Apply(mig, h, step), no)
  {
    var h' := Apply(mig, h, step);
    SlotMoves(mig, h, step);
    if InPhase(ready, Ready) && h'.reload.Some? && h'.reload.value.no == no && !h'.reload.value.aborted {
      hide Legal, Apply;
      forall r | IsLive(ready, r)
        ensures r in h'.recs && !h'.recs[r].status.Activating? && h'.recs[r].deferred == ready.recs[r].deferred
      {
        StepOnRec(mig, h, step, r);
      }
    }
  }

  /** A reload that is ready only commits or rolls back; the next one has another number. */
  lemma SlotMoves(mig: Migration, h: Host, step: Step)
    requires Legal(h, step)
    ensures var h' := Apply(mig, h, step);
            && h.reloads <= h'.reloads
            && (h'.reload.Some? && !h'.reload.value.aborted && h'.reload.value.no < h.reloads ==>
                  && !step.CommitStep? && h.reload.Some? && !h.reload.value.aborted
                  && h'.reload.value.no == h.reload.value.no
                  && (h.reload.value.phase.Ready? ==>
                        h'.reload.value.phase.Ready? && h'.reload.value.staged == h.reload.value.staged))
  {
    hide Changed, ToDo, NothingToDo, IsFresh, CurrentServices, ChangedTypes, Migrated, CandidateFor, ToGate, Unserved,
      LegalRecord;
    if !OnReload(step) {
      RecordStepOnHost(h, step);
      RecordStepCounts(h, step);
      hide ApplyRecord;
    }
  }

  lemma RecordStepCounts(h: Host, step: Step)
    requires !OnReload(step) && LegalRecord(h, step)
    ensures ApplyRecord(h, step).reloads == h.reloads
  {
    hide Admits, ServiceOf, BehaviorsFor, MayEnd, Callable, Notifiable, Writable;
  }

  lemma {:induction false} RunStaysReady(mig: Migration, steps: seq<Step>, ready: Host, h: Host, no: nat)
    requires RunsTo(mig, steps, ready, h) && StillReady(ready, ready, no)
    ensures StillReady(ready, h, no)
    decreases |steps|
  {
    hide Legal, Apply, StillReady;
    if steps == [] {
    } else {
      var rest, last := steps[..|steps| - 1], steps[|steps| - 1];
      var h0 :| RunsTo(mig, rest, ready, h0) && Follows(mig, h0, last, h);
      RunStaysReady(mig, rest, ready, h0, no);
      StepStaysReady(mig, ready, h0, last, no);
    }
  }

  /**
   * However long a reload waits between the end of its prepare and its commit, what it starts with the commit was
   * decided at the end of prepare: exactly the records that waited then.
   */
  lemma StagedThrough(mig: Migration, steps: seq<Step>, drained: Host, h: Host, r: nat)
    requires Inv(mig, drained) && InPhase(drained, Drained) && RunsTo(mig, steps, MigrateAll(mig, drained), h)
    requires InPhase(h, Ready) && h.reload.value.no == drained.reload.value.no
    ensures r in h.reload.value.staged <==> IsLive(drained, r) && drained.recs[r].deferred
    ensures IsLive(drained, r) ==> r in h.recs && h.recs[r].deferred == drained.recs[r].deferred
  {
    var ready, no := MigrateAll(mig, drained), drained.reload.value.no;
    assert ready.recs == drained.recs && InPhase(ready, Ready) && no < ready.reloads && ready.reload.value.no == no;
    assert ready.reload.value.staged == Deferred(drained);
    hide Inv, MigrateAll;
    assert StillReady(ready, ready, no);
    RunStaysReady(mig, steps, ready, h, no);
  }

  /**
   * A live record whose listeners and tasks wait for a commit gets them with this one if and only if it was live when
   * prepare ended; one that became live between then and the commit goes on waiting.
   */
  lemma CommitStartsRuntimeIff(mig: Migration, steps: seq<Step>, drained: Host, h: Host, r: nat)
    requires Reached(mig, drained) && InPhase(drained, Drained) && RunsTo(mig, steps, MigrateAll(mig, drained), h)
    requires InPhase(h, Ready) && h.reload.value.no == drained.reload.value.no && h.pending.Some?
    requires IsLive(h, r) && h.recs[r].deferred && !Removed(h, h.recs[r].typeName)
    ensures var rec := Commit(h).recs[r];
            && (!rec.deferred <==> IsLive(drained, r))
            && (IsLive(drained, r) ==> rec.tasks == rec.service)
            && (!IsLive(drained, r) && r !in Candidates(h) ==> rec.tasks == h.recs[r].tasks)
            && (h.recs[r].gate.None? && h.recs[r].service.Some? ==> (Notifiable(Commit(h), r) <==> IsLive(drained, r)))
  {
    ReachedInv(mig, drained);
    hide Reached, Inv, RunsTo, MigrateAll;
    StagedThrough(mig, steps, drained, h, r);
  }

  /** A gated record drops its old code with the commit; an ungated one keeps it for roots of the previous epoch. */
  lemma OldCodeAfterCommit(mig: Migration, h: Host, r: nat)
    requires Reached(mig, h) && InPhase(h, Ready) && h.pending.Some? && !h.failed && r in Candidates(h)
    requires IsLive(h, r) && IsLive(Commit(h), r) && h.recs[r].typeName in CurrentServices(h)
    ensures Candidates(h)[r].gated ==> Commit(h).recs[r].behaviors.Keys == {Commit(h).current}
    ensures !Candidates(h)[r].gated ==> h.current in Commit(h).recs[r].behaviors
    ensures forall root :: Callable(Commit(h), r, root, h.current) <==> !Candidates(h)[r].gated
  {
    ReachedInv(mig, h);
    assert RecOk(h, h.recs[r]) && CandidateOk(h, r);
  }

  lemma OldCodeStaysIff(mig: Migration, h: Host, r: nat)
    requires Inv(mig, h) && InPhase(h, Ready) && h.pending.Some? && !h.failed && r in Candidates(h)
    requires IsLive(h, r) && h.recs[r].typeName in CurrentServices(h)
    ensures IsLive(Commit(h), r)
    ensures (forall root :: Callable(Commit(h), r, root, h.current)) <==> !Candidates(h)[r].gated
  {
    assert RecOk(h, h.recs[r]) && CandidateOk(h, r) && EpochsOk(h) && ReloadOk(h);
    hide Inv;
    assert Candidates(h)[r].gated ==> !Callable(Commit(h), r, 0, h.current);
  }

  // ---------------------------------------------------------------- which records are gated

  /**
   * While reload `no` goes on, `r` is a candidate of it, gated or not as it was prepared; without it nothing gates `r`.
   */
  ghost predicate StaysPrepared(before: Host, h: Host, no: nat, r: nat, gated: bool) {
    && no < h.reloads && r in before.recs
    && (h.reload.Some? && h.reload.value.no == no && !h.reload.value.aborted ==>
          && !h.reload.value.phase.Waiting? && r in Candidates(h) && Candidates(h)[r].gated == gated
          && r in h.recs && !h.recs[r].status.Activating? && h.recs[r].typeName == before.recs[r].typeName
          && (!gated && before.recs[r].gate.None? ==> h.recs[r].gate.None?))
  }

  lemma StepStaysPrepared(mig: Migration, before: Host, h: Host, step: Step, no: nat, r: nat, gated: bool)
    requires StaysPrepared(before, h, no, r, gated) && Legal(h, step)
    ensures StaysPrepared(before, Apply(mig, h, step), no, r, gated)
  {
    var h' := Apply(mig, h, step);
    SlotMoves(mig, h, step);
    if h'.reload.Some? && h'.reload.value.no == no && !h'.reload.value.aborted {
      CandidateStays(mig, h, step, r);
      StepOnRec(mig, h, step, r);
      if step.CutStep? {
        UngatedIsNotCut(h, r);
      }
      hide Legal, Apply;
    }
  }

  /** A candidate of a reload that goes on keeps its service and whether it is gated. */
  lemma CandidateStays(mig: Migration, h: Host, step: Step, r: nat)
    requires Legal(h, step) && !step.CommitStep? && !step.AbortStep? && !step.FreeStep? && !step.BeginReload?
    requires r in Candidates(h) && h.reload.Some? && !h.reload.value.phase.Waiting?
    ensures var h' := Apply(mig, h, step);
            && r in Candidates(h') && Candidates(h')[r].gated == Candidates(h)[r].gated
            && Candidates(h')[r].service == Candidates(h)[r].service
            && h'.reload.Some? && !h'.reload.value.phase.Waiting?
  {
    hide Changed, NothingToDo, IsFresh, CurrentServices, ChangedTypes, CandidateFor, ToGate, Unserved, LegalRecord;
    if !OnReload(step) {
      RecordStepOnHost(h, step);
      hide ApplyRecord;
    }
  }

  lemma UngatedIsNotCut(h: Host, r: nat)
    requires h.reload.Some? && r in h.recs && r in Candidates(h)
    ensures !Candidates(h)[r].gated ==> CutAll(h).recs[r] == h.recs[r]
  {
  }

  lemma {:induction false} RunStaysPrepared(mig: Migration, steps: seq<Step>, before: Host, from: Host, h: Host,
                                            no: nat,
                                            r: nat, gated: bool)
    requires RunsTo(mig, steps, from, h) && StaysPrepared(before, from, no, r, gated)
    ensures StaysPrepared(before, h, no, r, gated)
    decreases |steps|
  {
    hide Legal, Apply, StaysPrepared;
    if steps == [] {
    } else {
      var rest, last := steps[..|steps| - 1], steps[|steps| - 1];
      var h0 :| RunsTo(mig, rest, from, h0) && Follows(mig, h0, last, h);
      RunStaysPrepared(mig, rest, before, from, h0, no, r, gated);
      StepStaysPrepared(mig, before, h0, last, no, r, gated);
    }
  }

  /**
   * From the moment a record is prepared until the reload commits or rolls back, whatever happens between: the reload
   * gates it if and only if its state's version changes or an exclusive resource of it is replaced. Nobody else's code
   * is gated, and after the commit roots of the previous epoch go on calling a record exactly if it was not.
   */
  lemma GatedIffNeeded(mig: Migration, steps: seq<Step>, before: Host, h: Host, r: nat, exclusive: bool)
    requires Reached(mig, before) && Legal(before, PrepareStep(r, exclusive))
    requires RunsTo(mig, steps, Apply(mig, before, PrepareStep(r, exclusive)), h)
    requires h.reload.Some? && !h.reload.value.aborted && h.reload.value.no == before.reload.value.no
    ensures var needed := exclusive
            || NewServices(before)[before.recs[r].typeName].stateVersion != before.recs[r].stateVersion;
            && r in Candidates(h) && (Candidates(h)[r].gated <==> needed)
            && (IsGating(h) && IsLive(h, r) ==> (r in Gated(h) <==> needed))
            && r in h.recs && (!needed && before.recs[r].gate.None? ==> h.recs[r].gate.None?)
            && (InPhase(h, Ready) && h.pending.Some? && !h.failed && IsLive(h, r)
                && h.recs[r].typeName in CurrentServices(h) ==>
                  && IsLive(Commit(h), r)
                  && ((forall root :: Callable(Commit(h), r, root, h.current)) <==> !needed))
  {
    var needed := exclusive || NewServices(before)[before.recs[r].typeName].stateVersion != before.recs[r].stateVersion;
    var from, no := Apply(mig, before, PrepareStep(r, exclusive)), before.reload.value.no;
    ReachedInv(mig, before);
    StepKeepsInv(mig, before, PrepareStep(r, exclusive));
    PreparedIs(mig, before, r, exclusive);
    hide Legal, Apply;
    RunStaysPrepared(mig, steps, before, from, h, no, r, needed);
    AlwaysInv(mig, steps, from, h);
    hide RunsTo, Reached;
    if IsGating(h) && IsLive(h, r) {
      GatedAre(mig, h, r);
    }
    if InPhase(h, Ready) && h.pending.Some? && !h.failed && IsLive(h, r) && h.recs[r].typeName in CurrentServices(h) {
      OldCodeStaysIff(mig, h, r);
    }
    hide Inv, Commit;
  }

  lemma PreparedIs(mig: Migration, h: Host, r: nat, exclusive: bool)
    requires Inv(mig, h) && Legal(h, PrepareStep(r, exclusive))
    ensures StaysPrepared(h, Apply(mig, h, PrepareStep(r, exclusive)), h.reload.value.no, r,
                          exclusive || NewServices(h)[h.recs[r].typeName].stateVersion != h.recs[r].stateVersion)
  {
    assert ReloadOk(h);
    hide Inv, NothingToDo;
  }

  lemma GatedAre(mig: Migration, h: Host, r: nat)
    requires Inv(mig, h) && IsGating(h) && IsLive(h, r) && r in Candidates(h)
    ensures r in Gated(h) <==> Candidates(h)[r].gated
  {
    assert CandidateOk(h, r);
    assert r in Gated(h) ==> GateOk(h, r);
    hide Inv;
  }

  // ---------------------------------------------------------------- what a rollback leaves

  /**
   * What makes orphans: the end of a rollback, or the next reload's epoch, while a record of an unserved type lives.
   */
  ghost predicate Leaves(h: Host, step: Step) {
    match step
    case EndRollback(_) => exists r :: IsLive(h, r) && Unserved(h, r)
    case LoadStep(_, services) => exists r :: IsLive(h, r) && Unserved(h, r) && h.recs[r].typeName !in services
    case _ => false
  }

  /** Every step leaves no orphan, except the end of a rollback, and a load, that find a record they do not know of. */
  lemma NoOrphansIff(mig: Migration, h: Host, step: Step)
    requires Inv(mig, h) && Legal(h, step) && NoOrphans(h)
    ensures NoOrphans(Apply(mig, h, step)) <==> !Leaves(h, step)
  {
    hide Inv;
    if step.EndRollback? {
      EndLeavesIff(h, step.k);
    } else if step.LoadStep? {
      LoadLeavesIff(h, step.id, step.services);
    } else {
      hide Legal, Apply;
      StepMakesNoOrphan(mig, h, step);
    }
  }

  lemma EndLeavesIff(h: Host, k: nat)
    ensures NoOrphans(RollbackOver(h, k)) <==> !exists r :: IsLive(h, r) && Unserved(h, r)
  {
    assert forall r :: Orphan(RollbackOver(h, k), r) <==> IsLive(h, r) && Unserved(h, r);
  }

  lemma LoadLeavesIff(h: Host, id: nat, services: Services)
    requires h.reload.Some?
    ensures NoOrphans(Load(h, id, services))
            <==> !exists r :: IsLive(h, r) && Unserved(h, r) && h.recs[r].typeName !in services
  {
    forall r
      ensures Orphan(Load(h, id, services), r) <==> IsLive(h, r) && Unserved(h, r) && h.recs[r].typeName !in services
    {
      LoadLeaves(h, id, services, r);
    }
    hide Load, Orphan, Unserved;
  }

  lemma LoadLeaves(h: Host, id: nat, services: Services, r: nat)
    requires h.reload.Some?
    ensures Orphan(Load(h, id, services), r) <==> IsLive(h, r) && Unserved(h, r) && h.recs[r].typeName !in services
  {
    hide NothingToDo, ChangedTypes;
  }

  lemma StepMakesNoOrphan(mig: Migration, h: Host, step: Step)
    requires Inv(mig, h) && Legal(h, step) && NoOrphans(h) && !step.EndRollback? && !step.LoadStep?
    ensures NoOrphans(Apply(mig, h, step))
  {
    assert ReloadOk(h) && EpochsOk(h);
    if OnReload(step) {
      hide Inv, LegalRecord, ApplyRecord;
      ReloadStepMakesNoOrphan(mig, h, step);
    } else {
      hide LegalReload, ApplyReload;
      RecordStepMakesNoOrphan(mig, h, step);
    }
  }

  lemma RecordStepMakesNoOrphan(mig: Migration, h: Host, step: Step)
    requires Inv(mig, h) && !OnReload(step) && LegalRecord(h, step) && NoOrphans(h)
    ensures NoOrphans(ApplyRecord(h, step))
  {
    var h' := ApplyRecord(h, step);
    RecordStepOnHost(h, step);
    StepKeepsEpochs(mig, h, step);
    if step.Finalize? {
      ActivationIsSupersededIff(mig, h, step.r);
    }
    forall r ensures !Orphan(h', r) {
      assert !Orphan(h, r);
      RecordStepLive(h, step, r);
      hide Inv, LegalRecord, ApplyRecord, CurrentServices, PendingServices;
    }
  }

  lemma RecordStepLive(h: Host, step: Step, r: nat)
    requires !OnReload(step) && LegalRecord(h, step)
    ensures IsLive(ApplyRecord(h, step), r) ==>
              r in h.recs && ApplyRecord(h, step).recs[r].typeName == h.recs[r].typeName
              && (IsLive(h, r) || (step == Finalize(r) && IsLive(Finish(h, r), r)))
  {
    hide Admits, ServiceOf, BehaviorsFor, MayEnd;
  }

  lemma ReloadStepMakesNoOrphan(mig: Migration, h: Host, step: Step)
    requires EpochsOk(h) && ReloadOk(h) && OnReload(step) && LegalReload(h, step) && NoOrphans(h)
    requires !step.EndRollback? && !step.LoadStep?
    ensures NoOrphans(ApplyReload(mig, h, step))
  {
    var h' := ApplyReload(mig, h, step);
    if LeavesRecords(h, step) {
      RecordsLeft(mig, h, step);
      ReloadStepOnHost(mig, h, step);
      PendingStays(mig, h, step);
      hide ApplyReload, LegalReload;
      forall r ensures !Orphan(h', r) {
        assert !Orphan(h, r);
      }
    } else if step.CommitStep? {
      CommitMakesNoOrphan(h);
    } else {
      ReloadStepOnHost(mig, h, step);
      PendingStays(mig, h, step);
      forall r ensures !Orphan(h', r) {
        assert !Orphan(h, r);
        RollbackStepLive(mig, h, step, r);
        hide ApplyReload, LegalReload;
      }
    }
  }

  lemma CommitMakesNoOrphan(h: Host)
    requires EpochsOk(h) && ReloadOk(h) && InPhase(h, Ready) && h.pending.Some? && NoOrphans(h)
    ensures NoOrphans(Commit(h))
  {
    forall r ensures !Orphan(Commit(h), r) {
      assert !Orphan(h, r);
    }
  }

  lemma PendingStays(mig: Migration, h: Host, step: Step)
    requires OnReload(step) && LegalReload(h, step) && !step.EndRollback? && !step.LoadStep? && !Commits(h, step)
    ensures ApplyReload(mig, h, step).pending == h.pending
            || (step.ReopenStep? && forall r | r in h.recs :: !Unserved(h, r))
  {
    hide Changed, ToDo, NothingToDo, IsFresh, CurrentServices, ChangedTypes, Migrated, CandidateFor, Unserved;
  }

  lemma RollbackStepLive(mig: Migration, h: Host, step: Step, r: nat)
    requires (step.CutStep? || step.ReopenStep? || step.DisposeStep?) && LegalReload(h, step)
    ensures IsLive(ApplyReload(mig, h, step), r) ==>
              IsLive(h, r) && ApplyReload(mig, h, step).recs[r].typeName == h.recs[r].typeName
  {
    hide Changed, ToDo, NothingToDo, IsFresh, CurrentServices, ToGate, Unserved;
  }

  /** Every behavior of the record is for an epoch that is retained or pending. */
  predicate TidyRec(h: Host, rec: Rec) {
    forall e | e in rec.behaviors :: e in h.epochs || (h.pending.Some? && e == h.pending.value.id)
  }

  ghost predicate TidyBehaviors(h: Host) { forall r | IsLive(h, r) :: TidyRec(h, h.recs[r]) }

  /** The step drops the pending epoch, for none or for another one. */
  predicate Forgets(h: Host, step: Step) {
    h.pending.Some? &&
    match step
    case EndRollback(_) => true
    case ReopenStep(_) => forall r | r in h.recs :: !Unserved(h, r)
    case LoadStep(id, _) => id != h.pending.value.id
    case _ => false
  }

  /**
   * Every step keeps behaviors to retained and pending epochs, except one that drops a pending epoch which a live
   * record has a behavior for. Nothing retires that behavior.
   */
  lemma BehaviorsStayTidyIff(mig: Migration, h: Host, step: Step)
    requires Inv(mig, h) && Legal(h, step) && TidyBehaviors(h)
    ensures TidyBehaviors(Apply(mig, h, step)) <==>
            (Forgets(h, step) ==> forall r | IsLive(h, r) :: h.pending.value.id !in h.recs[r].behaviors)
  {
    assert EpochsOk(h);
    if OnReload(step) {
      hide Inv, LegalRecord, ApplyRecord;
      ReloadStepIsTidyIff(mig, h, step);
    } else {
      hide Inv, LegalReload, ApplyReload;
      RecordStepIsTidy(mig, h, step);
    }
  }

  lemma RecordStepIsTidy(mig: Migration, h: Host, step: Step)
    requires EpochsOk(h) && !OnReload(step) && LegalRecord(h, step) && TidyBehaviors(h)
    ensures TidyBehaviors(ApplyRecord(h, step))
  {
    var h' := ApplyRecord(h, step);
    RecordStepOnHost(h, step);
    forall r | IsLive(h', r) ensures TidyRec(h', h'.recs[r]) {
      RecordStepLive(h, step, r);
      if IsLive(h, r) {
        assert TidyRec(h, h.recs[r]);
        RecordStepOnRec(h, step, r);
        hide ApplyRecord;
      }
    }
  }

  lemma ReloadStepIsTidyIff(mig: Migration, h: Host, step: Step)
    requires EpochsOk(h) && OnReload(step) && LegalReload(h, step) && TidyBehaviors(h)
    ensures TidyBehaviors(ApplyReload(mig, h, step)) <==>
            (Forgets(h, step) ==> forall r | IsLive(h, r) :: h.pending.value.id !in h.recs[r].behaviors)
  {
    if Commits(h, step) {
      CommitIsTidy(h);
    } else if Forgets(h, step) {
      ForgetsIff(mig, h, step);
    } else {
      var h' := ApplyReload(mig, h, step);
      ReloadStepOnHost(mig, h, step);
      PendingMoves(mig, h, step);
      forall r | IsLive(h', r) ensures TidyRec(h', h'.recs[r]) {
        LiveStays(mig, h, step, r);
        assert TidyRec(h, h.recs[r]);
        hide ApplyReload, LegalReload;
      }
    }
  }

  lemma CommitIsTidy(h: Host)
    requires EpochsOk(h) && h.reload.Some? && h.pending.Some? && TidyBehaviors(h)
    ensures TidyBehaviors(Commit(h))
  {
    var h' := Commit(h);
    forall r | IsLive(h', r) ensures TidyRec(h', h'.recs[r]) {
      assert h.recs[r].status.Live? ==> TidyRec(h, h.recs[r]);
    }
  }

  lemma PendingMoves(mig: Migration, h: Host, step: Step)
    requires OnReload(step) && LegalReload(h, step) && !Commits(h, step) && !Forgets(h, step)
    ensures h.pending.Some? ==>
              ApplyReload(mig, h, step).pending.Some?
                && ApplyReload(mig, h, step).pending.value.id == h.pending.value.id
  {
    hide Changed, ToDo, NothingToDo, IsFresh, CurrentServices, ChangedTypes, Migrated, CandidateFor, Unserved;
  }

  /** Apart from a commit a reload makes no record live, and leaves the behaviors of those that are. */
  lemma LiveStays(mig: Migration, h: Host, step: Step, r: nat)
    requires OnReload(step) && LegalReload(h, step) && !Commits(h, step)
    ensures IsLive(ApplyReload(mig, h, step), r) ==>
              IsLive(h, r) && ApplyReload(mig, h, step).recs[r].behaviors == h.recs[r].behaviors
  {
    if LeavesRecords(h, step) {
      RecordsLeft(mig, h, step);
      hide ApplyReload, LegalReload;
    } else {
      RollbackStepLive(mig, h, step, r);
      if IsLive(h, r) {
        ReloadStepOnRec(mig, h, step, r);
        hide ApplyReload, LegalReload;
      }
    }
  }

  lemma ForgetsIff(mig: Migration, h: Host, step: Step)
    requires EpochsOk(h) && OnReload(step) && LegalReload(h, step) && TidyBehaviors(h) && Forgets(h, step)
    ensures TidyBehaviors(ApplyReload(mig, h, step)) <==>
            forall r | IsLive(h, r) :: h.pending.value.id !in h.recs[r].behaviors
  {
    var h', id := ApplyReload(mig, h, step), h.pending.value.id;
    ReloadStepOnHost(mig, h, step);
    assert id !in h'.epochs;
    assert h'.pending.None? || h'.pending.value.id != id;
    forall r | r in h.recs ensures IsLive(h', r) <==> IsLive(h, r) {
      SameLive(mig, h, step, r);
    }
    forall r | IsLive(h, r) ensures TidyRec(h', h'.recs[r]) <==> id !in h.recs[r].behaviors {
      assert TidyRec(h, h.recs[r]);
      SameLive(mig, h, step, r);
      LiveStays(mig, h, step, r);
      hide ApplyReload, LegalReload, Forgets;
    }
  }

  lemma SameLive(mig: Migration, h: Host, step: Step, r: nat)
    requires OnReload(step) && LegalReload(h, step) && (step.EndRollback? || step.ReopenStep? || step.LoadStep?)
    ensures IsLive(ApplyReload(mig, h, step), r) <==> IsLive(h, r)
  {
    hide NothingToDo, ChangedTypes, Unserved, IsFresh;
  }

  /** The record has code for retained epochs only that serve its type. */
  predicate ServedRec(h: Host, rec: Rec) {
    forall e | e in rec.behaviors && e in h.epochs :: rec.typeName in h.epochs[e]
  }

  ghost predicate AllServed(h: Host) { forall r | IsLive(h, r) :: ServedRec(h, h.recs[r]) }

  /** An orphan has a behavior, from a reload that was rolled back, for the epoch that is committed now. */
  ghost predicate Revives(h: Host, step: Step) {
    Commits(h, step) && exists r :: Orphan(h, r) && h.pending.value.id in h.recs[r].behaviors
  }

  /**
   * Every step keeps calls to types their epoch serves, except a commit under an id that an orphan has a behavior for.
   */
  lemma ServedStaysIff(mig: Migration, h: Host, step: Step)
    requires Inv(mig, h) && Legal(h, step) && AllServed(h)
    ensures AllServed(Apply(mig, h, step)) <==> !Revives(h, step)
  {
    if Commits(h, step) {
      CommitServesIff(mig, h);
    } else if OnReload(step) {
      hide Inv, LegalRecord, ApplyRecord;
      ReloadStepServes(mig, h, step);
    } else {
      assert EpochsOk(h);
      hide Inv, LegalReload, ApplyReload;
      RecordStepServes(mig, h, step);
    }
  }

  lemma ReloadStepServes(mig: Migration, h: Host, step: Step)
    requires OnReload(step) && LegalReload(h, step) && !Commits(h, step) && AllServed(h)
    ensures AllServed(ApplyReload(mig, h, step))
  {
    var h' := ApplyReload(mig, h, step);
    ReloadStepOnHost(mig, h, step);
    forall r | IsLive(h', r) ensures ServedRec(h', h'.recs[r]) {
      LiveStays(mig, h, step, r);
      assert ServedRec(h, h.recs[r]);
      ReloadStepOnRec(mig, h, step, r);
      hide ApplyReload, LegalReload;
    }
  }

  lemma RecordStepServes(mig: Migration, h: Host, step: Step)
    requires EpochsOk(h) && !OnReload(step) && LegalRecord(h, step) && AllServed(h)
    ensures AllServed(ApplyRecord(h, step))
  {
    var h' := ApplyRecord(h, step);
    if !step.RetireStep? {
      RecordStepOnHost(h, step);
    }
    forall r | IsLive(h', r) ensures ServedRec(h', h'.recs[r]) {
      RecordStepLive(h, step, r);
      if IsLive(h, r) {
        assert ServedRec(h, h.recs[r]);
        RecordStepOnRec(h, step, r);
        hide ApplyRecord, LegalRecord;
      }
    }
  }

  lemma CommitServesIff(mig: Migration, h: Host)
    requires Inv(mig, h) && InPhase(h, Ready) && h.pending.Some? && AllServed(h)
    ensures AllServed(Commit(h)) <==> !Revives(h, CommitStep)
  {
    var h' := Commit(h);
    forall r | IsLive(h', r)
      ensures ServedRec(h', h'.recs[r]) <==> !(Orphan(h, r) && h.pending.value.id in h.recs[r].behaviors)
    {
      CommitServesOne(mig, h, r);
      hide Commit, Orphan, ServedRec;
    }
    forall r | Orphan(h, r) ensures IsLive(h', r) {
      assert r in Candidates(h) ==> CandidateOk(h, r);
    }
  }

  lemma CommitServesOne(mig: Migration, h: Host, r: nat)
    requires Inv(mig, h) && InPhase(h, Ready) && h.pending.Some? && AllServed(h) && IsLive(Commit(h), r)
    ensures ServedRec(Commit(h), Commit(h).recs[r])
            <==> !(Orphan(h, r) && h.pending.value.id in h.recs[r].behaviors)
  {
    assert RecOk(h, h.recs[r]) && ServedRec(h, h.recs[r]);
    assert r in Candidates(h) ==> CandidateOk(h, r);
    hide RecsOk, CandidatesOk, GatesOk, GatesOwned, FixpointOk, CallsOk, MigratedOk;
  }

  /** No reload holds the slot, and no rollback runs. */
  predicate Quiet(h: Host) { h.reload.None? && h.rollbacks == map[] }

  /** What is pending belongs to a reload that may still commit, or to a rollback that will clear it. */
  predicate PendingOwned(h: Host) { h.pending.Some? ==> Active(h) || h.rollbacks != map[] }

  /**
   * An epoch stays pending with nobody to commit or clear it exactly if a reload, cancelled while it waited for
   * retirement, announces it after its rollback is over.
   */
  lemma PendingOwnedIff(mig: Migration, h: Host, step: Step)
    requires Legal(h, step) && PendingOwned(h)
    ensures PendingOwned(Apply(mig, h, step)) <==>
            !(step.LoadStep? && h.reload.value.aborted && h.rollbacks == map[])
  {
    var h' := Apply(mig, h, step);
    hide Changed, ToDo, NothingToDo, IsFresh, CurrentServices, LegalRecord, ApplyRecord;
    if !OnReload(step) {
      RecordStepOnHost(h, step);
    } else if step.AbortStep? {
      assert h.reload.value.no in h'.rollbacks;
    } else if step.ReopenStep? || step.DisposeStep? {
      assert h'.pending.None? || step.k in h'.rollbacks;
    }
  }

  /**
   * New records are refused of some types only while a reload may still commit, or a rollback will admit them again.
   */
  predicate RefusalOwned(h: Host) { h.gating != {} ==> h.failed || Active(h) || h.rollbacks != map[] }

  /** That reload of `PendingOwnedIff`, if it finds nothing to wait for, is also all that leaves types refused. */
  lemma RefusalOwnedIff(mig: Migration, h: Host, step: Step)
    requires Legal(h, step) && RefusalOwned(h)
    ensures RefusalOwned(Apply(mig, h, step)) <==>
            !(step.LoadStep? && h.reload.value.aborted && h.rollbacks == map[] && !h.failed
              && Load(h, step.id, step.services).gating != {})
  {
    var h' := Apply(mig, h, step);
    hide Changed, ToDo, NothingToDo, IsFresh, CurrentServices, LegalRecord, ApplyRecord;
    if !OnReload(step) {
      RecordStepOnHost(h, step);
    } else if step.AbortStep? {
      assert h.reload.value.no in h'.rollbacks;
    } else if step.ReopenStep? || step.DisposeStep? {
      assert h'.gating == {} || step.k in h'.rollbacks;
    }
  }

  /**
   * When no reload and no rollback runs, no gate is up and nothing of a reload is left on the records; and a live
   * record is open to every root of the current epoch, with the code served for its type, if and only if its type is
   * served.
   */
  lemma IdleHostIsOpenIff(mig: Migration, h: Host, r: nat)
    requires Reached(mig, h) && Quiet(h) && !h.failed && IsLive(h, r)
    ensures Candidates(h) == map[] && h.recs[r].gate.None?
            && (!h.recs[r].deferred ==> h.recs[r].tasks == h.recs[r].service)
    ensures (RunsCurrent(h, r) && forall root :: Callable(h, r, root, h.current))
            <==> h.recs[r].typeName in CurrentServices(h)
  {
    ReachedInv(mig, h);
    assert RecOk(h, h.recs[r]);
    assert forall k: nat :: !Unwinding(h, k, r);
    assert h.recs[r].gate.Some? ==> GateOwned(h, r);
  }

  // ---------------------------------------------------------------- without a commit

  /**
   * The record's code, versions and behaviors are what they were, but for the epoch that was already the previous one.
   */
  predicate SameCode(rec: Rec, rec': Rec, previous: Option<nat>) {
    && rec'.typeName == rec.typeName && rec'.service == rec.service
    && rec'.stateVersion == rec.stateVersion && rec'.minEpoch == rec.minEpoch
    && (forall e | e in rec'.behaviors :: e in rec.behaviors && rec'.behaviors[e] == rec.behaviors[e])
    && (forall e | e in rec.behaviors :: e in rec'.behaviors || previous == Some(e))
  }

  lemma StepKeepsEpochs(mig: Migration, h: Host, step: Step)
    requires EpochsOk(h) && Legal(h, step) && !Commits(h, step)
    ensures Apply(mig, h, step).current == h.current
    ensures CurrentServices(Apply(mig, h, step)) == CurrentServices(h)
    ensures Apply(mig, h, step).previous == if step.RetireStep? then None else h.previous
    ensures step.RetireStep? ==> h.previous.Some?
    ensures Apply(mig, h, step).epochs.Keys <= h.epochs.Keys
  {
    hide Admits, ServiceOf, BehaviorsFor, MayEnd, Callable, Notifiable, Writable, LegalReload, ApplyReload;
    if OnReload(step) {
      ReloadStepOnHost(mig, h, step);
    } else if !step.RetireStep? {
      RecordStepOnHost(h, step);
    }
  }

  predicate SameEpochs(h: Host, h': Host) {
    h'.current == h.current && h'.epochs == h.epochs && h'.previous == h.previous && h'.calls == h.calls
  }

  lemma ReloadStepOnHost(mig: Migration, h: Host, step: Step)
    requires OnReload(step) && LegalReload(h, step) && !Commits(h, step)
    ensures SameEpochs(h, ApplyReload(mig, h, step))
  {
    hide Changed, ToDo, NothingToDo, IsFresh, CurrentServices, ChangedTypes, Migrated, CandidateFor, ToGate, Unserved;
    if step.CutStep? || step.MigrateStep? || step.PrepareStep? || step.BlockStep? {
      hide ReopenAll, DisposeOne, Load, Abort, StartReload, Commit;
    } else {
      hide CutAll, MigrateAll, Prepare, Block;
    }
  }

  lemma {:induction false} LiveBefore(mig: Migration, steps: seq<Step>, from: Host, h: Host, r: nat)
    requires RunsTo(mig, steps, from, h) && Inv(mig, from) && IsLive(from, r)
    requires forall s | s in steps :: !s.CommitStep?
    ensures r in h.recs && !h.recs[r].status.Activating?
    decreases |steps|
  {
    hide Inv, Legal, Apply;
    if steps == [] {
    } else {
      var rest, last := steps[..|steps| - 1], steps[|steps| - 1];
      var h0 :| RunsTo(mig, rest, from, h0) && Follows(mig, h0, last, h);
      AlwaysInv(mig, rest, from, h0);
      LiveBefore(mig, rest, from, h0, r);
      StepOnRec(mig, h0, last, r);
    }
  }

  /**
   * A reload that does not commit changes nothing: in a run without a commit, whatever prepares, gates and rolls back
   * in it, the current epoch and its services stay, and a record that survives keeps its service, its versions and its
   * behaviors (but for the epoch that was already the previous one), and its state unless something wrote it.
   */
  lemma {:induction false} FailedReloadChangesNothing(mig: Migration, steps: seq<Step>, from: Host, h: Host, r: nat)
    requires RunsTo(mig, steps, from, h) && Inv(mig, from)
    requires forall s | s in steps :: !s.CommitStep?
    requires IsLive(from, r) && IsLive(h, r)
    ensures h.current == from.current && CurrentServices(h) == CurrentServices(from)
    ensures SameCode(from.recs[r], h.recs[r], from.previous)
    ensures h.previous == from.previous || h.previous.None?
    ensures h.previous == from.previous ==> h.recs[r].behaviors == from.recs[r].behaviors
    ensures (forall s | s in steps :: !Writes(s, r)) ==> h.recs[r].cell == from.recs[r].cell
    decreases |steps|
  {
    hide Legal, Apply, CurrentServices, RecsOk, CandidatesOk, GatesOk, GatesOwned, FixpointOk, CallsOk, MigratedOk,
      ReloadOk;
    if steps == [] {
    } else {
      var rest, last := steps[..|steps| - 1], steps[|steps| - 1];
      var h0 :| RunsTo(mig, rest, from, h0) && Follows(mig, h0, last, h);
      AlwaysInv(mig, rest, from, h0);
      LiveBefore(mig, rest, from, h0, r);
      StepOnRec(mig, h0, last, r);
      FailedReloadChangesNothing(mig, rest, from, h0, r);
      StepKeepsEpochs(mig, h0, last);
      assert last in steps;
    }
  }

  /** Epoch ids only rise, and at most two are retained. */
  lemma {:induction false} EpochsRise(mig: Migration, steps: seq<Step>, from: Host, h: Host)
    requires RunsTo(mig, steps, from, h) && Inv(mig, from)
    ensures from.current <= h.current && |h.epochs.Keys| <= 2
    ensures (exists s :: s in steps && s.CommitStep?) && !h.failed ==> from.current < h.current
    ensures from.failed ==> h.failed
    ensures forall e | e in h.epochs :: e <= h.current && (e in from.epochs || e > from.current)
    decreases |steps|
  {
    AlwaysInv(mig, steps, from, h);
    if steps == [] {
    } else {
      var rest, last := steps[..|steps| - 1], steps[|steps| - 1];
      var h0 :| RunsTo(mig, rest, from, h0) && Follows(mig, h0, last, h);
      AlwaysInv(mig, rest, from, h0);
      EpochsRise(mig, rest, from, h0);
      hide RecsOk, CandidatesOk, GatesOk, GatesOwned, FixpointOk, CallsOk, MigratedOk, RunsTo;
      StepMovesEpochs(mig, h0, last);
      hide Apply, Legal;
      forall s | s in steps && s.CommitStep? ensures s in rest || s == last {
      }
    }
  }

  lemma StepMovesEpochs(mig: Migration, h: Host, step: Step)
    requires EpochsOk(h) && ReloadOk(h) && Legal(h, step)
    ensures var h' := Apply(mig, h, step);
            && h.current <= h'.current && (step.CommitStep? && !h'.failed ==> h.current < h'.current)
            && (h.failed ==> h'.failed)
            && forall e | e in h'.epochs :: e in h.epochs || e == h'.current > h.current
  {
    if !Commits(h, step) {
      StepKeepsEpochs(mig, h, step);
      StepKeepsFailed(mig, h, step);
    }
  }

  lemma StepKeepsFailed(mig: Migration, h: Host, step: Step)
    requires Legal(h, step) && !Commits(h, step)
    ensures Apply(mig, h, step).failed == (h.failed || step.CommitStep?)
  {
    hide Changed, ToDo, NothingToDo, IsFresh, CurrentServices, LegalRecord, ApplyRecord;
    if !OnReload(step) {
      RecordStepOnHost(h, step);
    }
  }
}
