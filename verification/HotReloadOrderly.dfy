/**
 * Orderly runs: a reload begins only when no rollback runs, types that only a pending epoch serves are not acquired
 * while a rollback disposes records, a reload is not cancelled while it waits for retirement, and no root ends under
 * its calls. In these, everything the source's comments promise holds without exception.
 */
module HotReloadOrderly {
  import opened Wrappers
  import opened HotReload
  import opened HotReloadInvariant
  import opened HotReloadSafety

  predicate Orderly(h: Host, step: Step) {
    match step
    case BeginReload => h.rollbacks == map[]
    case Acquire(_, typeName, _) =>
      typeName in CurrentServices(h) || forall k | k in h.rollbacks :: h.rollbacks[k].todo.None?
    case AbortStep(cancel) => cancel ==> h.reload.Some? && !h.reload.value.phase.Waiting?
    case EndRoot(root) => forall c | c in h.calls :: h.calls[c].root != root
    case _ => true
  }

  // ---------------------------------------------------------------- what orderly steps keep

  /** A rollback runs for the reload that holds the slot, or held it last. */
  predicate OneAtATime(h: Host) {
    && (forall j, k | j in h.rollbacks && k in h.rollbacks :: j == k)
    && (h.reload.Some? && h.rollbacks != map[] ==>
          h.reload.value.aborted && forall k | k in h.rollbacks :: k == h.reload.value.no)
    && (h.reload.Some? && h.reload.value.aborted && h.reload.value.phase.Waiting? ==> !h.reload.value.early)
  }

  predicate PendingKept(h: Host) { !h.failed && (Active(h) ==> h.pending.Some?) && PendingOwned(h) }

  ghost predicate GatesUp(h: Host) { forall r | r in Gated(h) && IsLive(h, r) :: h.recs[r].gate.Some? }

  /** A record of a type that is not served runs, or will run, what is pending, and no rollback misses it. */
  predicate Known(h: Host, r: nat)
    requires r in h.recs
  {
    Unserved(h, r) ==>
      && h.recs[r].typeName in PendingServices(h)
      && (h.recs[r].service.Some? ==> h.recs[r].service == Some(PendingServices(h)[h.recs[r].typeName]))
      && forall k | k in h.rollbacks && h.rollbacks[k].todo.Some? :: r in h.rollbacks[k].todo.value
  }

  ghost predicate AllKnown(h: Host) { forall r | r in h.recs :: Known(h, r) }

  predicate CallLeased(h: Host, call: Call) {
    call.rec in h.recs && h.recs[call.rec].status.Live? ==>
      call.root in h.recs[call.rec].leases
      && (h.recs[call.rec].gate.Some? ==> call.root in h.recs[call.rec].gate.value)
  }

  ghost predicate CallsLeased(h: Host) { forall c | c in h.calls :: CallLeased(h, h.calls[c]) }

  ghost predicate Tidy(h: Host) {
    OneAtATime(h) && PendingKept(h) && GatesUp(h) && AllKnown(h) && CallsLeased(h) && CallsMatch(h)
  }

  lemma OneAtATimeKept(mig: Migration, h: Host, step: Step)
    requires OneAtATime(h) && Legal(h, step) && Orderly(h, step)
    ensures OneAtATime(Apply(mig, h, step))
  {
    hide LegalRecord, ApplyRecord, Changed, ToDo, NothingToDo, IsFresh, CurrentServices, ChangedTypes, Migrated,
      CandidateFor,
      ToGate, Unserved;
    if !OnReload(step) {
      RecordStepOnHost(h, step);
    }
  }

  lemma PendingKeptKept(mig: Migration, h: Host, step: Step)
    requires EpochsOk(h) && OneAtATime(h) && PendingKept(h) && Legal(h, step) && Orderly(h, step)
    ensures PendingKept(Apply(mig, h, step))
  {
    PendingOwnedIff(mig, h, step);
    hide PendingOwned;
    if Commits(h, step) {
    } else {
      StepKeepsFailed(mig, h, step);
      assert step.CommitStep? ==> h.pending.Some?;
      ActiveHasPending(mig, h, step);
    }
  }

  lemma ActiveHasPending(mig: Migration, h: Host, step: Step)
    requires OneAtATime(h) && (Active(h) ==> h.pending.Some?) && Legal(h, step)
    ensures Active(Apply(mig, h, step)) ==> Apply(mig, h, step).pending.Some?
  {
    hide LegalRecord, ApplyRecord, Changed, ToDo, NothingToDo, IsFresh, CurrentServices, ChangedTypes, Migrated,
      CandidateFor,
      ToGate, Unserved;
    if !OnReload(step) {
      RecordStepOnHost(h, step);
    }
  }

  lemma GatesUpKept(mig: Migration, h: Host, step: Step)
    requires Inv(mig, h) && OneAtATime(h) && GatesUp(h) && Legal(h, step) && Orderly(h, step)
    ensures GatesUp(Apply(mig, h, step))
  {
    var h' := Apply(mig, h, step);
    assert GatesOk(h) && CandidatesOk(h);
    hide Inv;
    forall r | r in Gated(h') && IsLive(h', r) ensures h'.recs[r].gate.Some? {
      if !step.CutStep? {
        GatedStays(mig, h, step);
        assert GateOk(h, r) && CandidateOk(h, r);
        StepOnRec(mig, h, step, r);
        assert !Opens(h, step, r);
      }
    }
  }

  lemma GatedStays(mig: Migration, h: Host, step: Step)
    requires Legal(h, step) && !step.CutStep?
    ensures Gated(Apply(mig, h, step)) <= Gated(h)
    ensures Gated(Apply(mig, h, step)) != {} ==> !step.CommitStep? && !step.AbortStep?
  {
    hide LegalRecord, ApplyRecord, Changed, ToDo, NothingToDo, IsFresh, CurrentServices, ChangedTypes, Migrated,
      CandidateFor,
      ToGate, Unserved;
    if !OnReload(step) {
      RecordStepOnHost(h, step);
    }
  }

  lemma AllKnownKept(mig: Migration, h: Host, step: Step)
    requires Inv(mig, h) && OneAtATime(h) && PendingKept(h) && AllKnown(h) && Legal(h, step) && Orderly(h, step)
    ensures AllKnown(Apply(mig, h, step))
  {
    assert EpochsOk(h) && ReloadOk(h);
    if !OnReload(step) {
      RecordStepKnown(mig, h, step);
    } else if step.LoadStep? || step.EndRollback? || Commits(h, step) {
      hide Inv;
      NobodyUnserved(mig, h, step);
    } else {
      hide Inv;
      ReloadStepKnown(mig, h, step);
    }
  }

  lemma RecordStepKnown(mig: Migration, h: Host, step: Step)
    requires Inv(mig, h) && !OnReload(step) && LegalRecord(h, step) && Orderly(h, step) && AllKnown(h)
    ensures AllKnown(ApplyRecord(h, step))
  {
    var h' := ApplyRecord(h, step);
    RecordStepOnHost(h, step);
    StepKeepsEpochs(mig, h, step);
    hide Inv;
    forall r | r in h'.recs ensures Known(h', r) {
      if r in h.recs {
        assert Known(h, r);
        RecordStepService(h, step, r);
        hide LegalRecord, ApplyRecord, CurrentServices, PendingServices;
      } else {
        NewRecordKnown(h, step, r);
      }
    }
  }

  lemma NewRecordKnown(h: Host, step: Step, r: nat)
    requires !OnReload(step) && LegalRecord(h, step) && Orderly(h, step)
    requires r in ApplyRecord(h, step).recs && r !in h.recs
    ensures Known(ApplyRecord(h, step), r)
  {
    hide BehaviorsFor, MayEnd, Admits;
  }

  lemma RecordStepService(h: Host, step: Step, r: nat)
    requires !OnReload(step) && LegalRecord(h, step) && r in h.recs
    ensures var rec, rec' := h.recs[r], ApplyRecord(h, step).recs[r];
            && r in ApplyRecord(h, step).recs && rec'.typeName == rec.typeName
            && (rec.status.Gone? ==> rec'.status.Gone?)
            && (rec'.status.Gone? || rec'.service == rec.service || rec'.service == ServiceOf(h, rec.typeName))
  {
    hide Admits, BehaviorsFor, MayEnd, ServiceOf, IsLive;
  }

  /** After these steps every record that is not gone is of a served type. */
  lemma NobodyUnserved(mig: Migration, h: Host, step: Step)
    requires EpochsOk(h) && ReloadOk(h) && OneAtATime(h) && PendingKept(h) && AllKnown(h)
    requires OnReload(step) && LegalReload(h, step) && (step.LoadStep? || step.EndRollback? || Commits(h, step))
    ensures AllKnown(ApplyReload(mig, h, step))
  {
    var h' := ApplyReload(mig, h, step);
    hide IsFresh, NothingToDo, ChangedTypes;
    forall r | r in h'.recs ensures Known(h', r) {
      assert Known(h, r);
    }
  }

  lemma ReloadStepKnown(mig: Migration, h: Host, step: Step)
    requires EpochsOk(h) && AllKnown(h) && OnReload(step) && LegalReload(h, step) && PendingKept(h)
    requires !step.LoadStep? && !step.EndRollback? && !Commits(h, step)
    ensures AllKnown(ApplyReload(mig, h, step))
  {
    var h' := ApplyReload(mig, h, step);
    ReloadStepOnHost(mig, h, step);
    PendingStays(mig, h, step);
    forall r | r in h'.recs ensures Known(h', r) {
      ReloadStepSame(mig, h, step, r);
      assert Known(h, r);
      if Unserved(h, r) && !h'.recs[r].status.Gone? {
        TodoHas(mig, h, step, r);
      }
      hide ApplyReload, LegalReload, CurrentServices, PendingServices;
    }
  }

  lemma ReloadStepSame(mig: Migration, h: Host, step: Step, r: nat)
    requires OnReload(step) && LegalReload(h, step) && !Commits(h, step)
    ensures r in ApplyReload(mig, h, step).recs <==> r in h.recs
    ensures r in h.recs ==>
              var rec, rec' := h.recs[r], ApplyReload(mig, h, step).recs[r];
              rec'.typeName == rec.typeName && rec'.service == rec.service && (rec.status.Gone? ==> rec'.status.Gone?)
  {
    hide Changed, ToDo, NothingToDo, IsFresh, CurrentServices;
    hide StartReload, Load, Prepare, Block, MigrateAll, Commit, Abort, Free;
    if LeavesRecords(h, step) {
      RecordsLeft(mig, h, step);
      hide ApplyReload, LegalReload;
    }
  }

  /** A record a rollback does not look at any more is gone or served. */
  lemma TodoHas(mig: Migration, h: Host, step: Step, r: nat)
    requires OnReload(step) && LegalReload(h, step) && !Commits(h, step) && !step.EndRollback? && !step.LoadStep?
    requires r in h.recs && r in ApplyReload(mig, h, step).recs && !ApplyReload(mig, h, step).recs[r].status.Gone?
    requires Unserved(h, r) && Known(h, r)
    ensures forall k | k in ApplyReload(mig, h, step).rollbacks && ApplyReload(mig, h, step).rollbacks[k].todo.Some? ::
              r in ApplyReload(mig, h, step).rollbacks[k].todo.value
  {
    hide Changed, ToDo, NothingToDo, IsFresh, ChangedTypes, Migrated, CandidateFor, ToGate, CurrentServices;
  }

  lemma CallsLeasedKept(mig: Migration, h: Host, step: Step)
    requires Inv(mig, h) && CallsLeased(h) && Legal(h, step) && Orderly(h, step)
    ensures CallsLeased(Apply(mig, h, step))
  {
    var h' := Apply(mig, h, step);
    assert CallsOk(h);
    hide Inv;
    if OnReload(step) {
      ReloadStepLeases(mig, h, step);
    } else {
      RecordStepLeases(h, step);
    }
  }

  lemma RecordStepLeases(h: Host, step: Step)
    requires CallsLeased(h) && CallsOk(h) && !OnReload(step) && LegalRecord(h, step) && Orderly(h, step)
    ensures CallsLeased(ApplyRecord(h, step))
  {
    var h' := ApplyRecord(h, step);
    hide ServiceOf, BehaviorsFor;
    forall c | c in h'.calls ensures CallLeased(h', h'.calls[c]) {
      if c in h.calls {
        assert CallLeased(h, h.calls[c]) && CallOk(h, h.calls[c]);
      }
    }
  }

  lemma ReloadStepLeases(mig: Migration, h: Host, step: Step)
    requires CallsLeased(h) && CallsOk(h) && OnReload(step) && LegalReload(h, step)
    ensures CallsLeased(ApplyReload(mig, h, step))
  {
    var h' := ApplyReload(mig, h, step);
    forall c | c in h'.calls ensures CallLeased(h', h'.calls[c]) {
      assert c in h.calls && h'.calls[c] == h.calls[c] by {
        CallsStay(mig, h, step);
      }
      assert CallLeased(h, h.calls[c]) && CallOk(h, h.calls[c]);
      ReloadStepGate(mig, h, step, h.calls[c].rec);
      hide ApplyReload, LegalReload;
    }
  }

  lemma CallsStay(mig: Migration, h: Host, step: Step)
    requires OnReload(step) && LegalReload(h, step)
    ensures ApplyReload(mig, h, step).calls == h.calls
  {
    if Commits(h, step) {
    } else {
      ReloadStepOnHost(mig, h, step);
    }
  }

  lemma ReloadStepGate(mig: Migration, h: Host, step: Step, r: nat)
    requires OnReload(step) && LegalReload(h, step) && r in h.recs
    ensures r in ApplyReload(mig, h, step).recs
    ensures var rec, rec' := h.recs[r], ApplyReload(mig, h, step).recs[r];
            && rec'.leases == rec.leases && (rec'.gate == rec.gate || rec'.gate.None? || rec'.gate == Some(rec.leases))
            && (rec'.status.Live? ==> rec.status.Live?)
  {
    hide Changed, ToDo, NothingToDo, IsFresh, CurrentServices, Removed, Unserved, InPhase, ToGate;
    hide StartReload, Load, Prepare, Block, MigrateAll, Abort, Free;
    if LeavesRecords(h, step) {
      RecordsLeft(mig, h, step);
      hide ApplyReload, LegalReload;
    }
  }

  // ---------------------------------------------------------------- the theorem

  /** In an orderly state no call runs on a record that a drained gate closes. */
  lemma DrainedIsQuiet(mig: Migration, h: Host, c: nat)
    requires Inv(mig, h) && Tidy(h) && HasDrained(h) && c in h.calls
    ensures !(h.calls[c].rec in Gated(h) && IsLive(h, h.calls[c].rec)) && !Stranded(h, c)
  {
    var r := h.calls[c].rec;
    assert CallLeased(h, h.calls[c]);
    if r in Gated(h) {
      assert GateOk(h, r);
    }
    if r in Candidates(h) {
      assert CandidateOk(h, r);
    }
  }

  lemma StepKeepsTidy(mig: Migration, h: Host, step: Step)
    requires Inv(mig, h) && Tidy(h) && Legal(h, step) && Orderly(h, step)
    ensures Tidy(Apply(mig, h, step))
  {
    assert EpochsOk(h);
    OneAtATimeKept(mig, h, step);
    PendingKeptKept(mig, h, step);
    GatesUpKept(mig, h, step);
    AllKnownKept(mig, h, step);
    CallsLeasedKept(mig, h, step);
    forall c ensures step.CommitStep? ==> !Stranded(h, c) {
      if step.CommitStep? && c in h.calls {
        DrainedIsQuiet(mig, h, c);
      }
    }
    hide Inv, Apply, OneAtATime, PendingKept, GatesUp, AllKnown, CallsLeased;
    CallsMatchIff(mig, h, step);
  }

  ghost predicate RunsOrderly(mig: Migration, steps: seq<Step>, from: Host, h: Host)
    decreases |steps|
  {
    if steps == [] then h == from
    else
      var rest, last := steps[..|steps| - 1], steps[|steps| - 1];
      exists h0 :: RunsOrderly(mig, rest, from, h0) && Follows(mig, h0, last, h) && Orderly(h0, last)
  }

  lemma {:induction false} OrderlyRunsAreTidy(mig: Migration, steps: seq<Step>, services: Services, h: Host)
    requires RunsOrderly(mig, steps, NewHost(services), h)
    ensures Inv(mig, h) && Tidy(h)
    decreases |steps|
  {
    if steps == [] {
      InitInv(mig, services);
    } else {
      hide Inv, Tidy, Legal, Apply, Orderly;
      var rest, last := steps[..|steps| - 1], steps[|steps| - 1];
      var h0 :| RunsOrderly(mig, rest, NewHost(services), h0) && Follows(mig, h0, last, h) && Orderly(h0, last);
      OrderlyRunsAreTidy(mig, rest, services, h0);
      StepKeepsInv(mig, h0, last);
      StepKeepsTidy(mig, h0, last);
    }
  }

  /**
   * In every orderly run: no commit fails the host; no call in flight runs old code over new state; no live record is
   * left behind by a commit or a rollback; and no activation is superseded.
   */
  lemma OrderlyRunsAreSafe(mig: Migration, steps: seq<Step>, services: Services, h: Host)
    requires RunsOrderly(mig, steps, NewHost(services), h)
    ensures !h.failed && (InPhase(h, Ready) ==> h.pending.Some?)
    ensures CallsMatch(h) && NoOrphans(h)
    ensures forall r | Legal(h, Finalize(r)) :: IsLive(Finish(h, r), r)
  {
    hide RunsOrderly;
    OrderlyRunsAreTidy(mig, steps, services, h);
    forall r ensures !Orphan(h, r) {
      assert r in h.recs ==> Known(h, r);
    }
    forall r | Legal(h, Finalize(r)) ensures IsLive(Finish(h, r), r) {
      ActivationIsSupersededIff(mig, h, r);
      assert Known(h, r);
    }
  }

  /** In every orderly run a drained gate is up, admits nothing and lets no call run. */
  lemma OrderlyGatesHold(mig: Migration, steps: seq<Step>, services: Services, h: Host, r: nat)
    requires RunsOrderly(mig, steps, NewHost(services), h) && HasDrained(h) && r in Gated(h) && IsLive(h, r)
    ensures h.recs[r].gate.Some? && forall c | c in h.calls :: h.calls[c].rec != r
    ensures forall root, epoch :: !Callable(h, r, root, epoch) && !Writable(h, r, root, epoch)
  {
    OrderlyRunsAreTidy(mig, steps, services, h);
    assert GateOk(h, r);
    forall c | c in h.calls ensures h.calls[c].rec != r {
      DrainedIsQuiet(mig, h, c);
    }
  }

  /**
   * And when no reload and no rollback runs, nothing is pending and every live record is open, with the code served.
   */
  lemma OrderlyHostsReopen(mig: Migration, steps: seq<Step>, services: Services, h: Host, r: nat)
    requires RunsOrderly(mig, steps, NewHost(services), h) && Quiet(h)
    ensures h.pending.None? && Candidates(h) == map[]
    ensures IsLive(h, r) ==>
              RunsCurrent(h, r) && h.recs[r].gate.None? && forall root :: Callable(h, r, root, h.current)
  {
    OrderlyRunsAreTidy(mig, steps, services, h);
    if IsLive(h, r) {
      assert Known(h, r) && RecOk(h, h.recs[r]);
      assert forall k: nat :: !Unwinding(h, k, r);
      assert h.recs[r].gate.Some? ==> GateOwned(h, r);
    }
  }
}
