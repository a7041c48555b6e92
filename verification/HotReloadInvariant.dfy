/** What every step of a host keeps, whatever overlaps: reloads, rollbacks of earlier ones, activations, calls. */
module HotReloadInvariant {
  import opened Wrappers
  import opened HotReload

  /** The current epoch and at most one previous one; a pending epoch is newer, and the previous one is gone by then. */
  predicate EpochsOk(h: Host) {
    && h.epochs.Keys == {h.current} + (if h.previous.Some? then {h.previous.value} else {})
    && (h.previous.Some? ==> h.previous.value < h.current)
    && h.current <= h.epochSeq
    && (h.pending.Some? ==> h.current < h.pending.value.id <= h.epochSeq && h.previous.None?)
  }

  /** What is pending while a reload is active is that reload's, unless a rollback cleared it. */
  predicate ReloadOk(h: Host) {
    && (Active(h) ==> h.previous.None? && h.current < h.reload.value.next)
    && (Active(h) && h.pending.Some? ==> h.pending.value == Pending(h.reload.value.next, h.reload.value.services))
    && (!Active(h) ==> Candidates(h) == map[])
    && (!IsGating(h) ==> Gated(h) == {})
    && (HasDrained(h) ==> h.reload.value.undrained == {})
    && (h.reload.Some? ==> h.reload.value.no < h.reloads)
    && (h.reload.Some? && !h.reload.value.aborted ==> h.reload.value.no !in h.rollbacks)
    && (forall k | k in h.rollbacks :: k < h.reloads)
  }

  /** Every piece of code a record holds runs over the state version the record has. */
  predicate SameVersion(rec: Rec) {
    && (rec.service.Some? ==> rec.service.value.stateVersion == rec.stateVersion)
    && (forall e | e in rec.behaviors :: rec.behaviors[e].stateVersion == rec.stateVersion)
    && (rec.tasks.Some? ==> rec.tasks.value.stateVersion == rec.stateVersion)
  }

  /** A record of a served type runs what the type is served with, now and in every epoch that is retained. */
  predicate RunsServed(h: Host, rec: Rec) {
    && (rec.typeName in CurrentServices(h) ==>
          h.current in rec.behaviors && rec.service == Some(CurrentServices(h)[rec.typeName]))
    && (forall e | e in rec.behaviors && e in h.epochs && rec.typeName in h.epochs[e] ::
          rec.behaviors[e] == h.epochs[e][rec.typeName])
  }

  /** A record that runs what only the pending epoch serves has it as that epoch's behavior. */
  predicate RunsPending(h: Host, rec: Rec) {
    rec.typeName !in CurrentServices(h) && rec.typeName in PendingServices(h)
    && rec.service == Some(PendingServices(h)[rec.typeName]) ==>
      h.pending.value.id in rec.behaviors && rec.behaviors[h.pending.value.id] == rec.service.value
      && h.current !in rec.behaviors
  }

  predicate RecOk(h: Host, rec: Rec) {
    match rec.status
    case Gone => true
    case Activating =>
      && rec.minEpoch == 0 && rec.behaviors == map[] && rec.tasks.None? && rec.gate.None? && SameVersion(rec)
      && (rec.service.Some? && rec.typeName in CurrentServices(h) ==>
          rec.service == Some(CurrentServices(h)[rec.typeName]))
    case Live =>
      && SameVersion(rec) && rec.service.Some? && rec.minEpoch <= h.current && RunsServed(h, rec) && RunsPending(h, rec)
      && (rec.gate.None? && !rec.deferred ==> rec.tasks == rec.service)
  }

  ghost predicate RecsOk(h: Host) { forall r | r in h.recs :: RecOk(h, h.recs[r]) }

  predicate CandidateOk(h: Host, r: nat)
    requires r in Candidates(h)
  {
    var candidate := Candidates(h)[r];
    && r in h.recs && !h.recs[r].status.Activating?
    && h.recs[r].typeName in NewServices(h) && candidate.service == NewServices(h)[h.recs[r].typeName]
    && (h.recs[r].status.Live? && !candidate.gated ==> candidate.service.stateVersion == h.recs[r].stateVersion)
    && (!candidate.gated ==> candidate.migrated.None?)
    && (IsGating(h) && ToGate(h, r) ==> r in Gated(h))
  }

  ghost predicate CandidatesOk(h: Host) { forall r | r in Candidates(h) :: CandidateOk(h, r) }

  /** A gate of the reload in progress, unless somebody opened it, is drained when the reload believes so. */
  predicate GateOk(h: Host, r: nat)
    requires h.reload.Some?
  {
    && r in h.recs && r in Candidates(h) && Candidates(h)[r].gated
    && (h.recs[r].gate.Some? ==> r in h.reload.value.undrained || h.recs[r].gate == Some({}))
    && (h.recs[r].gate.Some? ==> h.recs[r].tasks.None?)
  }

  ghost predicate GatesOk(h: Host) { forall r | r in Gated(h) :: GateOk(h, r) }

  /** The gates of rollback `k` have not reopened yet. */
  predicate Unwinding(h: Host, k: nat, r: nat) {
    k in h.rollbacks && h.rollbacks[k].todo.None? && r in h.rollbacks[k].gated
  }

  /** A gate is up for the reload in progress, or for one that unwinds. */
  ghost predicate GateOwned(h: Host, r: nat) { r in Gated(h) || exists k: nat :: Unwinding(h, k, r) }

  ghost predicate GatesOwned(h: Host) {
    h.failed || forall r | IsLive(h, r) && h.recs[r].gate.Some? :: GateOwned(h, r)
  }

  /** While its epoch is pending, a reload that blocks changed types misses no record of one. */
  predicate FixpointOk(h: Host) {
    Active(h) && h.pending.Some? ==>
      && (!h.reload.value.phase.Preparing? ==> h.gating == ChangedTypes(h))
      && (IsGating(h) ==> NothingToDo(h))
  }

  /** The root of a call in flight is alive, unless the call's epoch was dropped under it. */
  predicate Protected(h: Host, call: Call) { call.local || call.epoch in h.epochs }

  predicate CallOk(h: Host, call: Call) {
    && call.rec in h.recs && !h.recs[call.rec].status.Activating? && call.epoch <= h.current
    && (h.recs[call.rec].status.Live? && Protected(h, call) ==>
          && call.root in h.recs[call.rec].leases
          && (h.recs[call.rec].gate.Some? ==> call.root in h.recs[call.rec].gate.value))
  }

  ghost predicate CallsOk(h: Host) { forall c | c in h.calls :: CallOk(h, h.calls[c]) }

  /** What a ready reload will install is the migration of what the cell holds, if the gate is still up. */
  predicate MigratedAt(mig: Migration, h: Host, r: nat)
    requires r in Candidates(h)
  {
    && (InPhase(h, Ready) && IsLive(h, r) && h.recs[r].gate.Some? ==>
          Candidates(h)[r] == Migrated(mig, h.recs[r], Candidates(h)[r].(migrated := None)))
    && (InPhase(h, Ready) && IsLive(h, r) && Candidates(h)[r].service.stateVersion == h.recs[r].stateVersion ==>
          Candidates(h)[r].migrated.None?)
    && (!InPhase(h, Ready) ==> Candidates(h)[r].migrated.None?)
  }

  ghost predicate MigratedOk(mig: Migration, h: Host) { forall r | r in Candidates(h) :: MigratedAt(mig, h, r) }

  ghost predicate Inv(mig: Migration, h: Host) {
    && EpochsOk(h) && ReloadOk(h) && RecsOk(h) && CandidatesOk(h) && GatesOk(h) && GatesOwned(h)
    && FixpointOk(h) && CallsOk(h) && MigratedOk(mig, h)
  }

  lemma InitInv(mig: Migration, services: Services)
    ensures Inv(mig, NewHost(services))
  {
  }

  // ---------------------------------------------------------------- steps on one record

  /** One record changes, without becoming live or a candidate; a live one gets leases or another value. */
  predicate Milder(rec: Rec, rec': Rec) {
    && rec'.typeName == rec.typeName
    && (rec'.status == rec.status || rec'.status.Gone?)
    && (rec'.status.Live? ==> rec' == rec.(leases := rec'.leases, cell := rec'.cell) && rec.leases <= rec'.leases)
    && (rec'.status.Gone? ==> (rec'.tasks.None? || rec'.tasks == rec.tasks) && rec'.gate == rec.gate)
  }

  lemma MilderKeeps(mig: Migration, h: Host, r: nat, rec: Rec)
    requires Inv(mig, h) && r in h.recs && Milder(h.recs[r], rec) && RecOk(h, rec)
    requires InPhase(h, Ready) && ToGate(h, r) && rec.status.Live? && h.recs[r].gate.Some? ==>
             rec.cell == h.recs[r].cell
    requires ToDo(SetRec(h, r, rec), r) ==> ToDo(h, r)
    ensures Inv(mig, SetRec(h, r, rec))
  {
    MilderCandidates(mig, h, r, rec);
    MilderGates(h, r, rec);
    OneChanges(h, r, rec);
    hide CandidatesOk, MigratedOk, GatesOk, GatesOwned, RecsOk, CallsOk, FixpointOk;
  }

  lemma OneChanges(h: Host, r: nat, rec: Rec)
    requires RecsOk(h) && CallsOk(h) && FixpointOk(h) && r in h.recs && RecOk(h, rec)
    requires h.recs[r].status.Activating? || Milder(h.recs[r], rec)
    requires rec.typeName == h.recs[r].typeName
    requires ToDo(SetRec(h, r, rec), r) ==> ToDo(h, r)
    ensures RecsOk(SetRec(h, r, rec)) && CallsOk(SetRec(h, r, rec)) && FixpointOk(SetRec(h, r, rec))
  {
    hide CallsOk, Milder, Active, Candidates;
    OneFixpoint(h, r, rec);
    OneCalls(h, r, rec);
    hide FixpointOk, ToDo, CallsOk, CallOk, Milder;
    var h' := SetRec(h, r, rec);
    forall q | q in h'.recs ensures RecOk(h', h'.recs[q]) {
      assert RecOk(h, h.recs[q]);
    }
  }

  lemma OneCalls(h: Host, r: nat, rec: Rec)
    requires CallsOk(h) && r in h.recs && (h.recs[r].status.Activating? || Milder(h.recs[r], rec))
    ensures CallsOk(SetRec(h, r, rec))
  {
    var h' := SetRec(h, r, rec);
    forall c | c in h'.calls ensures CallOk(h', h'.calls[c]) {
      assert CallOk(h, h.calls[c]);
    }
  }

  lemma OneFixpoint(h: Host, r: nat, rec: Rec)
    requires FixpointOk(h) && r in h.recs && (ToDo(SetRec(h, r, rec), r) ==> ToDo(h, r))
    ensures FixpointOk(SetRec(h, r, rec))
  {
    var h' := SetRec(h, r, rec);
    assert forall q | q in h.recs && q != r :: ToDo(h', q) == ToDo(h, q);
    assert ChangedTypes(h') == ChangedTypes(h);
  }

  lemma MilderCandidates(mig: Migration, h: Host, r: nat, rec: Rec)
    requires CandidatesOk(h) && MigratedOk(mig, h) && r in h.recs && Milder(h.recs[r], rec)
    requires InPhase(h, Ready) && ToGate(h, r) && rec.status.Live? && h.recs[r].gate.Some? ==>
             rec.cell == h.recs[r].cell
    ensures CandidatesOk(SetRec(h, r, rec)) && MigratedOk(mig, SetRec(h, r, rec))
  {
    var h' := SetRec(h, r, rec);
    forall q | q in Candidates(h') ensures CandidateOk(h', q) && MigratedAt(mig, h', q) {
      assert CandidateOk(h, q) && MigratedAt(mig, h, q);
    }
  }

  lemma MilderGates(h: Host, r: nat, rec: Rec)
    requires GatesOk(h) && GatesOwned(h) && CandidatesOk(h) && r in h.recs && Milder(h.recs[r], rec)
    ensures GatesOk(SetRec(h, r, rec)) && GatesOwned(SetRec(h, r, rec))
  {
    var h' := SetRec(h, r, rec);
    forall q | q in Gated(h') ensures GateOk(h', q) {
      assert GateOk(h, q) && CandidateOk(h, q);
    }
    forall q | !h.failed && IsLive(h', q) && h'.recs[q].gate.Some? ensures GateOwned(h', q) {
      SameOwners(h, h', q);
      assert GateOwned(h, q);
    }
  }

  lemma SameOwners(h: Host, h': Host, r: nat)
    requires Gated(h) <= Gated(h') && h'.rollbacks == h.rollbacks
    ensures GateOwned(h, r) ==> GateOwned(h', r)
  {
    if k: nat :| Unwinding(h, k, r) {
      assert Unwinding(h', k, r);
    }
  }

  lemma AcquireKeeps(mig: Migration, h: Host, r: nat, typeName: nat, cell: int)
    requires Inv(mig, h) && Legal(h, Acquire(r, typeName, cell))
    ensures Inv(mig, SetRec(h, r, NewRec(typeName, cell)))
  {
    var h' := SetRec(h, r, NewRec(typeName, cell));
    forall q | q in h'.recs ensures RecOk(h', h'.recs[q]) {
      assert q != r ==> RecOk(h, h.recs[q]);
    }
    forall c | c in h'.calls ensures CallOk(h', h'.calls[c]) {
      assert CallOk(h, h.calls[c]);
    }
    NewRecordIsNotToDo(h, r, typeName, cell);
    NewRecordLeavesReload(mig, h, r, typeName, cell);
    hide RecsOk, CallsOk, FixpointOk, CandidatesOk, MigratedOk, GatesOk, GatesOwned;
  }

  lemma NewRecordLeavesReload(mig: Migration, h: Host, r: nat, typeName: nat, cell: int)
    requires CandidatesOk(h) && MigratedOk(mig, h) && GatesOk(h) && GatesOwned(h) && r !in h.recs
    ensures var h' := SetRec(h, r, NewRec(typeName, cell));
            CandidatesOk(h') && MigratedOk(mig, h') && GatesOk(h') && GatesOwned(h')
  {
    var h' := SetRec(h, r, NewRec(typeName, cell));
    forall q | q in Candidates(h') ensures CandidateOk(h', q) && MigratedAt(mig, h', q) {
      assert CandidateOk(h, q) && MigratedAt(mig, h, q);
    }
    forall q | q in Gated(h') ensures GateOk(h', q) {
      assert GateOk(h, q);
    }
    forall q | !h.failed && IsLive(h', q) && h'.recs[q].gate.Some? ensures GateOwned(h', q) {
      SameOwners(h, h', q);
      assert GateOwned(h, q);
    }
  }

  lemma NewRecordIsNotToDo(h: Host, r: nat, typeName: nat, cell: int)
    requires FixpointOk(h) && r !in h.recs && typeName !in h.gating
    ensures FixpointOk(SetRec(h, r, NewRec(typeName, cell)))
  {
    var h' := SetRec(h, r, NewRec(typeName, cell));
    assert forall q | q in h.recs :: ToDo(h', q) == ToDo(h, q);
    assert ChangedTypes(h') == ChangedTypes(h);
    assert Changed(h, typeName) ==> typeName in ChangedTypes(h);
  }

  lemma BeginKeeps(mig: Migration, h: Host, r: nat)
    requires Inv(mig, h) && Legal(h, Begin(r))
    ensures Inv(mig, Start(h, r))
  {
    assert RecOk(h, h.recs[r]);
    MilderKeeps(mig, h, r, Start(h, r).recs[r]);
  }

  lemma DisposeKeeps(mig: Migration, h: Host, r: nat)
    requires Inv(mig, h) && r in h.recs
    ensures Inv(mig, SetRec(h, r, Disposed(h.recs[r])))
  {
    MilderKeeps(mig, h, r, Disposed(h.recs[r]));
  }

  /**
   * An activation fails for changed code exactly if no current epoch serves its type, and none that is pending serves
   * it with the code the activation began with.
   */
  lemma ActivationIsSupersededIff(mig: Migration, h: Host, r: nat)
    requires Inv(mig, h) && Legal(h, Finalize(r))
    ensures Finish(h, r).recs[r].status.Gone? <==>
            && h.recs[r].typeName !in CurrentServices(h)
            && (h.recs[r].typeName in PendingServices(h) ==>
                  h.recs[r].service != Some(PendingServices(h)[h.recs[r].typeName]))
    ensures Finish(h, r).recs[r].status.Live? || Finish(h, r).recs[r].status.Gone?
  {
    assert RecOk(h, h.recs[r]);
  }

  /** One that begins takes the code that is served, or else pending; without any it fails. */
  lemma ActivationBeginsWith(h: Host, r: nat)
    requires r in h.recs && h.recs[r].status.Activating?
    ensures var typeName, rec := h.recs[r].typeName, Start(h, r).recs[r];
            && (rec.status.Gone? <==> typeName !in CurrentServices(h) && typeName !in PendingServices(h))
            && (rec.status.Gone? || rec.status.Activating?)
            && (typeName in CurrentServices(h) ==> rec.service == Some(CurrentServices(h)[typeName]))
            && (typeName !in CurrentServices(h) && typeName in PendingServices(h) ==>
                  rec.service == Some(PendingServices(h)[typeName]))
  {
  }

  lemma BehaviorsAre(h: Host, typeName: nat, service: Service)
    ensures var behaviors := BehaviorsFor(h, typeName, service);
            && (forall e :: e in behaviors <==>
                  || (e in h.epochs && typeName in h.epochs[e] && h.epochs[e][typeName] == service)
                  || (h.pending.Some? && e == h.pending.value.id && typeName in PendingServices(h)
                      && PendingServices(h)[typeName] == service))
            && forall e | e in behaviors :: behaviors[e] == service
  {
  }

  lemma FinishedServes(h: Host, rec: Rec, service: Service)
    requires EpochsOk(h) && rec.service == Some(service)
    requires rec.typeName in CurrentServices(h) ==> service == CurrentServices(h)[rec.typeName]
    ensures var rec' := Finished(rec, BehaviorsFor(h, rec.typeName, service), h.current);
            RunsServed(h, rec') && RunsPending(h, rec')
  {
    BehaviorsAre(h, rec.typeName, service);
    hide BehaviorsFor;
  }

  lemma FinishedOk(mig: Migration, h: Host, r: nat)
    requires Inv(mig, h) && Legal(h, Finalize(r)) && Finish(h, r).recs[r].status.Live?
    ensures RecOk(h, Finish(h, r).recs[r])
  {
    var rec := h.recs[r];
    assert RecOk(h, rec) && rec.status.Activating? && rec.service.Some? && EpochsOk(h);
    BehaviorsAre(h, rec.typeName, rec.service.value);
    FinishedServes(h, rec, rec.service.value);
    hide Inv, Legal, BehaviorsFor, RunsServed, RunsPending;
    assert Finish(h, r).recs[r] == Finished(rec, BehaviorsFor(h, rec.typeName, rec.service.value), h.current);
    hide Finish;
  }

  lemma FinalizeKeeps(mig: Migration, h: Host, r: nat)
    requires Inv(mig, h) && Legal(h, Finalize(r))
    ensures Inv(mig, Finish(h, r))
  {
    var rec := Finish(h, r).recs[r];
    FinishIsOne(h, r);
    assert RecOk(h, h.recs[r]);
    if rec.status.Live? {
      FinishedOk(mig, h, r);
      hide Inv, Finish, RecOk, Legal;
      BecomesLive(mig, h, r, rec);
    } else {
      hide Inv, Finish, RecOk, Legal;
      DisposeKeeps(mig, h, r);
    }
  }

  lemma FinishIsOne(h: Host, r: nat)
    requires r in h.recs && h.recs[r].status.Activating? && h.recs[r].service.Some?
    ensures var rec := Finish(h, r).recs[r];
            && Finish(h, r) == SetRec(h, r, rec) && rec.typeName == h.recs[r].typeName
            && rec.service == h.recs[r].service && rec.gate == h.recs[r].gate
            && (rec.status.Live? || rec == Disposed(h.recs[r]))
  {
    hide BehaviorsFor;
  }

  lemma BecomesLive(mig: Migration, h: Host, r: nat, rec: Rec)
    requires Inv(mig, h) && r in h.recs && h.recs[r].status.Activating? && RecOk(h, rec) && rec.status.Live?
    requires rec.gate.None? && rec.typeName == h.recs[r].typeName && rec.service == h.recs[r].service
    ensures Inv(mig, SetRec(h, r, rec))
  {
    OneChanges(h, r, rec);
    NewlyLive(mig, h, r, rec);
    hide CandidatesOk, MigratedOk, GatesOk, GatesOwned, RecsOk, CallsOk, FixpointOk;
  }

  lemma NewlyLive(mig: Migration, h: Host, r: nat, rec: Rec)
    requires CandidatesOk(h) && MigratedOk(mig, h) && GatesOk(h) && GatesOwned(h)
    requires r in h.recs && h.recs[r].status.Activating? && rec.gate.None?
    ensures var h' := SetRec(h, r, rec); CandidatesOk(h') && MigratedOk(mig, h') && GatesOk(h') && GatesOwned(h')
  {
    var h' := SetRec(h, r, rec);
    forall q | q in Candidates(h') ensures q != r && CandidateOk(h', q) && MigratedAt(mig, h', q) {
      assert CandidateOk(h, q) && MigratedAt(mig, h, q);
    }
    forall q | q in Gated(h') ensures GateOk(h', q) {
      assert GateOk(h, q);
    }
    forall q | !h.failed && IsLive(h', q) && h'.recs[q].gate.Some? ensures GateOwned(h', q) {
      SameOwners(h, h', q);
      assert GateOwned(h, q);
    }
  }

  // ---------------------------------------------------------------- calls, roots, writes

  lemma LeaseKeeps(mig: Migration, h: Host, r: nat, root: nat)
    requires Inv(mig, h) && IsLive(h, r)
    ensures Inv(mig, SetRec(h, r, Leased(h.recs[r], root)))
  {
    assert RecOk(h, h.recs[r]);
    MilderKeeps(mig, h, r, Leased(h.recs[r], root));
  }

  lemma CallsKeep(mig: Migration, h: Host, calls: map<nat, Call>)
    requires Inv(mig, h) && forall c | c in calls :: CallOk(h, calls[c])
    ensures Inv(mig, h.(calls := calls))
  {
    var h' := h.(calls := calls);
    forall r | r in h'.recs ensures RecOk(h', h'.recs[r]) {
      assert RecOk(h, h.recs[r]);
    }
    OnlyRecordsMatter(mig, h, h');
    forall c | c in calls ensures CallOk(h', calls[c]) {
    }
  }

  /** Candidates, gates and migrated values speak of records, the reload and rollbacks only. */
  lemma OnlyRecordsMatter(mig: Migration, h: Host, h': Host)
    requires CandidatesOk(h) && MigratedOk(mig, h) && GatesOk(h) && GatesOwned(h)
    requires h'.recs == h.recs && h'.reload == h.reload && h'.rollbacks == h.rollbacks && h'.failed == h.failed
    ensures CandidatesOk(h') && MigratedOk(mig, h') && GatesOk(h') && GatesOwned(h')
  {
    forall r | r in Candidates(h') ensures CandidateOk(h', r) && MigratedAt(mig, h', r) {
      assert CandidateOk(h, r) && MigratedAt(mig, h, r);
    }
    forall r | r in Gated(h') ensures GateOk(h', r) {
      assert GateOk(h, r);
    }
    forall r | !h.failed && IsLive(h', r) && h'.recs[r].gate.Some? ensures GateOwned(h', r) {
      SameOwners(h, h', r);
      assert GateOwned(h, r);
    }
  }

  lemma BeginCallKeeps(mig: Migration, h: Host, c: nat, r: nat, root: nat, epoch: nat, local: bool)
    requires Inv(mig, h) && Legal(h, CallStep(c, r, root, epoch, local))
    ensures Inv(mig, BeginCall(h, c, r, root, epoch, local))
  {
    LeaseKeeps(mig, h, r, root);
    var h1 := SetRec(h, r, Leased(h.recs[r], root));
    CallsKeep(mig, h1, h1.calls[c := Call(r, root, epoch, local, h.recs[r].behaviors[epoch])]);
  }

  lemma BeginListenerKeeps(mig: Migration, h: Host, c: nat, r: nat, root: nat)
    requires Inv(mig, h) && Legal(h, Listen(c, r, root))
    ensures Inv(mig, BeginListener(h, c, r, root))
  {
    LeaseKeeps(mig, h, r, root);
    var h1 := SetRec(h, r, Leased(h.recs[r], root));
    CallsKeep(mig, h1, h1.calls[c := Call(r, root, h.current, true, h.recs[r].service.value)]);
  }

  lemma ReturnKeeps(mig: Migration, h: Host, c: nat)
    requires Inv(mig, h)
    ensures Inv(mig, h.(calls := h.calls - {c}))
  {
    forall d | d in h.calls ensures CallOk(h, h.calls[d]) {
    }
    CallsKeep(mig, h, h.calls - {c});
  }

  lemma EndRootKeeps(mig: Migration, h: Host, root: nat)
    requires Inv(mig, h) && Legal(h, EndRoot(root))
    ensures Inv(mig, EndOfRoot(h, root))
  {
    var h' := EndOfRoot(h, root);
    hide RecOk, CandidateOk, GateOk, CallOk;
    EndRootKeepsRecs(h, root);
    EndRootKeepsReload(mig, h, root);
    EndRootKeepsCalls(h, root);
    hide RecsOk, CandidatesOk, MigratedOk, GatesOk, GatesOwned, CallsOk, MayEnd;
    assert FixpointOk(h') by {
      assert forall r | r in h.recs :: ToDo(h', r) == ToDo(h, r);
      assert ChangedTypes(h') == ChangedTypes(h);
    }
  }

  lemma EndRootKeepsCalls(h: Host, root: nat)
    requires CallsOk(h) && MayEnd(h, root)
    ensures CallsOk(EndOfRoot(h, root))
  {
    var h' := EndOfRoot(h, root);
    forall c | c in h'.calls ensures CallOk(h', h'.calls[c]) {
      assert CallOk(h, h.calls[c]);
    }
  }

  lemma EndRootKeepsRecs(h: Host, root: nat)
    requires RecsOk(h)
    ensures RecsOk(EndOfRoot(h, root))
  {
    var h' := EndOfRoot(h, root);
    forall r | r in h'.recs ensures RecOk(h', h'.recs[r]) {
      assert RecOk(h, h.recs[r]);
    }
  }

  lemma EndRootKeepsReload(mig: Migration, h: Host, root: nat)
    requires CandidatesOk(h) && MigratedOk(mig, h) && GatesOk(h) && GatesOwned(h)
    ensures var h' := EndOfRoot(h, root); CandidatesOk(h') && MigratedOk(mig, h') && GatesOk(h') && GatesOwned(h')
  {
    var h' := EndOfRoot(h, root);
    forall r | r in Candidates(h') ensures CandidateOk(h', r) && MigratedAt(mig, h', r) {
      assert CandidateOk(h, r) && MigratedAt(mig, h, r);
    }
    forall r | r in Gated(h') ensures GateOk(h', r) {
      assert GateOk(h, r);
      if h.recs[r].gate == Some({}) {
        assert h.recs[r].gate.value - {root} == {};
      } else if h.recs[r].gate.Some? && root !in h.recs[r].gate.value {
        assert h.recs[r].gate.value - {root} == h.recs[r].gate.value;
      }
    }
    forall r | !h.failed && IsLive(h', r) && h'.recs[r].gate.Some? ensures GateOwned(h', r) {
      SameOwners(h, h', r);
      assert GateOwned(h, r);
    }
  }

  /** A gated record whose grandfathered roots have ended admits no write, so its migrated value stays current. */
  lemma WriteKeeps(mig: Migration, h: Host, r: nat, value: int)
    requires Inv(mig, h) && r in h.recs
    requires (exists root, epoch :: Writable(h, r, root, epoch)) || h.recs[r].tasks.Some?
    ensures Inv(mig, SetRec(h, r, h.recs[r].(cell := value)))
  {
    hide MigratedAt, IsLive, GatesOwned;
    assert RecOk(h, h.recs[r]);
    if InPhase(h, Ready) && ToGate(h, r) {
      assert CandidateOk(h, r) && GateOk(h, r);
    }
    MilderKeeps(mig, h, r, h.recs[r].(cell := value));
  }

  // ---------------------------------------------------------------- epochs and preparation

  lemma RetireKeeps(mig: Migration, h: Host)
    requires Inv(mig, h) && h.previous.Some?
    ensures Inv(mig, Retire(h))
  {
    var h' := Retire(h);
    forall r | r in h'.recs ensures RecOk(h', h'.recs[r]) {
      assert RecOk(h, h.recs[r]);
    }
    hide RecOk;
    forall c | c in h'.calls ensures CallOk(h', h'.calls[c]) {
      assert CallOk(h, h.calls[c]);
    }
    forall r | !h.failed && IsLive(h', r) && h'.recs[r].gate.Some? ensures GateOwned(h', r) {
      SameOwners(h, h', r);
      assert GateOwned(h, r);
    }
  }

  /** The reload changes, or what is pending; records, candidates and gates stay. */
  lemma StageKeepsRecs(h: Host, h': Host)
    requires RecsOk(h) && CallsOk(h)
    requires h'.recs == h.recs && h'.calls == h.calls && h'.epochs == h.epochs && h'.current == h.current
    requires h'.pending == h.pending || h'.pending.None?
    ensures RecsOk(h') && CallsOk(h')
  {
    forall r | r in h'.recs ensures RecOk(h', h'.recs[r]) {
      assert RecOk(h, h.recs[r]);
    }
    forall c | c in h'.calls ensures CallOk(h', h'.calls[c]) {
      assert CallOk(h, h.calls[c]);
    }
  }

  lemma {:induction false} NoCandidates(mig: Migration, h: Host, h': Host)
    requires Candidates(h') == map[] && Gated(h') == {} && h'.recs == h.recs && h'.failed == h.failed && GatesOwned(h)
    requires forall r | GateOwned(h, r) :: GateOwned(h', r)
    ensures CandidatesOk(h') && MigratedOk(mig, h') && GatesOk(h') && GatesOwned(h')
  {
    forall r | !h.failed && IsLive(h', r) && h'.recs[r].gate.Some? ensures GateOwned(h', r) {
      assert GateOwned(h, r);
    }
  }

  lemma BeginReloadKeeps(mig: Migration, h: Host)
    requires Inv(mig, h) && h.reload.None?
    ensures Inv(mig, StartReload(h))
  {
    var h' := StartReload(h);
    StageKeepsRecs(h, h');
    forall r | GateOwned(h, r) ensures GateOwned(h', r) {
      SameOwners(h, h', r);
    }
    NoCandidates(mig, h, h');
  }

  lemma LoadKeeps(mig: Migration, h: Host, id: nat, services: Services)
    requires Inv(mig, h) && Legal(h, LoadStep(id, services))
    ensures Inv(mig, Load(h, id, services))
  {
    var h1 := Announce(h, id, services);
    AnnounceKeeps(mig, h, id, services);
    if h.reload.value.aborted && NothingToDo(h1) {
      assert !Active(h1);
      hide Announce, IsFresh, NothingToDo, CandidateOk, GateOk;
      StageKeepsRecs(h1, Load(h, id, services));
      OnlyRecordsMatter(mig, h1, Load(h, id, services));
    }
  }

  lemma AnnounceKeeps(mig: Migration, h: Host, id: nat, services: Services)
    requires Inv(mig, h) && Legal(h, LoadStep(id, services))
    ensures Inv(mig, Announce(h, id, services))
  {
    var h' := Announce(h, id, services);
    AnnounceKeepsRecs(h, id, services);
    hide IsFresh, NothingToDo, ChangedTypes, RecsOk, CallsOk;
    forall r | GateOwned(h, r) ensures GateOwned(h', r) {
      SameOwners(h, h', r);
    }
    NoCandidates(mig, h, h');
  }

  lemma AnnounceKeepsRecs(h: Host, id: nat, services: Services)
    requires RecsOk(h) && CallsOk(h) && h.reload.Some? && IsFresh(h, services)
    ensures RecsOk(Announce(h, id, services)) && CallsOk(Announce(h, id, services))
  {
    var h' := Announce(h, id, services);
    forall r | r in h'.recs ensures RecOk(h', h'.recs[r]) {
      assert RecOk(h, h.recs[r]);
      if h.recs[r].typeName in services && h.recs[r].typeName !in CurrentServices(h) {
        assert h.recs[r].service != Some(services[h.recs[r].typeName]);
      }
    }
    forall c | c in h'.calls ensures CallOk(h', h'.calls[c]) {
      assert CallOk(h, h.calls[c]);
    }
  }

  lemma PrepareKeeps(mig: Migration, h: Host, r: nat, exclusive: bool)
    requires Inv(mig, h) && Legal(h, PrepareStep(r, exclusive))
    ensures Inv(mig, Prepare(h, r, exclusive))
  {
    var h' := Prepare(h, r, exclusive);
    StageKeepsRecs(h, h');
    assert Gated(h') == {};
    forall q | q in Candidates(h') ensures CandidateOk(h', q) && MigratedAt(mig, h', q) {
      assert q in Candidates(h) ==> CandidateOk(h, q) && MigratedAt(mig, h, q);
    }
    forall q | !h.failed && IsLive(h', q) && h'.recs[q].gate.Some? ensures GateOwned(h', q) {
      SameOwners(h, h', q);
      assert GateOwned(h, q);
    }
    assert ChangedTypes(h') == ChangedTypes(h);
  }

  lemma BlockKeeps(mig: Migration, h: Host)
    requires Inv(mig, h) && Legal(h, BlockStep)
    ensures Inv(mig, Block(h))
  {
    var h' := Block(h);
    StageKeepsRecs(h, h');
    PhaseMoves(mig, h, h');
    assert ChangedTypes(h') == ChangedTypes(h);
  }

  /** Only the phase moves on, not to `Ready`. */
  lemma PhaseMoves(mig: Migration, h: Host, h': Host)
    requires CandidatesOk(h) && MigratedOk(mig, h) && GatesOk(h) && GatesOwned(h)
    requires h'.recs == h.recs && h'.rollbacks == h.rollbacks && h'.failed == h.failed && Active(h) && Active(h')
    requires h'.reload.value == h.reload.value.(phase := h'.reload.value.phase)
    requires IsGating(h') ==> IsGating(h)
    requires !h.reload.value.phase.Ready? && !h'.reload.value.phase.Ready?
    ensures CandidatesOk(h') && MigratedOk(mig, h') && GatesOk(h') && GatesOwned(h')
  {
    forall q | q in Candidates(h') ensures CandidateOk(h', q) && MigratedAt(mig, h', q) {
      assert CandidateOk(h, q) && MigratedAt(mig, h, q);
    }
    forall q | q in Gated(h') ensures GateOk(h', q) {
      assert GateOk(h, q);
    }
    forall q | !h.failed && IsLive(h', q) && h'.recs[q].gate.Some? ensures GateOwned(h', q) {
      SameOwners(h, h', q);
      assert GateOwned(h, q);
    }
  }

  lemma DrainKeeps(mig: Migration, h: Host)
    requires Inv(mig, h) && Legal(h, DrainStep)
    ensures Inv(mig, ApplyReload(mig, h, DrainStep))
  {
    var h' := ApplyReload(mig, h, DrainStep);
    StageKeepsRecs(h, h');
    PhaseMoves(mig, h, h');
    assert ChangedTypes(h') == ChangedTypes(h);
    assert forall r | r in h.recs :: ToDo(h', r) == ToDo(h, r);
  }

  lemma CutKeeps(mig: Migration, h: Host)
    requires Inv(mig, h) && Legal(h, CutStep)
    ensures Inv(mig, CutAll(h))
  {
    CutKeepsReload(mig, h);
    CutKeepsRecs(h);
    CutKeepsFixpoint(h);
    hide CandidatesOk, MigratedOk, GatesOk, GatesOwned, RecsOk, CallsOk, FixpointOk;
  }

  lemma CutKeepsRecs(h: Host)
    requires RecsOk(h) && CallsOk(h) && h.reload.Some?
    ensures RecsOk(CutAll(h)) && CallsOk(CutAll(h))
  {
    var h' := CutAll(h);
    forall r | r in h'.recs ensures RecOk(h', h'.recs[r]) {
      assert RecOk(h, h.recs[r]);
    }
    forall c | c in h'.calls ensures CallOk(h', h'.calls[c]) {
      assert CallOk(h, h.calls[c]);
    }
  }

  lemma CutKeepsFixpoint(h: Host)
    requires FixpointOk(h) && Legal(h, CutStep)
    ensures FixpointOk(CutAll(h))
  {
    var h' := CutAll(h);
    assert ChangedTypes(h') == ChangedTypes(h);
    assert forall r | r in h.recs :: ToDo(h', r) == ToDo(h, r);
  }

  lemma CutKeepsReload(mig: Migration, h: Host)
    requires CandidatesOk(h) && MigratedOk(mig, h) && GatesOwned(h) && InPhase(h, Blocked) && Gated(h) == {}
    ensures var h' := CutAll(h); CandidatesOk(h') && MigratedOk(mig, h') && GatesOk(h') && GatesOwned(h')
  {
    var h' := CutAll(h);
    forall r | r in Candidates(h') ensures CandidateOk(h', r) && MigratedAt(mig, h', r) {
      assert CandidateOk(h, r) && MigratedAt(mig, h, r);
    }
    forall r | r in Gated(h') ensures GateOk(h', r) {
      assert ToGate(h, r);
    }
    forall r | !h.failed && IsLive(h', r) && h'.recs[r].gate.Some? ensures GateOwned(h', r) {
      if r !in Gated(h') {
        SameOwners(h, h', r);
        assert GateOwned(h, r);
      }
    }
  }

  lemma MigrateKeeps(mig: Migration, h: Host)
    requires Inv(mig, h) && InPhase(h, Drained)
    ensures Inv(mig, MigrateAll(mig, h))
  {
    var h' := MigrateAll(mig, h);
    StageKeepsRecs(h, h');
    MigrateKeepsReload(mig, h);
    assert ChangedTypes(h') == ChangedTypes(h);
    assert forall r | r in h.recs :: ToDo(h', r) == ToDo(h, r);
  }

  lemma MigrateKeepsReload(mig: Migration, h: Host)
    requires CandidatesOk(h) && MigratedOk(mig, h) && GatesOk(h) && GatesOwned(h) && InPhase(h, Drained)
    ensures var h' := MigrateAll(mig, h); CandidatesOk(h') && MigratedOk(mig, h') && GatesOk(h') && GatesOwned(h')
  {
    var h' := MigrateAll(mig, h);
    forall r | r in Candidates(h') ensures CandidateOk(h', r) && MigratedAt(mig, h', r) {
      assert CandidateOk(h, r) && MigratedAt(mig, h, r);
      assert Candidates(h)[r].(migrated := None) == Candidates(h)[r];
    }
    forall r | r in Gated(h') ensures GateOk(h', r) {
      assert GateOk(h, r);
    }
    forall r | !h.failed && IsLive(h', r) && h'.recs[r].gate.Some? ensures GateOwned(h', r) {
      SameOwners(h, h', r);
      assert GateOwned(h, r);
    }
  }

  // ---------------------------------------------------------------- the end of a reload

  lemma PublishedOk(mig: Migration, h: Host, r: nat)
    requires Inv(mig, h) && InPhase(h, Ready) && h.pending.Some? && r in h.recs
    ensures RecOk(Commit(h), Commit(h).recs[r])
  {
    assert RecOk(h, h.recs[r]) && !ToDo(h, r);
    if Removed(h, h.recs[r].typeName) {
    } else if r in Candidates(h) {
      assert CandidateOk(h, r);
      InstalledOk(h, r);
    } else {
      hide RecsOk, CandidatesOk, GatesOk, GatesOwned, CallsOk, MigratedOk, NothingToDo;
      CarriedOk(h, r);
    }
  }

  lemma InstalledOk(h: Host, r: nat)
    requires EpochsOk(h) && ReloadOk(h) && InPhase(h, Ready) && h.pending.Some? && r in Candidates(h)
             && CandidateOk(h, r)
    requires RecOk(h, h.recs[r])
    ensures RecOk(Commit(h), Commit(h).recs[r])
  {
  }

  lemma CarriedOk(h: Host, r: nat)
    requires EpochsOk(h) && ReloadOk(h) && InPhase(h, Ready) && h.pending.Some? && r in h.recs && r !in Candidates(h)
    requires RecOk(h, h.recs[r]) && !ToDo(h, r) && !Removed(h, h.recs[r].typeName)
    ensures RecOk(Commit(h), Commit(h).recs[r])
  {
    var rec, h' := h.recs[r], Commit(h);
    var rec' := h'.recs[r];
    assert rec' == Carried(rec, h.current, h'.current, r in h.reload.value.staged);
    if rec.status.Live? {
      assert CurrentServices(h') == NewServices(h);
      CarriedRuns(h, r);
    }
  }

  lemma CarriedRuns(h: Host, r: nat)
    requires EpochsOk(h) && ReloadOk(h) && InPhase(h, Ready) && h.pending.Some? && IsLive(h, r) && r !in Candidates(h)
    requires RecOk(h, h.recs[r]) && !ToDo(h, r) && !Removed(h, h.recs[r].typeName)
    ensures RunsServed(Commit(h), Commit(h).recs[r])
  {
    var rec, h' := h.recs[r], Commit(h);
    hide SameVersion;
    if rec.typeName in NewServices(h) {
      if rec.typeName in CurrentServices(h) {
        assert NewServices(h)[rec.typeName] == CurrentServices(h)[rec.typeName];
      } else {
        assert rec.service == Some(NewServices(h)[rec.typeName]);
      }
    }
  }

  /** A gate outlives the commit only if it is one of a rollback. */
  lemma CommitKeepsGates(mig: Migration, h: Host)
    requires Inv(mig, h) && InPhase(h, Ready)
    ensures GatesOwned(Commit(h)) && GatesOk(Commit(h))
  {
    var h' := Commit(h);
    forall q | q in Gated(h) ensures q in Candidates(h) {
      assert GateOk(h, q);
    }
    hide GateOk, RecsOk, CandidatesOk, CallsOk, MigratedOk, FixpointOk;
    forall r | !h'.failed && IsLive(h', r) && h'.recs[r].gate.Some? ensures GateOwned(h', r) {
      assert IsLive(h, r) && h.recs[r].gate.Some? && r !in Candidates(h) && GateOwned(h, r);
      var k: nat :| Unwinding(h, k, r);
      assert Unwinding(h', k, r);
    }
  }

  lemma CommitKeeps(mig: Migration, h: Host)
    requires Inv(mig, h) && InPhase(h, Ready)
    ensures Inv(mig, Commit(h))
  {
    CommitKeepsGates(mig, h);
    CommitKeepsRecs(mig, h);
    CommitKeepsReload(mig, h);
    hide RecsOk, CallsOk, GatesOk, GatesOwned, EpochsOk, ReloadOk, CandidatesOk, FixpointOk, MigratedOk;
  }

  lemma CommitKeepsRecs(mig: Migration, h: Host)
    requires Inv(mig, h) && InPhase(h, Ready)
    ensures RecsOk(Commit(h)) && CallsOk(Commit(h))
  {
    var h' := Commit(h);
    if h.pending.None? {
      StageKeepsRecs(h, h');
    } else {
      forall r | r in h'.recs ensures RecOk(h', h'.recs[r]) {
        PublishedOk(mig, h, r);
      }
      forall c | c in h'.calls ensures CallOk(h', h'.calls[c]) {
        CallSurvives(mig, h, c);
      }
      hide RecOk, CallOk;
    }
  }

  lemma CommitKeepsReload(mig: Migration, h: Host)
    requires EpochsOk(h) && ReloadOk(h) && InPhase(h, Ready)
    ensures var h' := Commit(h);
            EpochsOk(h') && ReloadOk(h') && CandidatesOk(h') && FixpointOk(h') && MigratedOk(mig, h')
  {
    hide Published;
  }

  lemma CallSurvives(mig: Migration, h: Host, c: nat)
    requires Inv(mig, h) && InPhase(h, Ready) && h.pending.Some? && c in h.calls
    ensures CallOk(Commit(h), h.calls[c])
  {
    assert CallOk(h, h.calls[c]) && EpochsOk(h) && ReloadOk(h);
    hide Inv;
  }

  lemma AbortKeeps(mig: Migration, h: Host, cancel: bool)
    requires Inv(mig, h) && Legal(h, AbortStep(cancel))
    ensures Inv(mig, Abort(h, cancel))
  {
    var h' := Abort(h, cancel);
    StageKeepsRecs(h, h');
    forall r | GateOwned(h, r) ensures GateOwned(h', r) {
      AbortHandsOver(h, cancel, r);
    }
    NoCandidates(mig, h, h');
  }

  /** The gates of an aborted reload are its rollback's. */
  lemma AbortHandsOver(h: Host, cancel: bool, r: nat)
    requires h.reload.Some? && !h.reload.value.aborted && ReloadOk(h) && GateOwned(h, r)
    ensures GateOwned(Abort(h, cancel), r)
  {
    var h' := Abort(h, cancel);
    if r in Gated(h) {
      assert Unwinding(h', h.reload.value.no, r);
    } else {
      var k: nat :| Unwinding(h, k, r);
      assert Unwinding(h', k, r);
    }
  }

  lemma ReopenKeeps(mig: Migration, h: Host, k: nat)
    requires Inv(mig, h) && Legal(h, ReopenStep(k))
    ensures Inv(mig, ReopenAll(h, k))
  {
    hide Inv;
    var gated := h.rollbacks[k].gated;
    var h1, h' := OpenGates(h, gated), ReopenAll(h, k);
    OpenGatesKeeps(mig, h, gated);
    assert h1.rollbacks == h.rollbacks && forall r | r in h1.recs && r in gated :: h1.recs[r].gate.None?;
    hide OpenGates;
    RollbacksKeep(mig, h1, h');
  }

  lemma OpenGatesKeeps(mig: Migration, h: Host, gated: set<nat>)
    requires Inv(mig, h)
    ensures Inv(mig, OpenGates(h, gated))
  {
    var h' := OpenGates(h, gated);
    hide RecOk, CandidateOk, GateOk, CallOk;
    OpenGatesKeepsRecs(h, gated);
    OpenGatesKeepsReload(mig, h, gated);
    hide RecsOk, CandidatesOk, MigratedOk, GatesOk, GatesOwned, CallsOk, FixpointOk;
    OpenGatesKeepsFixpoint(h, gated);
  }

  lemma OpenGatesKeepsFixpoint(h: Host, gated: set<nat>)
    requires FixpointOk(h)
    ensures FixpointOk(OpenGates(h, gated))
  {
    var h' := OpenGates(h, gated);
    assert forall r | r in h.recs :: ToDo(h', r) == ToDo(h, r);
    assert ChangedTypes(h') == ChangedTypes(h);
  }

  lemma OpenGatesKeepsRecs(h: Host, gated: set<nat>)
    requires RecsOk(h) && CallsOk(h)
    ensures RecsOk(OpenGates(h, gated)) && CallsOk(OpenGates(h, gated))
  {
    var h' := OpenGates(h, gated);
    forall r | r in h'.recs ensures RecOk(h', h'.recs[r]) {
      assert RecOk(h, h.recs[r]);
    }
    forall c | c in h'.calls ensures CallOk(h', h'.calls[c]) {
      assert CallOk(h, h.calls[c]);
    }
  }

  lemma OpenGatesKeepsReload(mig: Migration, h: Host, gated: set<nat>)
    requires CandidatesOk(h) && MigratedOk(mig, h) && GatesOk(h) && GatesOwned(h)
    ensures var h' := OpenGates(h, gated); CandidatesOk(h') && MigratedOk(mig, h') && GatesOk(h') && GatesOwned(h')
  {
    var h' := OpenGates(h, gated);
    forall r | r in Candidates(h') ensures CandidateOk(h', r) && MigratedAt(mig, h', r) {
      assert CandidateOk(h, r) && MigratedAt(mig, h, r);
    }
    forall r | r in Gated(h') ensures GateOk(h', r) {
      assert GateOk(h, r);
    }
    forall r | !h.failed && IsLive(h', r) && h'.recs[r].gate.Some? ensures GateOwned(h', r) {
      SameOwners(h, h', r);
      assert GateOwned(h, r);
    }
  }

  lemma DisposeOneKeeps(mig: Migration, h: Host, k: nat, r: nat)
    requires Inv(mig, h) && Legal(h, DisposeStep(k, r))
    ensures Inv(mig, DisposeOne(h, k, r))
  {
    DisposeKeeps(mig, h, r);
    var h1 := SetRec(h, r, Disposed(h.recs[r]));
    RollbacksKeep(mig, h1, DisposeOne(h, k, r));
  }

  /** A rollback that has reopened its gates goes on, or ends. */
  lemma RollbacksKeep(mig: Migration, h: Host, h': Host)
    requires Inv(mig, h) && forall k | k in h'.rollbacks :: k in h.rollbacks
    requires forall k: nat, r: nat | Unwinding(h, k, r) && IsLive(h, r) && h.recs[r].gate.Some? :: Unwinding(h', k, r)
    requires h' == h.(rollbacks := h'.rollbacks) || h' == h.(rollbacks := h'.rollbacks, pending := None, gating := {})
    ensures Inv(mig, h')
  {
    StageKeepsRecs(h, h');
    RollbacksKeepReload(mig, h, h');
    RollbacksKeepFixpoint(h, h');
    hide RecsOk, CallsOk, CandidatesOk, MigratedOk, GatesOk, GatesOwned, FixpointOk;
  }

  lemma RollbacksKeepFixpoint(h: Host, h': Host)
    requires FixpointOk(h)
    requires h' == h.(rollbacks := h'.rollbacks) || h' == h.(rollbacks := h'.rollbacks, pending := None, gating := {})
    ensures FixpointOk(h')
  {
    assert forall r | r in h.recs :: ToDo(h', r) == ToDo(h, r);
    assert ChangedTypes(h') == ChangedTypes(h);
  }

  lemma RollbacksKeepReload(mig: Migration, h: Host, h': Host)
    requires CandidatesOk(h) && MigratedOk(mig, h) && GatesOk(h) && GatesOwned(h)
    requires forall k: nat, r: nat | Unwinding(h, k, r) && IsLive(h, r) && h.recs[r].gate.Some? :: Unwinding(h', k, r)
    requires h'.recs == h.recs && h'.reload == h.reload && h'.failed == h.failed && h'.epochs == h.epochs
    ensures CandidatesOk(h') && MigratedOk(mig, h') && GatesOk(h') && GatesOwned(h')
  {
    forall r | r in Candidates(h') ensures CandidateOk(h', r) && MigratedAt(mig, h', r) {
      assert CandidateOk(h, r) && MigratedAt(mig, h, r);
    }
    forall r | r in Gated(h') ensures GateOk(h', r) {
      assert GateOk(h, r);
    }
    forall r | !h.failed && IsLive(h', r) && h'.recs[r].gate.Some? ensures GateOwned(h', r) {
      assert GateOwned(h, r);
      if r !in Gated(h) {
        var k: nat :| Unwinding(h, k, r);
        assert Unwinding(h', k, r);
      }
    }
  }

  lemma EndRollbackKeeps(mig: Migration, h: Host, k: nat)
    requires Inv(mig, h) && Legal(h, EndRollback(k))
    ensures Inv(mig, RollbackOver(h, k))
  {
    RollbacksKeep(mig, h, RollbackOver(h, k));
  }

  lemma FreeKeeps(mig: Migration, h: Host)
    requires Inv(mig, h) && Legal(h, FreeStep)
    ensures Inv(mig, Free(h))
  {
    var h' := Free(h);
    StageKeepsRecs(h, h');
    forall r | GateOwned(h, r) ensures GateOwned(h', r) {
      SameOwners(h, h', r);
    }
    NoCandidates(mig, h, h');
  }

  lemma RecordStepKeepsInv(mig: Migration, h: Host, step: Step)
    requires Inv(mig, h) && !OnReload(step) && LegalRecord(h, step)
    ensures Inv(mig, ApplyRecord(h, step))
  {
    hide Inv, Start, Finish, BeginCall, BeginListener, EndOfRoot, Retire, SetRec, Callable, Notifiable, MayEnd,
      ServiceOf;
    assert Legal(h, step);
    match step
    case Acquire(r, typeName, cell) => AcquireKeeps(mig, h, r, typeName, cell);
    case Begin(r) => BeginKeeps(mig, h, r);
    case Finalize(r) => FinalizeKeeps(mig, h, r);
    case Dispose(r) => DisposeKeeps(mig, h, r);
    case CallStep(c, r, root, epoch, local) => BeginCallKeeps(mig, h, c, r, root, epoch, local);
    case Listen(c, r, root) => BeginListenerKeeps(mig, h, c, r, root);
    case Return(c) => ReturnKeeps(mig, h, c);
    case EndRoot(root) => EndRootKeeps(mig, h, root);
    case Write(r, root, epoch, value) => WriteKeeps(mig, h, r, value);
    case TaskWrite(r, value) => WriteKeeps(mig, h, r, value);
    case RetireStep => RetireKeeps(mig, h);
  }

  lemma ReloadStepKeepsInv(mig: Migration, h: Host, step: Step)
    requires Inv(mig, h) && OnReload(step) && LegalReload(h, step)
    ensures Inv(mig, ApplyReload(mig, h, step))
  {
    hide Inv, StartReload, Load, Prepare, Block, CutAll, MigrateAll, Commit, Abort, ReopenAll, DisposeOne, RollbackOver,
      Free;
    hide NothingToDo, ToDo, IsFresh, CurrentServices;
    assert Legal(h, step);
    match step
    case BeginReload => BeginReloadKeeps(mig, h);
    case LoadStep(id, services) => LoadKeeps(mig, h, id, services);
    case PrepareStep(r, exclusive) => PrepareKeeps(mig, h, r, exclusive);
    case BlockStep => BlockKeeps(mig, h);
    case CutStep => CutKeeps(mig, h);
    case DrainStep => DrainKeeps(mig, h);
    case MigrateStep => MigrateKeeps(mig, h);
    case CommitStep => CommitKeeps(mig, h);
    case AbortStep(cancel) => AbortKeeps(mig, h, cancel);
    case ReopenStep(k) => ReopenKeeps(mig, h, k);
    case DisposeStep(k, r) => DisposeOneKeeps(mig, h, k, r);
    case EndRollback(k) => EndRollbackKeeps(mig, h, k);
    case FreeStep => FreeKeeps(mig, h);
  }

  /** Every step keeps the invariant. */
  lemma StepKeepsInv(mig: Migration, h: Host, step: Step)
    requires Inv(mig, h) && Legal(h, step)
    ensures Inv(mig, Apply(mig, h, step))
  {
    hide Inv, LegalRecord, LegalReload, ApplyRecord, ApplyReload;
    if OnReload(step) {
      ReloadStepKeepsInv(mig, h, step);
    } else {
      RecordStepKeepsInv(mig, h, step);
    }
  }
}
