/**
 * A reload and its rollback as the source performs them: host and record fields changed in place, record after record.
 */
module ReloadHost {
  import opened Wrappers
  import opened HotReload

  datatype Refusal = NoRefusal | Unavailable | Superseded | UpgradeConflict

  class ReloadingHost {
    var epochs: map<nat, Services>
    var current: nat
    var previous: Option<nat>
    var epochSeq: nat
    var pending: Option<Pending>
    var gating: set<nat>
    var recs: map<nat, Rec>
    var calls: map<nat, Call>
    var reload: Option<Reload>
    var rollbacks: map<nat, Rollback>
    var reloads: nat
    var failed: bool

    ghost function Model(): Host
      reads this
    {
      Host(epochs, current, previous, epochSeq, pending, gating, recs, calls, reload, rollbacks, reloads, failed)
    }

    constructor (services: Services)
      ensures Model() == NewHost(services)
    {
      epochs, current, previous, epochSeq := map[1 := services], 1, None, 1;
      pending, gating, recs, calls, reload, rollbacks, reloads, failed := None, {}, map[], map[], None, map[], 0, false;
    }

    /** `RecordImpl.admit`, with the first reason that refuses. */
    method Admit(r: nat, root: nat, epoch: nat) returns (refusal: Refusal)
      requires r in recs
      ensures refusal.NoRefusal? <==> Writable(Model(), r, root, epoch)
      ensures refusal.Unavailable? <==> failed
      ensures refusal.Superseded? <==> !failed && epoch !in epochs
      ensures refusal.UpgradeConflict?
              <==> !failed && epoch in epochs
                   && (epoch < recs[r].minEpoch || (recs[r].gate.Some? && root !in recs[r].gate.value))
    {
      var rec := recs[r];
      if failed {
        return Unavailable;
      }
      if epoch !in epochs {
        return Superseded;
      }
      if epoch < rec.minEpoch {
        return UpgradeConflict;
      }
      if rec.gate.Some? && root !in rec.gate.value {
        return UpgradeConflict;
      }
      return NoRefusal;
    }

    /** `RecordImpl.call`: admission, the behavior of the call's epoch, a lease, the invocation. */
    method Invoke(c: nat, r: nat, root: nat, epoch: nat, local: bool) returns (ok: bool)
      requires r in recs && c !in calls
      modifies this`recs, this`calls
      ensures ok <==> Callable(old(Model()), r, root, epoch)
      ensures ok <==> var rec := old(recs)[r];
                      && !failed && rec.status.Live? && epoch in epochs && epoch >= rec.minEpoch
                      && (rec.gate.Some? ==> root in rec.gate.value) && epoch in rec.behaviors
      ensures ok ==> Model() == BeginCall(old(Model()), c, r, root, epoch, local)
      ensures ok ==> var rec := old(recs)[r];
                     && recs == old(recs)[r := rec.(leases := rec.leases + {root})]
                     && calls == old(calls)[c := Call(r, root, epoch, local, rec.behaviors[epoch])]
      ensures !ok ==> Model() == old(Model())
    {
      if !recs[r].status.Live? {
        return false;
      }
      var refusal := Admit(r, root, epoch);
      if !refusal.NoRefusal? || epoch !in recs[r].behaviors {
        return false;
      }
      var service := recs[r].behaviors[epoch];
      recs := recs[r := recs[r].(leases := recs[r].leases + {root})];
      calls := calls[c := Call(r, root, epoch, local, service)];
      return true;
    }

    method WriteCell(r: nat, root: nat, epoch: nat, value: int) returns (ok: bool)
      requires r in recs
      modifies this`recs
      ensures ok <==> Writable(old(Model()), r, root, epoch)
      ensures Model() == if ok then SetRec(old(Model()), r, old(recs)[r].(cell := value)) else old(Model())
    {
      var refusal := Admit(r, root, epoch);
      ok := refusal.NoRefusal?;
      if ok {
        recs := recs[r := recs[r].(cell := value)];
      }
    }

    /** Ends the leases of a root; a gate that waited for this root only has drained. */
    method EndRootHere(root: nat)
      modifies this`recs, this`reload
      ensures Model() == EndOfRoot(old(Model()), root)
      ensures recs.Keys == old(recs).Keys
      ensures forall r | r in recs :: var rec := old(recs)[r];
                && recs[r] == rec.(leases := rec.leases - {root}, gate := recs[r].gate)
                && recs[r].gate == if rec.gate.Some? then Some(rec.gate.value - {root}) else None
      ensures reload.Some? <==> old(reload).Some?
      ensures reload.Some? ==>
                && reload.value == old(reload).value.(undrained := reload.value.undrained)
                && (forall r :: r in reload.value.undrained
                                <==> r in old(reload).value.undrained
                                     && !(r in recs && old(recs)[r].gate.Some? && root in old(recs)[r].gate.value
                                          && recs[r].gate == Some({})))
    {
      var todo, done, drained := recs.Keys, map[], {};
      while todo != {}
        invariant todo <= recs.Keys && done == map r | r in recs && r !in todo :: RootEnded(recs[r], root)
        invariant forall r :: r in drained <==> r in recs && r !in todo && LastOfGate(recs[r], root)
        decreases todo
      {
        var r :| r in todo;
        todo := todo - {r};
        var rec := recs[r];
        rec := rec.(leases := rec.leases - {root});
        if rec.gate.Some? {
          var left := rec.gate.value - {root};
          if root in rec.gate.value && left == {} {
            drained := drained + {r};
          }
          rec := rec.(gate := Some(left));
        }
        done := done[r := rec];
      }
      recs := done;
      if reload.Some? {
        reload := Some(reload.value.(undrained := reload.value.undrained - drained));
      }
      assert drained == DrainedBy(old(Model()), root);
    }

    /** `prepareAll`, once: prepares every record there is to do. `exclusive` says which replace a resource. */
    method PrepareRecords(exclusive: set<nat>)
      requires reload.Some?
      modifies this`reload
      ensures reload.Some? && reload.value == old(reload).value.(candidates := reload.value.candidates)
      ensures var candidates, before := reload.value.candidates, old(reload).value.candidates;
              && (forall r :: r in candidates <==> r in before || (ToDo(old(Model()), r) && IsLive(old(Model()), r)))
              && (forall r | r in before :: candidates[r] == before[r])
              && (forall r | r in candidates && r !in before ::
                    && r in recs && recs[r].typeName in NewServices(old(Model()))
                    && candidates[r].service == NewServices(old(Model()))[recs[r].typeName]
                    && (candidates[r].gated
                        <==> r in exclusive || candidates[r].service.stateVersion != recs[r].stateVersion)
                    && candidates[r].migrated.None?)
      ensures (forall r | r in recs :: !recs[r].status.Activating?) ==> NothingToDo(Model())
    {
      ghost var h := Model();
      var todo := set r | r in recs && recs[r].status.Live? && IsToDo(r);
      assert forall r :: r in todo <==> ToDo(h, r) && IsLive(h, r);
      var candidates := PrepareEach(todo, exclusive);
      reload := Some(reload.value.(candidates := candidates));
      AllPrepared(h, Model());
    }

    method PrepareEach(all: set<nat>, exclusive: set<nat>) returns (candidates: map<nat, Candidate>)
      requires reload.Some? && forall r | r in all :: ToDo(Model(), r)
      ensures candidates.Keys == Candidates(Model()).Keys + all
      ensures forall r | r in Candidates(Model()) :: candidates[r] == Candidates(Model())[r]
      ensures forall r | r in all ::
                ToDo(Model(), r)
                  && IsCandidate(candidates[r], reload.value.services[recs[r].typeName], recs[r], r in exclusive)
    {
      candidates := reload.value.candidates;
      var todo := all;
      while todo != {}
        invariant todo <= all && candidates.Keys == Candidates(Model()).Keys + (all - todo)
        invariant forall r | r in Candidates(Model()) :: candidates[r] == Candidates(Model())[r]
        invariant forall r | r in all - todo ::
                    ToDo(Model(), r)
                      && IsCandidate(candidates[r], reload.value.services[recs[r].typeName], recs[r], r in exclusive)
        decreases todo
      {
        var r :| r in todo;
        todo := todo - {r};
        assert ToDo(Model(), r);
        var service := reload.value.services[recs[r].typeName];
        var bumped := service.stateVersion != recs[r].stateVersion;
        candidates := candidates[r := Candidate(service, r in exclusive || bumped, None)];
      }
    }

    /**
     * A candidate with new code for the record; gated exactly if the state's version or an exclusive resource changes.
     */
    static predicate IsCandidate(candidate: Candidate, service: Service, rec: Rec, exclusive: bool) {
      && candidate.service == service && candidate.migrated.None?
      && (candidate.gated <==> exclusive || service.stateVersion != rec.stateVersion)
    }

    static lemma AllPrepared(h: Host, h': Host)
      requires h.reload.Some? && h' == h.(reload := Some(h.reload.value.(candidates := Candidates(h'))))
      requires forall r :: r in Candidates(h') <==> r in Candidates(h) || (ToDo(h, r) && IsLive(h, r))
      ensures (forall r | r in h.recs :: !h.recs[r].status.Activating?) ==> NothingToDo(h')
    {
      assert forall r :: ToDo(h', r) ==> ToDo(h, r);
    }

    predicate IsToDo(r: nat)
      requires r in recs
      reads this
    {
      ToDo(Host(epochs, current, previous, epochSeq, pending, gating, recs, calls, reload, rollbacks, reloads, failed),
           r)
    }

    /** The admission cut of `gate`: whatever gate a record had is replaced. */
    method CutGates()
      requires reload.Some?
      modifies this`recs, this`reload
      ensures Model() == CutAll(old(Model()))
      ensures recs.Keys == old(recs).Keys && reload.Some? && reload.value.phase.Draining?
      ensures reload.value.candidates == old(reload).value.candidates
      ensures forall r :: r in reload.value.gated
                          <==> r in recs && old(recs)[r].status.Live? && r in reload.value.candidates
                               && reload.value.candidates[r].gated
      ensures forall r :: r in reload.value.undrained <==> r in reload.value.gated && old(recs)[r].leases != {}
      ensures forall r | r in recs :: recs[r] == if r in reload.value.gated
                                                 then old(recs)[r].(gate := Some(old(recs)[r].leases), tasks := None)
                                                 else old(recs)[r]
    {
      var candidates := reload.value.candidates;
      var todo, done, gated, undrained := recs.Keys, map[], {}, {};
      while todo != {}
        invariant todo <= recs.Keys
        invariant done == map r | r in recs && r !in todo :: if ToGate(old(Model()), r) then Cut(recs[r]) else recs[r]
        invariant forall r :: r in gated <==> r in recs && r !in todo && ToGate(old(Model()), r)
        invariant forall r :: r in undrained <==> r in gated && recs[r].leases != {}
        decreases todo
      {
        var r :| r in todo;
        todo := todo - {r};
        var rec := recs[r];
        if r in candidates && candidates[r].gated && rec.status.Live? {
          gated := gated + {r};
          if rec.leases != {} {
            undrained := undrained + {r};
          }
          rec := rec.(gate := Some(rec.leases), tasks := None);
        }
        done := done[r := rec];
      }
      assert gated == GateSet(old(Model())) && undrained == LeasedGates(old(Model()));
      recs := done;
      reload := Some(reload.value.(phase := Draining, gated := gated, undrained := undrained));
    }

    method MigrateStates(mig: Migration)
      requires reload.Some?
      modifies this`reload
      ensures Model() == MigrateAll(mig, old(Model()))
      ensures var before, now := old(reload).value.candidates, reload.value.candidates;
              && reload.value.phase.Ready? && now.Keys == before.Keys
              && (forall r | r in now ::
                    now[r] == before[r].(migrated := if r in recs && before[r].gated
                                                        && before[r].service.stateVersion != recs[r].stateVersion
                                           then Some(mig(before[r].service, recs[r].stateVersion, recs[r].cell))
                                           else before[r].migrated))
              && (forall r :: r in reload.value.staged <==> r in recs && recs[r].status.Live? && recs[r].deferred)
    {
      var candidates := reload.value.candidates;
      var todo, done := candidates.Keys, map[];
      while todo != {}
        invariant todo <= candidates.Keys
        invariant done == map r | r in candidates && r !in todo ::
                            if r in recs then Migrated(mig, recs[r], candidates[r]) else candidates[r]
        decreases todo
      {
        var r :| r in todo;
        todo := todo - {r};
        var candidate := candidates[r];
        if r in recs && candidate.gated && candidate.service.stateVersion != recs[r].stateVersion {
          candidate := candidate.(migrated := Some(mig(candidate.service, recs[r].stateVersion, recs[r].cell)));
        }
        done := done[r := candidate];
      }
      var staged := set r | r in recs && recs[r].status.Live? && recs[r].deferred;
      assert staged == Deferred(old(Model()));
      assert done == MigrateAll(mig, old(Model())).reload.value.candidates;
      reload := Some(reload.value.(phase := Ready, candidates := done, staged := staged));
    }

    /** It runs the candidate's code, over the migrated state if there is one; gated, it answers no older epoch. */
    static ghost predicate Upgraded(was: Rec, candidate: Candidate, next: nat, rec: Rec) {
      && rec == was.(service := Some(candidate.service), stateVersion := candidate.service.stateVersion,
                     minEpoch := rec.minEpoch, behaviors := rec.behaviors, gate := None,
                     tasks := Some(candidate.service), deferred := rec.deferred, cell := rec.cell)
      && rec.minEpoch == (if candidate.gated then next else was.minEpoch)
      && next in rec.behaviors && rec.behaviors[next] == candidate.service
      && (forall e :: e in rec.behaviors && e != next
                      <==> !candidate.gated && e in was.behaviors && e != next)
      && (forall e | e in rec.behaviors && e != next :: e in was.behaviors && rec.behaviors[e] == was.behaviors[e])
      && rec.cell == (if candidate.migrated.Some? then candidate.migrated.value else was.cell)
    }

    /** Its code of the current epoch serves the next one too; one whose tasks waited for the commit starts them. */
    ghost predicate CarriedOver(was: Rec, next: nat, starts: bool, rec: Rec)
      reads this
    {
      && rec == was.(behaviors := rec.behaviors, tasks := rec.tasks, deferred := was.deferred && !starts)
      && rec.behaviors
         == (if current in was.behaviors then was.behaviors[next := was.behaviors[current]] else was.behaviors)
      && rec.tasks == (if starts then was.service else was.tasks)
    }

    /** One record's part in the commit. */
    method InstallOne(r: nat, next: nat) returns (rec: Rec)
      requires r in recs && reload.Some?
      ensures rec == Published(Model(), r, next)
      ensures var was, candidates := recs[r], reload.value.candidates;
              var removed := current in epochs && was.typeName in epochs[current]
                             && was.typeName !in reload.value.services;
              && (removed ==> rec == was.(status := Gone, tasks := None))
              && (!removed && r in candidates && !was.status.Live? ==> rec == was)
              && (!removed && r in candidates && was.status.Live? ==> Upgraded(was, candidates[r], next, rec))
              && (!removed && r !in candidates ==>
                    CarriedOver(was, next, was.status.Live? && r in reload.value.staged, rec))
              && (!removed && was.status.Live? ==> (rec.deferred <==> was.deferred && r !in reload.value.staged))
    {
      rec := recs[r];
      var staged := r in reload.value.staged;
      var served := current in epochs && rec.typeName in epochs[current];
      if served && rec.typeName !in reload.value.services {
        rec := rec.(status := Gone, tasks := None);
      } else if r in reload.value.candidates {
        var candidate := reload.value.candidates[r];
        if rec.status.Live? {
          rec := rec.(service := Some(candidate.service), stateVersion := candidate.service.stateVersion,
                      behaviors := rec.behaviors[next := candidate.service], deferred := rec.deferred && !staged);
          if candidate.gated {
            var kept := DropOldCode(rec.behaviors, next);
            rec := rec.(minEpoch := next, behaviors := kept);
          }
          if candidate.migrated.Some? {
            rec := rec.(cell := candidate.migrated.value);
          }
          rec := rec.(gate := None, tasks := Some(candidate.service));
        }
      } else {
        if current in rec.behaviors {
          rec := rec.(behaviors := rec.behaviors[next := rec.behaviors[current]]);
        }
        if staged && rec.status.Live? {
          rec := rec.(deferred := false, tasks := rec.service);
        }
      }
    }

    static method DropOldCode(behaviors: map<nat, Service>, epoch: nat) returns (kept: map<nat, Service>)
      requires epoch in behaviors
      ensures kept == map[epoch := behaviors[epoch]]
    {
      var others := behaviors.Keys - {epoch};
      kept := behaviors;
      while others != {}
        invariant others <= behaviors.Keys - {epoch}
        invariant kept.Keys == {epoch} + others && forall e | e in kept :: kept[e] == behaviors[e]
        decreases others
      {
        var e :| e in others;
        others := others - {e};
        kept := kept - {e};
      }
    }

    /** The synchronous publication of the new epoch; it throws, and the host fails, if nothing is pending. */
    method CommitReload()
      requires reload.Some?
      modifies this
      ensures Model() == Commit(old(Model()))
      ensures reload.None? && pending.None?
      ensures old(pending).None? ==> failed && current == old(current) && epochs == old(epochs) && recs == old(recs)
      ensures old(pending).Some? ==>
                && current == old(pending).value.id && previous == Some(old(current)) && gating == {}
                && epochs == old(epochs)[current := old(pending).value.services] && failed == old(failed)
                && recs.Keys == old(recs).Keys
    {
      if pending.None? {
        failed, reload := true, None;
        return;
      }
      var next := pending.value.id;
      var done := PublishRecords(next);
      epochs := epochs[next := pending.value.services];
      previous, current := Some(current), next;
      pending, gating, recs, reload := None, {}, done, None;
    }

    method PublishRecords(next: nat) returns (done: map<nat, Rec>)
      requires reload.Some?
      ensures done == map r | r in recs :: Published(Model(), r, next)
    {
      var todo := recs.Keys;
      done := map[];
      while todo != {}
        invariant todo <= recs.Keys && done == map r | r in recs && r !in todo :: Published(Model(), r, next)
        decreases todo
      {
        var r :| r in todo;
        todo := todo - {r};
        var rec := InstallOne(r, next);
        done := done[r := rec];
      }
    }

    /** The second half of a rollback, up to its first await: gates, tasks, and whether there are records to dispose. */
    method ReopenGates(k: nat)
      requires k in rollbacks
      modifies this`recs, this`rollbacks, this`pending, this`gating
      ensures Model() == ReopenAll(old(Model()), k)
      ensures recs.Keys == old(recs).Keys
      ensures forall r | r in recs :: var rec := old(recs)[r];
                recs[r] == if r in old(rollbacks)[k].gated && rec.gate.Some?
                           then rec.(gate := None, tasks := if rec.status.Live? then rec.service else None) else rec
      ensures var served := if current in epochs then epochs[current].Keys else {};
              if exists r | r in recs :: !recs[r].status.Gone? && recs[r].typeName !in served
              then k in rollbacks && rollbacks[k].todo.Some? && pending == old(pending) && gating == old(gating)
                   && forall r :: r in rollbacks[k].todo.value <==> r in recs && !recs[r].status.Gone?
              else k !in rollbacks && pending.None? && gating == {}
    {
      OpenEach(rollbacks[k].gated);
      LookAtRecords(k, old(Model()));
    }

    /** With its gates open, the rollback looks at the records there are. */
    method LookAtRecords(k: nat, ghost h: Host)
      requires k in rollbacks && Model() == h.(recs := recs) && recs == OpenGates(h, rollbacks[k].gated).recs
      modifies this`rollbacks, this`pending, this`gating
      ensures Model() == ReopenAll(h, k)
      ensures var served := if current in epochs then epochs[current].Keys else {};
              if exists r | r in recs :: !recs[r].status.Gone? && recs[r].typeName !in served
              then k in rollbacks && rollbacks[k].todo.Some? && pending == old(pending) && gating == old(gating)
                   && forall r :: r in rollbacks[k].todo.value <==> r in recs && !recs[r].status.Gone?
              else k !in rollbacks && pending.None? && gating == {}
    {
      var present, unserved := FindRecords();
      OpenedIs(h, recs, k, present, unserved);
      hide ReopenAll, OpenGates, Unserved, CurrentServices;
      if unserved != {} {
        rollbacks := rollbacks[k := Rollback(rollbacks[k].gated, Some(present))];
      } else {
        EndOfRollback(k);
      }
    }

    /** The records there are, and those among them of a type that is not served. */
    method FindRecords() returns (present: set<nat>, unserved: set<nat>)
      ensures forall r :: r in present <==> r in recs && !recs[r].status.Gone?
      ensures forall r :: r in unserved <==> r in present && recs[r].typeName !in CurrentServices(Model())
      ensures var served := if current in epochs then epochs[current].Keys else {};
              unserved == {} <==> !exists r | r in recs :: !recs[r].status.Gone? && recs[r].typeName !in served
    {
      var served := if current in epochs then epochs[current] else map[];
      present := set r | r in recs && !recs[r].status.Gone?;
      unserved := set r | r in present && recs[r].typeName !in served;
      assert forall r | r in recs && !recs[r].status.Gone? && recs[r].typeName !in served :: r in unserved;
    }

    method OpenEach(gated: set<nat>)
      modifies this`recs
      ensures recs == OpenGates(old(Model()), gated).recs && recs.Keys == old(recs).Keys
      ensures forall r | r in recs :: var rec := old(recs)[r];
                recs[r] == if r in gated && rec.gate.Some?
                           then rec.(gate := None, tasks := if rec.status.Live? then rec.service else None) else rec
    {
      var todo, done := gated, recs;
      while todo != {}
        invariant todo <= gated
        invariant done == map r | r in recs :: if r in gated - todo then Reopened(recs[r]) else recs[r]
        decreases todo
      {
        var r :| r in todo;
        todo := todo - {r};
        if r in done && done[r].gate.Some? {
          var rec := done[r].(gate := None);
          rec := rec.(tasks := if rec.status.Live? then rec.service else None);
          done := done[r := rec];
        }
      }
      recs := done;
    }

    static lemma OpenedIs(h: Host, recs: map<nat, Rec>, k: nat, present: set<nat>, unserved: set<nat>)
      requires k in h.rollbacks && recs == OpenGates(h, h.rollbacks[k].gated).recs
      requires forall r :: r in present <==> r in recs && !recs[r].status.Gone?
      requires forall r :: r in unserved <==> r in present && recs[r].typeName !in CurrentServices(h)
      ensures unserved == {} <==> !exists r | r in h.recs :: Unserved(h, r)
      ensures unserved == {}
              <==> !exists r | r in recs :: !recs[r].status.Gone? && recs[r].typeName !in CurrentServices(h)
      ensures ReopenAll(h, k) == if unserved != {}
                                 then h.(recs := recs,
                                         rollbacks := h.rollbacks[k := Rollback(h.rollbacks[k].gated, Some(present))])
                                 else RollbackOver(h.(recs := recs), k)
    {
      assert forall r | r in recs :: Unserved(h, r) <==> r in unserved;
      assert present == Present(h);
    }

    /** The next record the rollback disposes, if there is one left of a type that is not served. */
    method DisposeNext(k: nat) returns (r: Option<nat>)
      requires k in rollbacks && rollbacks[k].todo.Some? && rollbacks[k].todo.value <= recs.Keys
      modifies this`recs, this`rollbacks, this`pending, this`gating
      ensures r.Some? ==>
              LegalReload(old(Model()), DisposeStep(k, r.value)) && Model() == DisposeOne(old(Model()), k, r.value)
      ensures r.None? ==> LegalReload(old(Model()), EndRollback(k)) && Model() == RollbackOver(old(Model()), k)
      ensures r.Some? ==>
                && r.value in old(recs)
                && recs == old(recs)[r.value := old(recs)[r.value].(status := Gone, tasks := None)]
                && k in rollbacks && rollbacks[k].todo == Some(old(rollbacks)[k].todo.value - {r.value})
      ensures r.None? ==> recs == old(recs) && k !in rollbacks && pending.None? && gating == {}
    {
      var served := if current in epochs then epochs[current] else map[];
      var unserved := set q | q in rollbacks[k].todo.value && q in recs && recs[q].typeName !in served;
      if unserved == {} {
        assert forall q | q in rollbacks[k].todo.value && q in recs :: q !in unserved;
        EndOfRollback(k);
        return None;
      }
      var q :| q in unserved;
      recs := recs[q := recs[q].(status := Gone, tasks := None)];
      rollbacks := rollbacks[k := rollbacks[k].(todo := Some(rollbacks[k].todo.value - {q}))];
      return Some(q);
    }

    method EndOfRollback(k: nat)
      modifies this`rollbacks, this`pending, this`gating
      ensures Model() == RollbackOver(old(Model()), k)
    {
      pending, gating, rollbacks := None, {}, rollbacks - {k};
    }

    method RetirePrevious()
      requires previous.Some?
      modifies this
      ensures Model() == Retire(old(Model()))
      ensures previous.None? && epochs == old(epochs) - {old(previous).value} && recs.Keys == old(recs).Keys
      ensures forall r | r in recs ::
                recs[r] == old(recs)[r].(behaviors := old(recs)[r].behaviors - {old(previous).value})
    {
      var e := previous.value;
      previous, epochs := None, epochs - {e};
      var todo, done := recs.Keys, map[];
      while todo != {}
        invariant todo <= recs.Keys && done == map r | r in recs && r !in todo :: Retired(recs[r], e)
        decreases todo
      {
        var r :| r in todo;
        todo := todo - {r};
        done := done[r := recs[r].(behaviors := recs[r].behaviors - {e})];
      }
      recs := done;
    }
  }
}
