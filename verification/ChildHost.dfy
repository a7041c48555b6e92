/** The object on a child host that takes the frames of a reload, proved to take the steps of the cluster protocol. */
module ChildHost {
  import opened Wrappers
  import opened ChildReload
  import opened Cluster

  /** `ChildReloads` together with the fields of its host that it reads and writes. */
  class ChildReloads {
    var epoch: nat
    var pending: Option<nat>
    var reloading: bool
    var operation: Option<Op>
    var closing: bool
    var rolling: nat
    var failed: bool
    var upstream: Option<nat>
    ghost var installs: seq<Install>
    /** The votes sent, each with the link it went out on. */
    var sent: seq<(nat, Frame)>

    ghost function Model(): Child
      reads this
    {
      Child(epoch, pending, reloading, operation, closing, rolling, failed, upstream, installs)
    }

    constructor ()
      ensures Model() == FreshChild && sent == []
    {
      epoch, pending, reloading, operation := 1, None, false, None;
      closing, rolling, failed, upstream := false, 0, false, None;
      installs, sent := [], [];
    }

    /** A frame of the parent: a prepare is registered or refused; commit and abort concern the operation they name. */
    method Handle(link: nat, frame: Frame)
      modifies this
      ensures Model() == Handled(old(Model()), link, frame)
      ensures sent == if frame.Prepare? && old(operation).Some?
                      then old(sent) + [(link, Vote(frame.id, false))] else old(sent)
      ensures frame.Prepare? && old(operation).None? ==>
                operation == Some(Op(frame.id, frame.epoch, link, Loading, !old(reloading), false, None)) && reloading
      ensures frame.Commit? && old(operation).Some? && old(operation.value.id) == frame.id
              && old(operation.value.phase) == Prepared ==>
                && operation.None? && pending.None? && !reloading
                && (old(pending).Some? ==>
                    epoch == old(pending.value) && installs == old(installs) + [Install(frame.id, epoch)])
                && (old(pending).None? ==> failed && epoch == old(epoch) && installs == old(installs))
      ensures frame.Abort? && old(operation).Some? && old(operation.value.id) == frame.id ==>
                Cancelled(old(Model()), Model())
      ensures (if frame.Prepare? then old(operation).Some?
               else (frame.Commit? || frame.Abort?) ==>
                      old(operation).None? || old(operation.value.id) != frame.id
                      || (frame.Commit? && old(operation.value.phase) != Prepared)) ==>
                Model() == old(Model())
    {
      match frame {
        case Prepare(id, given) =>
          if operation.Some? {
            sent := sent + [(link, Vote(id, false))];
            return;
          }
          operation := Some(Op(id, given, link, Loading, !reloading, false, None));
          reloading := true;
        case Abort(id) =>
          if operation.Some? && operation.value.id == id {
            CancelOperation();
          }
        case Commit(id) =>
          if operation.None? || operation.value.id != id || operation.value.phase != Prepared {
            return;
          }
          operation := None;
          if pending.Some? {
            epoch := pending.value;
            installs := installs + [Install(id, epoch)];
          } else {
            failed := true;
          }
          pending := None;
          reloading := false;
        case _ =>
      }
    }

    /**
     * A prepared operation is over and keeps the slot while it closes; another one stays, cancelled, and if it prepares
     * its rollback begins.
     */
    static ghost predicate Cancelled(before: Child, after: Child)
      requires before.op.Some?
    {
      var op := before.op.value;
      if op.phase == Prepared then after == before.(op := None, closing := true)
      else if op.phase == Preparing && !op.cancelled then
        after == before.(op := Some(op.(cancelled := true)), rolling := before.rolling + 1)
      else after == before.(op := Some(op.(cancelled := true)))
    }

    /** Loading or preparing: the operation unwinds when it settles. Prepared: it is given up now, and rolled back. */
    method CancelOperation()
      requires operation.Some?
      modifies this
      ensures Model() == Cancel(old(Model())) && sent == old(sent)
      ensures Cancelled(old(Model()), Model())
    {
      var op := operation.value;
      if op.phase == Prepared {
        operation := None;
        closing := true;
      } else if op.phase == Preparing && !op.cancelled {
        operation := Some(op.(cancelled := true));
        rolling := rolling + 1;
      } else {
        operation := Some(op.(cancelled := true));
      }
    }

    method LoseParent()
      modifies this
      ensures Model() == ParentLost(old(Model())) && sent == old(sent)
      ensures upstream.None?
      ensures old(operation).Some? ==> Cancelled(old(Model()), Model().(upstream := old(upstream)))
      ensures old(operation).None? ==> Model() == old(Model()).(upstream := None)
    {
      if operation.Some? {
        CancelOperation();
      }
      upstream := None;
    }

    /** The next await of the operation (or of a rollback) ends. */
    method Advance(own: Own)
      requires CanDo(Model(), own)
      modifies this
      ensures Model() == Do(old(Model()), own)
      ensures own.PrepareDone? ==>
              sent == old(sent) + [(old(operation.value.link), Vote(old(operation.value.id), true))]
      ensures old(operation).Some? && operation.None? && !old(operation.value.cancelled) ==>
                sent == old(sent) + [(old(operation.value.link), Vote(old(operation.value.id), false))]
      ensures own == ModulesLoaded(true) && old(operation.value.owns) ==>
                && operation == Some(old(operation.value).(
                     phase := if old(operation.value.cancelled) then Failing else Preparing))
                && pending == old(pending) && reloading == old(reloading)
      ensures own.PrepareDone? ==> operation == Some(old(operation.value).(phase := Prepared))
      ensures own.PrepareFailed? && !old(operation.value.cancelled) ==>
                operation == Some(old(operation.value).(phase := Failing))
      ensures own.UnwindDone? || own.RollingEnds? || own.ClosingEnds? ==> pending.None?
      ensures old(operation).Some? && operation.None? && old(operation.value.owns) ==> !reloading
      ensures own.ClosingEnds? ==> !reloading && !closing && operation == old(operation)
      ensures own.RollingEnds? ==> rolling == old(rolling) - 1 && operation == old(operation)
      ensures own.EpochAnnounced? ==>
                && pending == Some(old(operation.value.epoch))
                && operation == Some(old(operation.value).(loaded := Some(rolling)))
      ensures !own.PrepareDone? && (old(operation).None? || operation.Some? || old(operation.value.cancelled)) ==>
                sent == old(sent)
    {
      match own {
        case ModulesLoaded(ok) =>
          var op := operation.value;
          if op.owns && ok {
            operation := Some(op.(phase := if op.cancelled then Failing else Preparing));
          } else {
            reloading := reloading && !op.owns;
            End();
          }
        case EpochAnnounced =>
          pending := Some(operation.value.epoch);
          operation := Some(operation.value.(loaded := Some(rolling)));
        case PrepareDone =>
          operation := Some(operation.value.(phase := Prepared));
          sent := sent + [(operation.value.link, Vote(operation.value.id, true))];
        case PrepareFailed =>
          if operation.value.cancelled {
            reloading := false;
            End();
          } else {
            operation := Some(operation.value.(phase := Failing));
          }
        case UnwindDone =>
          pending := None;
          reloading := false;
          End();
        case RollingEnds =>
          rolling := rolling - 1;
          pending := None;
        case ClosingEnds =>
          closing := false;
          reloading := false;
          pending := None;
      }
    }

    /** The operation is over without a commit; an uncancelled one votes no. */
    method End()
      requires operation.Some?
      modifies this
      ensures Model() == old(Model()).(op := None)
      ensures sent == if old(operation.value.cancelled) then old(sent)
                      else old(sent) + [(old(operation.value.link), Vote(old(operation.value.id), false))]
    {
      var op := operation.value;
      operation := None;
      if !op.cancelled {
        sent := sent + [(op.link, Vote(op.id, false))];
      }
    }
  }
}
