/**
 * The child side of a cluster reload: one operation, taken from `prepare` to `commit` or `abort`.
 *
 * `ChildReloads` is the object of the source; each of its methods computes one of the functions on `Child` values
 * below, and the cluster protocol (module Cluster) is built from the same functions.
 */
module ChildReload {
  import opened Wrappers

  /** Where an operation stands: each phase ends at an `await` of the source. */
  datatype Phase =
    | Loading    // waiting for the modules (beginReload)
    | Preparing  // inside Reload.prepare
    | Failing    // prepare failed on its own, its rollback is running
    | Prepared   // voted, waiting for commit or abort

  /**
   * One prepare the child received. `link` is the connection it came over and votes on, `owns` says that it took the
   * host's reload slot, and `loaded` that it announced its epoch as pending: it holds the number of rollbacks of
   * earlier operations that were still running then.
   */
  datatype Op = Op(id: nat, epoch: nat, link: nat, phase: Phase, owns: bool, cancelled: bool, loaded: Option<nat>)

  /** One installed epoch, and the reload it came from. */
  datatype Install = Install(id: nat, epoch: nat)

  datatype Child = Child(
    epoch: nat,
    pending: Option<nat>,
    slot: bool,
    op: Option<Op>,
    /** A prepared operation was cancelled; its rollback runs and keeps the slot. */
    closing: bool,
    /** Rollbacks started by a cancellation during prepare; they do not keep the slot. */
    rolling: nat,
    failed: bool,
    upstream: Option<nat>,
    installs: seq<Install>)

  const FreshChild: Child := Child(1, None, false, None, false, 0, false, None, [])

  // ---------------------------------------------------------------- frames of the parent

  function ReceivePrepare(k: Child, link: nat, id: nat, epoch: nat): Child {
    if k.op.Some? then k
    else k.(op := Some(Op(id, epoch, link, Loading, !k.slot, false, None)), slot := true)
  }

  function Cancel(k: Child): Child
    requires k.op.Some?
  {
    var op := k.op.value;
    match op.phase
    case Prepared => k.(op := None, closing := true)
    case Preparing =>
      if op.cancelled then k else k.(op := Some(op.(cancelled := true)), rolling := k.rolling + 1)
    case _ => k.(op := Some(op.(cancelled := true)))
  }

  function ReceiveAbort(k: Child, id: nat): Child {
    if k.op.Some? && k.op.value.id == id then Cancel(k) else k
  }

  function ReceiveCommit(k: Child, id: nat): Child {
    if k.op.Some? && k.op.value.id == id && k.op.value.phase == Prepared then
      var done := k.(op := None, slot := false, pending := None);
      if k.pending.None? then done.(failed := true)
      else done.(epoch := k.pending.value, installs := k.installs + [Install(id, k.pending.value)])
    else k
  }

  function ParentLost(k: Child): Child {
    (if k.op.Some? then Cancel(k) else k).(upstream := None)
  }

  // ---------------------------------------------------------------- what the child does on its own

  /** The ends of the child's own awaits. */
  datatype Own =
    | ModulesLoaded(ok: bool)
    | EpochAnnounced
    | PrepareDone
    | PrepareFailed
    | UnwindDone
    | RollingEnds
    | ClosingEnds

  predicate CanDo(k: Child, own: Own) {
    match own
    case ModulesLoaded(_) => k.op.Some? && k.op.value.phase == Loading
    case EpochAnnounced =>
      // Reload.load refuses an epoch that is not newer than the running one. A reload cancelled while it waited for
      // retirement announces its epoch all the same.
      k.op.Some? && k.op.value.phase == Preparing && k.op.value.loaded.None? && k.op.value.epoch > k.epoch
    case PrepareDone =>
      k.op.Some? && k.op.value.phase == Preparing && k.op.value.loaded.Some? && !k.op.value.cancelled
    case PrepareFailed => k.op.Some? && k.op.value.phase == Preparing
    case UnwindDone => k.op.Some? && k.op.value.phase == Failing
    case RollingEnds => k.rolling > 0
    case ClosingEnds => k.closing
  }

  function Do(k: Child, own: Own): Child
    requires CanDo(k, own)
  {
    match own
    case ModulesLoaded(ok) =>
      if !k.op.value.owns then k.(op := None)
      else if !ok then k.(op := None, slot := false)
      else k.(op := Some(k.op.value.(phase := if k.op.value.cancelled then Failing else Preparing)))
    case EpochAnnounced =>
      k.(pending := Some(k.op.value.epoch), op := Some(k.op.value.(loaded := Some(k.rolling))))
    case PrepareDone => k.(op := Some(k.op.value.(phase := Prepared)))
    case PrepareFailed =>
      // On its own, prepare rolls back first. After a cancellation that rollback is already running, so the
      // operation ends at once and frees the slot, whether or not the rollback is done.
      if k.op.value.cancelled then k.(op := None, slot := false)
      else k.(op := Some(k.op.value.(phase := Failing)))
    case UnwindDone => k.(op := None, slot := false, pending := None)
    case RollingEnds => k.(rolling := k.rolling - 1, pending := None)
    case ClosingEnds => k.(closing := false, slot := false, pending := None)
  }

  /** The vote an own step sends: yes when prepared, no when the operation ends uncancelled. */
  function VoteOf(k: Child, own: Own): Option<bool>
    requires CanDo(k, own)
  {
    match own
    case ModulesLoaded(ok) => if (ok && k.op.value.owns) || k.op.value.cancelled then None else Some(false)
    case PrepareDone => Some(true)
    case UnwindDone => if k.op.value.cancelled then None else Some(false)
    case _ => None
  }

  /**
   * A child says yes exactly when its prepare is done, and no exactly when an operation that nobody cancelled ends on
   * its own; nothing else makes it vote.
   */
  lemma VotesSay(k: Child, own: Own)
    requires CanDo(k, own)
    ensures VoteOf(k, own) == Some(true) <==> own.PrepareDone?
    ensures VoteOf(k, own) == Some(false) <==> k.op.Some? && Do(k, own).op.None? && !k.op.value.cancelled
    ensures own.PrepareDone? <==> (k.op.Some? && k.op.value.phase != Prepared
                                   && Do(k, own).op == Some(k.op.value.(phase := Prepared)))
  {
  }

  // ---------------------------------------------------------------- the invariant of one child

  /** What every reachable child satisfies on its own. */
  predicate ChildOk(k: Child) {
    && (k.slot <==> k.closing || (k.op.Some? && k.op.value.owns))
    && (k.op.Some? ==> OpOk(k, k.op.value))
    && InstallsOk(k.installs, k.epoch)
  }

  /** The installed epochs rise strictly from the first one, 1, and end at the current epoch. */
  predicate InstallsOk(installs: seq<Install>, epoch: nat) {
    if installs == [] then epoch == 1
    else
      var last := |installs| - 1;
      installs[last].epoch == epoch &&
      exists before: nat :: before < epoch && InstallsOk(installs[..last], before)
  }

  predicate OpOk(k: Child, op: Op) {
    && (op.owns ==> k.slot && !k.closing)
    && (op.phase != Loading ==> op.owns)
    && (op.phase == Prepared ==> op.loaded.Some? && !op.cancelled)
    && (op.phase == Loading ==> op.loaded.None?)
    && (op.loaded.Some? && !op.cancelled ==>
          && op.epoch > k.epoch
          && k.rolling <= op.loaded.value
          && (op.phase != Failing ==> k.pending == if k.rolling == op.loaded.value then Some(op.epoch) else None))
    && (op.cancelled || k.upstream == Some(op.link))
  }

  /**
   * A commit of a prepared operation installs its epoch exactly when every rollback that was running when the
   * operation announced that epoch is still running; otherwise one of them cleared the pending epoch and the host
   * fails.
   */
  lemma CommitInstallsIff(k: Child, id: nat)
    requires ChildOk(k)
    requires k.op.Some? && k.op.value.id == id && k.op.value.phase == Prepared
    ensures var k' := ReceiveCommit(k, id);
            && k'.op.None? && !k'.slot
            && (k.rolling == k.op.value.loaded.value ==>
                  k'.epoch == k.op.value.epoch > k.epoch && k'.failed == k.failed &&
                  k'.installs == k.installs + [Install(id, k.op.value.epoch)])
            && (k.rolling < k.op.value.loaded.value ==>
                  k'.failed && k'.epoch == k.epoch && k'.installs == k.installs)
            && k.rolling <= k.op.value.loaded.value
  {
  }

  /**
   * The failing case is real: a prepare is cancelled (its link drops), its rollback is slow, and the next prepare,
   * over the new link, announces its epoch and votes while that rollback still runs.
   */
  function VotedOverSlowRollback(): Child {
    var first := Do(Do(ReceivePrepare(FreshChild.(upstream := Some(0)), 0, 1, 2), ModulesLoaded(true)), EpochAnnounced);
    var freed := Do(ParentLost(first), PrepareFailed);
    var second := Do(ReceivePrepare(freed.(upstream := Some(1)), 1, 2, 2), ModulesLoaded(true));
    Do(Do(second, EpochAnnounced), PrepareDone)
  }

  lemma SlowRollbackLosesTheCommit()
    ensures var k := VotedOverSlowRollback();
            && k.rolling == 1
            && ReceiveCommit(k, 2).epoch == 2 && !ReceiveCommit(k, 2).failed
            && ReceiveCommit(Do(k, RollingEnds), 2).epoch == 1 && ReceiveCommit(Do(k, RollingEnds), 2).failed
  {
  }

  lemma InstallKeepsOk(installs: seq<Install>, epoch: nat, next: Install)
    requires InstallsOk(installs, epoch) && epoch < next.epoch
    ensures InstallsOk(installs + [next], next.epoch)
  {
    assert (installs + [next])[..|installs|] == installs;
  }

  lemma {:induction false} InstallsRise(installs: seq<Install>, epoch: nat, i: nat)
    requires InstallsOk(installs, epoch) && i < |installs|
    ensures 1 < installs[i].epoch <= epoch
    ensures i + 1 < |installs| ==> installs[i].epoch < installs[i + 1].epoch
  {
    var last := |installs| - 1;
    var before: nat :| before < epoch && InstallsOk(installs[..last], before);
    if i < last {
      InstallsRise(installs[..last], before, i);
    } else {
      FirstEpoch(installs[..last], before);
    }
  }

  lemma {:induction false} FirstEpoch(installs: seq<Install>, epoch: nat)
    requires InstallsOk(installs, epoch)
    ensures 1 <= epoch
  {
    if installs != [] {
      var before: nat :| before < epoch && InstallsOk(installs[..|installs| - 1], before);
    }
  }

  lemma CommitKeepsOk(k: Child, id: nat)
    requires ChildOk(k)
    ensures ChildOk(ReceiveCommit(k, id))
  {
    if k.op.Some? && k.op.value.id == id && k.op.value.phase == Prepared && k.pending.Some? {
      InstallKeepsOk(k.installs, k.epoch, Install(id, k.pending.value));
    }
  }

  /** The frames of the parent keep the invariant; they arrive over the current upstream link only. */
  lemma FramesKeepOk(k: Child, link: nat, id: nat, epoch: nat)
    requires ChildOk(k)
    ensures k.upstream == Some(link) ==> ChildOk(ReceivePrepare(k, link, id, epoch))
    ensures ChildOk(ReceiveAbort(k, id))
    ensures ChildOk(ParentLost(k))
    ensures k.upstream.None? ==> ChildOk(k.(upstream := Some(link)))
  {
  }

  lemma OwnStepsKeepOk(k: Child, own: Own)
    requires ChildOk(k) && CanDo(k, own)
    ensures ChildOk(Do(k, own))
  {
  }

  /** What is pending belongs to the operation that announced it, or to a rollback that will clear it. */
  predicate PendingOwned(k: Child) {
    k.pending.Some? ==> (k.op.Some? && k.op.value.loaded.Some?) || k.closing || k.rolling > 0
  }

  /**
   * An epoch stays pending with nobody to commit or clear it exactly if an operation announced it after its own
   * rollback was over, and then ends; no frame of the parent does that.
   */
  lemma PendingIsOwnedIff(k: Child, own: Own, link: nat, id: nat, epoch: nat)
    requires ChildOk(k) && PendingOwned(k)
    ensures CanDo(k, own) ==>
              (PendingOwned(Do(k, own))
               <==> !(own.PrepareFailed? && k.op.value.cancelled && k.pending.Some? && k.rolling == 0))
    ensures PendingOwned(ReceivePrepare(k, link, id, epoch)) && PendingOwned(ReceiveAbort(k, id))
    ensures PendingOwned(ReceiveCommit(k, id)) && PendingOwned(ParentLost(k))
  {
  }

  /** Such an operation: cancelled while it waited, its rollback ends, and then it announces its epoch. */
  lemma PendingIsLeft()
    ensures var loading := Do(ReceivePrepare(FreshChild.(upstream := Some(0)), 0, 1, 2), ModulesLoaded(true));
            var k := Do(Do(Do(ParentLost(loading), RollingEnds), EpochAnnounced), PrepareFailed);
            k.pending == Some(2) && k.op.None? && !k.closing && k.rolling == 0 && !k.slot
  {
  }
}
