/**
 * One host's hot reloads: records, their behaviors by epoch, a reload that prepares, gates, migrates and commits, and
 * the rollbacks of reloads that do not, while calls go on. Every await of the source is a step boundary.
 *
 * A rollback is not over when the next reload begins: a reload cancelled while it prepares gives up the host's reload
 * slot when its prepare settles, and its rollback goes on beside the next reload.
 */
module HotReload {
  import opened Wrappers

  // ---------------------------------------------------------------- records

  /** What a facet serves for a type: its code and the version of the state that code runs over. */
  datatype Service = Service(id: nat, stateVersion: nat)

  /** `Gone` is any status from which a record never runs again. */
  datatype Status = Activating | Live | Gone

  /**
   * `behaviors` is the code a call of an epoch runs; `leases` the roots that touched the record; `gate`, during an
   * upgrade, the roots still admitted; `tasks` the code of its running tasks; `deferred` says that its listeners and
   * tasks wait for a commit; `cell` is the value of its state.
   */
  datatype Rec = Rec(
    typeName: nat,
    status: Status,
    service: Option<Service>,
    stateVersion: nat,
    minEpoch: nat,
    behaviors: map<nat, Service>,
    leases: set<nat>,
    gate: Option<set<nat>>,
    tasks: Option<Service>,
    deferred: bool,
    cell: int)

  function NewRec(typeName: nat, cell: int): Rec {
    Rec(typeName, Activating, None, 0, 0, map[], {}, None, None, false, cell)
  }

  /** Admission of a call or write of `root` in `epoch`, one of the epochs the host retains. */
  predicate Admits(rec: Rec, root: nat, epoch: nat) {
    epoch >= rec.minEpoch && (rec.gate.Some? ==> root in rec.gate.value)
  }

  function Leased(rec: Rec, root: nat): Rec { rec.(leases := rec.leases + {root}) }

  function RootEnded(rec: Rec, root: nat): Rec {
    rec.(leases := rec.leases - {root}, gate := if rec.gate.Some? then Some(rec.gate.value - {root}) else None)
  }

  /** The last root a gate waits for. */
  predicate LastOfGate(rec: Rec, root: nat) {
    rec.gate.Some? && root in rec.gate.value && rec.gate.value - {root} == {}
  }

  /** The admission cut: only roots that hold a lease go on. It replaces whatever gate there was. */
  function Cut(rec: Rec): Rec { rec.(gate := Some(rec.leases), tasks := None) }

  function Reopened(rec: Rec): Rec {
    if rec.gate.None? then rec
    else rec.(gate := None, tasks := if rec.status.Live? then rec.service else None)
  }

  function Begun(rec: Rec, service: Service): Rec {
    rec.(service := Some(service), stateVersion := service.stateVersion)
  }

  /** Code that no current epoch serves does not run before a commit. */
  function Finished(rec: Rec, behaviors: map<nat, Service>, current: nat): Rec {
    rec.(status := Live, behaviors := behaviors, deferred := current !in behaviors,
         tasks := if current in behaviors then rec.service else None)
  }

  function Disposed(rec: Rec): Rec { rec.(status := Gone, tasks := None) }

  function Retired(rec: Rec, epoch: nat): Rec { rec.(behaviors := rec.behaviors - {epoch}) }

  /** A prepared upgrade of a record. Gated: its state version changes, or an exclusive resource is replaced. */
  datatype Candidate = Candidate(service: Service, gated: bool, migrated: Option<int>)

  /** Installs new code; a gated record drops its old code at once, for it cannot run over migrated state. */
  function Installed(rec: Rec, candidate: Candidate, epoch: nat, staged: bool): Rec {
    rec.(service := Some(candidate.service),
         stateVersion := candidate.service.stateVersion,
         minEpoch := if candidate.gated then epoch else rec.minEpoch,
         behaviors := if candidate.gated then map[epoch := candidate.service]
                      else rec.behaviors[epoch := candidate.service],
         gate := None,
         tasks := Some(candidate.service),
         deferred := rec.deferred && !staged,
         cell := if candidate.migrated.Some? then candidate.migrated.value else rec.cell)
  }

  /** A record the reload does not change runs the same code in the new epoch; a staged one starts its tasks. */
  function Carried(rec: Rec, current: nat, next: nat, staged: bool): Rec {
    var starts := staged && rec.status.Live?;
    rec.(behaviors := if current in rec.behaviors then rec.behaviors[next := rec.behaviors[current]] else rec.behaviors,
         tasks := if starts then rec.service else rec.tasks,
         deferred := rec.deferred && !starts)
  }

  // ---------------------------------------------------------------- the host

  type Services = map<nat, Service>

  /**
   * `Waiting`: for the previous epoch to retire; `Blocked`: no new records of changed types; `Draining`: gates are up;
   * `Drained`: every gate has drained; `Ready`: state is migrated into private copies, waiting for the commit.
   */
  datatype Phase = Waiting | Preparing | Blocked | Draining | Drained | Ready

  datatype Pending = Pending(id: nat, services: Services)

  /**
   * The reload that holds the slot. `aborted`: its rollback has begun; `early`: the slot is given up as soon as prepare
   * settles. `undrained` are the gated records whose gate still waits, `staged` those whose tasks the commit starts.
   */
  datatype Reload = Reload(
    no: nat,
    phase: Phase,
    aborted: bool,
    early: bool,
    next: nat,
    services: Services,
    candidates: map<nat, Candidate>,
    gated: set<nat>,
    undrained: set<nat>,
    staged: set<nat>)

  /** A rollback that runs: `todo` are the records it still looks at, once its gates are open again. */
  datatype Rollback = Rollback(gated: set<nat>, todo: Option<set<nat>>)

  /** A call in flight. `local`: its root started on this host. */
  datatype Call = Call(rec: nat, root: nat, epoch: nat, local: bool, service: Service)

  /** `gating` are the types new records are refused of; `reloads` numbers the reloads. */
  datatype Host = Host(
    epochs: map<nat, Services>,
    current: nat,
    previous: Option<nat>,
    epochSeq: nat,
    pending: Option<Pending>,
    gating: set<nat>,
    recs: map<nat, Rec>,
    calls: map<nat, Call>,
    reload: Option<Reload>,
    rollbacks: map<nat, Rollback>,
    reloads: nat,
    failed: bool)

  /** A host serving `services` in its first epoch. */
  function NewHost(services: Services): Host {
    Host(map[1 := services], 1, None, 1, None, {}, map[], map[], None, map[], 0, false)
  }

  function CurrentServices(h: Host): Services { if h.current in h.epochs then h.epochs[h.current] else map[] }

  function PendingServices(h: Host): Services { if h.pending.Some? then h.pending.value.services else map[] }

  function Candidates(h: Host): map<nat, Candidate> { if h.reload.Some? then h.reload.value.candidates else map[] }

  function Gated(h: Host): set<nat> { if h.reload.Some? then h.reload.value.gated else {} }

  /** The current code of a type; a type that only a pending epoch serves is served from there. */
  function ServiceOf(h: Host, typeName: nat): Option<Service> {
    if typeName in CurrentServices(h) then Some(CurrentServices(h)[typeName])
    else if typeName in PendingServices(h) then Some(PendingServices(h)[typeName])
    else None
  }

  /** A reload that has not been aborted, from the moment its services are known. */
  predicate Active(h: Host) { h.reload.Some? && !h.reload.value.aborted && !h.reload.value.phase.Waiting? }

  predicate InPhase(h: Host, phase: Phase) {
    h.reload.Some? && !h.reload.value.aborted && h.reload.value.phase == phase
  }

  predicate Gating(phase: Phase) { phase.Draining? || phase.Drained? || phase.Ready? }

  /** Gates are up for the commit to come. */
  predicate IsGating(h: Host) { Active(h) && Gating(h.reload.value.phase) }

  predicate HasDrained(h: Host) { InPhase(h, Drained) || InPhase(h, Ready) }

  function NewServices(h: Host): Services { if h.reload.Some? then h.reload.value.services else map[] }

  predicate Changed(h: Host, typeName: nat) {
    && typeName in NewServices(h)
    && (typeName in CurrentServices(h) ==> CurrentServices(h)[typeName] != NewServices(h)[typeName])
  }

  function ChangedTypes(h: Host): set<nat> { set t | t in NewServices(h) && Changed(h, t) }

  predicate Removed(h: Host, typeName: nat) { typeName in CurrentServices(h) && typeName !in NewServices(h) }

  predicate IsLive(h: Host, r: nat) { r in h.recs && h.recs[r].status.Live? }

  /** What `prepareAll` still has to wait for or prepare. */
  predicate ToDo(h: Host, r: nat) {
    && r in h.recs && r !in Candidates(h) && !h.recs[r].status.Gone?
    && Changed(h, h.recs[r].typeName) && h.recs[r].service != Some(NewServices(h)[h.recs[r].typeName])
  }

  predicate NothingToDo(h: Host) { forall r | r in h.recs :: !ToDo(h, r) }

  function SetRec(h: Host, r: nat, rec: Rec): Host { h.(recs := h.recs[r := rec]) }

  // ---------------------------------------------------------------- activation

  /** The epochs, retained or pending, whose services serve the type with this very service. */
  function BehaviorsFor(h: Host, typeName: nat, service: Service): map<nat, Service> {
    var retained := map e | e in h.epochs && typeName in h.epochs[e] && h.epochs[e][typeName] == service :: service;
    if typeName in PendingServices(h) && PendingServices(h)[typeName] == service
    then retained[h.pending.value.id := service]
    else retained
  }

  /** An activation takes the code of the moment; it fails if there is none. */
  function Start(h: Host, r: nat): Host
    requires r in h.recs
  {
    var service := ServiceOf(h, h.recs[r].typeName);
    SetRec(h, r, if service.Some? then Begun(h.recs[r], service.value) else Disposed(h.recs[r]))
  }

  /** The finalization of an activation; it fails if the code changed meanwhile. */
  function Finish(h: Host, r: nat): Host
    requires r in h.recs && h.recs[r].service.Some?
  {
    var rec := h.recs[r];
    var behaviors := BehaviorsFor(h, rec.typeName, rec.service.value);
    if h.current in behaviors || (h.pending.Some? && h.pending.value.id in behaviors)
    then SetRec(h, r, Finished(rec, behaviors, h.current))
    else SetRec(h, r, Disposed(rec))
  }

  // ---------------------------------------------------------------- calls and writes

  predicate Callable(h: Host, r: nat, root: nat, epoch: nat) {
    && !h.failed && IsLive(h, r) && epoch in h.epochs && Admits(h.recs[r], root, epoch)
    && epoch in h.recs[r].behaviors
  }

  function BeginCall(h: Host, c: nat, r: nat, root: nat, epoch: nat, local: bool): Host
    requires Callable(h, r, root, epoch)
  {
    h.(recs := h.recs[r := Leased(h.recs[r], root)],
       calls := h.calls[c := Call(r, root, epoch, local, h.recs[r].behaviors[epoch])])
  }

  /** A listener runs for an event as a root of its own, unless the gate queues the event. */
  predicate Notifiable(h: Host, r: nat) {
    IsLive(h, r) && h.recs[r].gate.None? && h.recs[r].service.Some? && !h.recs[r].deferred
  }

  function BeginListener(h: Host, c: nat, r: nat, root: nat): Host
    requires Notifiable(h, r)
  {
    h.(recs := h.recs[r := Leased(h.recs[r], root)],
       calls := h.calls[c := Call(r, root, h.current, true, h.recs[r].service.value)])
  }

  predicate Writable(h: Host, r: nat, root: nat, epoch: nat) {
    !h.failed && r in h.recs && epoch in h.epochs && Admits(h.recs[r], root, epoch)
  }

  /**
   * A root may end with a call in flight: a foreign root whose calls all run in epochs that were dropped (a retirement
   * deadline passed) ends with the last link that brought it.
   */
  predicate MayEnd(h: Host, root: nat) {
    forall c | c in h.calls && h.calls[c].root == root :: !h.calls[c].local && h.calls[c].epoch !in h.epochs
  }

  /** The gates that drain when the root ends. */
  function DrainedBy(h: Host, root: nat): set<nat> { set r | r in h.recs && LastOfGate(h.recs[r], root) }

  function EndOfRoot(h: Host, root: nat): Host {
    h.(recs := map r | r in h.recs :: RootEnded(h.recs[r], root),
       reload := if h.reload.Some?
         then Some(h.reload.value.(undrained := h.reload.value.undrained - DrainedBy(h, root))) else None)
  }

  // ---------------------------------------------------------------- the reload

  function StartReload(h: Host): Host {
    h.(reload := Some(Reload(h.reloads, Waiting, false, false, 0, map[], map[], {}, {}, {})), reloads := h.reloads + 1)
  }

  /** Services a facet sets up are new objects: no record runs them yet. */
  predicate IsFresh(h: Host, services: Services) {
    forall t | t in services && !(t in CurrentServices(h) && CurrentServices(h)[t] == services[t]) ::
      forall r | r in h.recs :: h.recs[r].service != Some(services[t])
  }

  function Announce(h: Host, id: nat, services: Services): Host
    requires h.reload.Some?
  {
    h.(epochSeq := id, pending := Some(Pending(id, services)),
       reload := Some(h.reload.value.(phase := Preparing, next := id, services := services)))
  }

  /**
   * Announces the epoch. A reload cancelled while it waited for retirement gets here all the same, and on to the block
   * if it has nothing to wait for; only then it notices.
   */
  function Load(h: Host, id: nat, services: Services): Host
    requires h.reload.Some?
  {
    var h1 := Announce(h, id, services);
    if h.reload.value.aborted && NothingToDo(h1) then h1.(gating := ChangedTypes(h1)) else h1
  }

  function CandidateFor(h: Host, rec: Rec, exclusive: bool): Candidate
    requires rec.typeName in NewServices(h)
  {
    var service := NewServices(h)[rec.typeName];
    Candidate(service, exclusive || service.stateVersion != rec.stateVersion, None)
  }

  function Prepare(h: Host, r: nat, exclusive: bool): Host
    requires h.reload.Some? && IsLive(h, r) && h.recs[r].typeName in NewServices(h)
  {
    h.(reload := Some(h.reload.value.(
      candidates := h.reload.value.candidates[r := CandidateFor(h, h.recs[r], exclusive)])))
  }

  function Block(h: Host): Host
    requires h.reload.Some?
  {
    h.(gating := ChangedTypes(h), reload := Some(h.reload.value.(phase := Blocked)))
  }

  predicate ToGate(h: Host, r: nat) { IsLive(h, r) && r in Candidates(h) && Candidates(h)[r].gated }

  function GateSet(h: Host): set<nat> { set r | r in h.recs && ToGate(h, r) }

  function LeasedGates(h: Host): set<nat> { set r | r in h.recs && ToGate(h, r) && h.recs[r].leases != {} }

  function CutAll(h: Host): Host
    requires h.reload.Some?
  {
    h.(recs := map r | r in h.recs :: if ToGate(h, r) then Cut(h.recs[r]) else h.recs[r],
       reload := Some(h.reload.value.(
         phase := Draining,
         gated := GateSet(h),
         undrained := LeasedGates(h))))
  }

  /** `mig` is the migration of a service, from the state version the record has. */
  type Migration = (Service, nat, int) -> int

  function Migrated(mig: Migration, rec: Rec, candidate: Candidate): Candidate {
    if candidate.gated && candidate.service.stateVersion != rec.stateVersion
    then candidate.(migrated := Some(mig(candidate.service, rec.stateVersion, rec.cell)))
    else candidate
  }

  /** The live records whose listeners and tasks wait for a commit. */
  function Deferred(h: Host): set<nat> { set r | r in h.recs && h.recs[r].status.Live? && h.recs[r].deferred }

  function MigrateAll(mig: Migration, h: Host): Host
    requires h.reload.Some?
  {
    h.(reload := Some(h.reload.value.(
         phase := Ready,
         candidates := map r | r in Candidates(h) ::
           if r in h.recs then Migrated(mig, h.recs[r], Candidates(h)[r]) else Candidates(h)[r],
         staged := Deferred(h))))
  }

  function Published(h: Host, r: nat, next: nat): Rec
    requires h.reload.Some? && r in h.recs
  {
    var staged := r in h.reload.value.staged;
    if Removed(h, h.recs[r].typeName) then Disposed(h.recs[r])
    else if r in Candidates(h) then
      if IsLive(h, r) then Installed(h.recs[r], Candidates(h)[r], next, staged) else h.recs[r]
    else Carried(h.recs[r], h.current, next, staged)
  }

  /**
   * One synchronous step: the new epoch, and every record's part in it. If nothing is pending any more (another
   * rollback cleared it) the commit throws, and the host fails.
   */
  function Commit(h: Host): Host
    requires h.reload.Some?
  {
    if h.pending.None? then h.(failed := true, reload := None)
    else
      var next := h.pending.value.id;
      h.(epochs := h.epochs[next := h.pending.value.services],
         current := next,
         previous := Some(h.current),
         pending := None,
         gating := {},
         recs := map r | r in h.recs :: Published(h, r, next),
         reload := None)
  }

  // ---------------------------------------------------------------- rollback

  /** The rollback begins: it unwinds what prepare created, which takes as long as it takes. */
  function Abort(h: Host, cancel: bool): Host
    requires h.reload.Some?
  {
    var reload := h.reload.value;
    h.(reload := Some(reload.(aborted := true, early := cancel, candidates := map[], gated := {}, undrained := {})),
       rollbacks := h.rollbacks[reload.no := Rollback(reload.gated, None)])
  }

  predicate Unserved(h: Host, r: nat) {
    r in h.recs && !h.recs[r].status.Gone? && h.recs[r].typeName !in CurrentServices(h)
  }

  function Present(h: Host): set<nat> { set r | r in h.recs && !h.recs[r].status.Gone? }

  function RollbackOver(h: Host, k: nat): Host { h.(pending := None, gating := {}, rollbacks := h.rollbacks - {k}) }

  function OpenGates(h: Host, gated: set<nat>): Host {
    h.(recs := map r | r in h.recs :: if r in gated then Reopened(h.recs[r]) else h.recs[r])
  }

  /** The gates of the reload reopen, whoever put them up; then it looks at the records there are now. */
  function ReopenAll(h: Host, k: nat): Host
    requires k in h.rollbacks
  {
    var gated := h.rollbacks[k].gated;
    var h1 := OpenGates(h, gated);
    if exists r | r in h.recs :: Unserved(h, r)
    then h1.(rollbacks := h.rollbacks[k := Rollback(gated, Some(Present(h)))])
    else RollbackOver(h1, k)
  }

  /** A record of a type that is not served loses its code; the rollback awaits its disposal. */
  function DisposeOne(h: Host, k: nat, r: nat): Host
    requires k in h.rollbacks && h.rollbacks[k].todo.Some? && r in h.recs
  {
    h.(recs := h.recs[r := Disposed(h.recs[r])],
       rollbacks := h.rollbacks[k := h.rollbacks[k].(todo := Some(h.rollbacks[k].todo.value - {r}))])
  }

  function Free(h: Host): Host { h.(reload := None) }

  /** Drops the previous epoch: its behaviors go with it. */
  function Retire(h: Host): Host
    requires h.previous.Some?
  {
    var e := h.previous.value;
    h.(previous := None, epochs := h.epochs - {e}, recs := map r | r in h.recs :: Retired(h.recs[r], e))
  }

  // ---------------------------------------------------------------- steps

  /**
   * `AbortStep(cancel)`: prepare failed, or was told to give up (by its coordinator, or because the link to it is
   * gone).
   */
  datatype Step =
    | Acquire(r: nat, typeName: nat, cell: int)
    | Begin(r: nat)
    | Finalize(r: nat)
    | Dispose(r: nat)
    | CallStep(c: nat, r: nat, root: nat, epoch: nat, local: bool)
    | Listen(c: nat, r: nat, root: nat)
    | Return(c: nat)
    | EndRoot(root: nat)
    | Write(r: nat, root: nat, epoch: nat, value: int)
    | TaskWrite(r: nat, value: int)
    | RetireStep
    | BeginReload
    | LoadStep(id: nat, services: Services)
    | PrepareStep(r: nat, exclusive: bool)
    | BlockStep
    | CutStep
    | DrainStep
    | MigrateStep
    | CommitStep
    | AbortStep(cancel: bool)
    | ReopenStep(k: nat)
    | DisposeStep(k: nat, r: nat)
    | EndRollback(k: nat)
    | FreeStep

  /** Steps of the reload and of rollbacks; the others concern records, calls and roots. */
  predicate OnReload(step: Step) {
    step.BeginReload? || step.LoadStep? || step.PrepareStep? || step.BlockStep? || step.CutStep? || step.DrainStep?
    || step.MigrateStep? || step.CommitStep? || step.AbortStep? || step.ReopenStep? || step.DisposeStep?
    || step.EndRollback? || step.FreeStep?
  }

  predicate Legal(h: Host, step: Step) { if OnReload(step) then LegalReload(h, step) else LegalRecord(h, step) }

  predicate LegalRecord(h: Host, step: Step)
    requires !OnReload(step)
  {
    match step
    case Acquire(r, typeName, _) => r !in h.recs && ServiceOf(h, typeName).Some? && typeName !in h.gating
    case Begin(r) => r in h.recs && h.recs[r].status.Activating? && h.recs[r].service.None?
    case Finalize(r) => r in h.recs && h.recs[r].status.Activating? && h.recs[r].service.Some?
    case Dispose(r) => r in h.recs
    case CallStep(c, r, root, epoch, _) => c !in h.calls && Callable(h, r, root, epoch)
    case Listen(c, r, root) => c !in h.calls && Notifiable(h, r)
    case Return(c) => c in h.calls
    case EndRoot(root) => MayEnd(h, root)
    case Write(r, root, epoch, _) => Writable(h, r, root, epoch)
    case TaskWrite(r, _) => r in h.recs && h.recs[r].tasks.Some?
    case RetireStep => h.previous.Some?
  }

  predicate LegalReload(h: Host, step: Step)
    requires OnReload(step)
  {
    match step
    case BeginReload => h.reload.None?
    case LoadStep(id, services) =>
      && h.reload.Some? && h.reload.value.phase.Waiting? && (h.reload.value.aborted ==> h.reload.value.early)
      && h.previous.None? && id > h.current && IsFresh(h, services)
    case PrepareStep(r, _) => (InPhase(h, Preparing) || InPhase(h, Blocked)) && IsLive(h, r) && ToDo(h, r)
    case BlockStep => InPhase(h, Preparing) && NothingToDo(h)
    case CutStep => InPhase(h, Blocked) && NothingToDo(h)
    case DrainStep => InPhase(h, Draining) && h.reload.value.undrained == {}
    case MigrateStep => InPhase(h, Drained)
    case CommitStep => InPhase(h, Ready)
    case AbortStep(_) => h.reload.Some? && !h.reload.value.aborted
    case ReopenStep(k) => k in h.rollbacks && h.rollbacks[k].todo.None?
    case DisposeStep(k, r) =>
      && k in h.rollbacks && h.rollbacks[k].todo.Some? && r in h.rollbacks[k].todo.value
      && r in h.recs && h.recs[r].typeName !in CurrentServices(h)
    case EndRollback(k) =>
      && k in h.rollbacks && h.rollbacks[k].todo.Some?
      && forall r | r in h.rollbacks[k].todo.value && r in h.recs :: h.recs[r].typeName in CurrentServices(h)
    case FreeStep =>
      h.reload.Some? && h.reload.value.aborted && (h.reload.value.early || h.reload.value.no !in h.rollbacks)
  }

  function Apply(mig: Migration, h: Host, step: Step): Host
    requires Legal(h, step)
  {
    if OnReload(step) then ApplyReload(mig, h, step) else ApplyRecord(h, step)
  }

  function ApplyRecord(h: Host, step: Step): Host
    requires !OnReload(step) && LegalRecord(h, step)
  {
    match step
    case Acquire(r, typeName, cell) => SetRec(h, r, NewRec(typeName, cell))
    case Begin(r) => Start(h, r)
    case Finalize(r) => Finish(h, r)
    case Dispose(r) => SetRec(h, r, Disposed(h.recs[r]))
    case CallStep(c, r, root, epoch, local) => BeginCall(h, c, r, root, epoch, local)
    case Listen(c, r, root) => BeginListener(h, c, r, root)
    case Return(c) => h.(calls := h.calls - {c})
    case EndRoot(root) => EndOfRoot(h, root)
    case Write(r, _, _, value) => SetRec(h, r, h.recs[r].(cell := value))
    case TaskWrite(r, value) => SetRec(h, r, h.recs[r].(cell := value))
    case RetireStep => Retire(h)
  }

  function ApplyReload(mig: Migration, h: Host, step: Step): Host
    requires OnReload(step) && LegalReload(h, step)
  {
    match step
    case BeginReload => StartReload(h)
    case LoadStep(id, services) => Load(h, id, services)
    case PrepareStep(r, exclusive) => Prepare(h, r, exclusive)
    case BlockStep => Block(h)
    case CutStep => CutAll(h)
    case DrainStep => h.(reload := Some(h.reload.value.(phase := Drained)))
    case MigrateStep => MigrateAll(mig, h)
    case CommitStep => Commit(h)
    case AbortStep(cancel) => Abort(h, cancel)
    case ReopenStep(k) => ReopenAll(h, k)
    case DisposeStep(k, r) => DisposeOne(h, k, r)
    case EndRollback(k) => RollbackOver(h, k)
    case FreeStep => Free(h)
  }
}
