/**
 * Cross-host reload: a server, its child hosts, and one pair of FIFO queues per link.
 *
 * Every step ends where the source awaits. The server prepares itself and its participants, counts votes, and commits
 * or aborts; children that connect behind it are fenced and reconciled; links close on either end at any time.
 */
module Cluster {
  import opened Wrappers
  import opened ChildReload

  datatype Frame =
    | Hello(epoch: nat)             // child to server
    | Vote(id: nat, ok: bool)       // child to server
    | Prepare(id: nat, epoch: nat)  // server to child, as all below
    | Commit(id: nat)
    | Abort(id: nat)
    | Call(epoch: nat)              // a call of a root that runs in `epoch`

  /** The reconciliation loop of one link: awaiting a vote, or woken by a good one. */
  datatype Recon = Idle | Waiting(id: nat, epoch: nat) | Voted(id: nat, epoch: nat)

  /** A link to a child: the server's view of it, the two ends, and the frames in flight in both directions. */
  datatype Conn = Conn(
    child: nat,
    serverOpen: bool,
    childOpen: bool,
    synced: bool,
    peerEpoch: Option<nat>,
    /** Reloads whose vote is still awaited on this link. */
    votes: set<nat>,
    recon: Recon,
    down: seq<Frame>,
    up: seq<Frame>)

  datatype Local = Running | Ready | Broken

  /** A running cluster reload. `settled` holds the votes in so far (false: refused, late, or the link closed). */
  datatype Reload = Reload(
    epoch: nat,
    participants: set<nat>,
    /** None while the modules load; then the reload's id. */
    id: Option<nat>,
    local: Local,
    settled: map<nat, bool>)

  /**
   * `issued`, `committed`, `aborted`, `installed` and `stepped` are history: the epoch of every reload id, the
   * decisions, the epochs the server installed, and the links it told (or found) to run an epoch.
   */
  datatype Server = Server(
    epoch: nat,
    epochSeq: nat,
    reloadSeq: nat,
    reload: Option<Reload>,
    /** The reload aborted and rolls back; it keeps the slot. */
    rolling: bool,
    issued: map<nat, nat>,
    committed: set<nat>,
    aborted: set<nat>,
    installed: set<nat>,
    stepped: set<(nat, nat)>)

  datatype State = State(server: Server, children: map<nat, Child>, conns: map<nat, Conn>)

  const Init: State := State(Server(1, 1, 0, None, false, map[], {}, {}, {1}, {}), map[], map[])

  datatype Step =
    | NewChild(k: nat)
    | Connect(k: nat, c: nat)
    | CloseServer(c: nat)
    | CloseChild(c: nat)
    | StartReload
    | LoadFails
    | LoadDone
    | LocalReady
    | LocalFails(loaded: bool)
    | VoteDeadline(c: nat, id: nat)
    | CommitAll
    | AbortAll
    | RollbackDone
    | ReconResume(c: nat)
    | SendCall(c: nat, epoch: nat)
    | RecvUp(c: nat)
    | RecvDown(c: nat)
    | ChildStep(k: nat, own: Own)

  // ---------------------------------------------------------------- sending

  /** A closed end sends nothing. */
  function Push(conn: Conn, frame: Frame): Conn {
    if conn.serverOpen then conn.(down := conn.down + [frame]) else conn
  }

  /** What is sent to a closed end is lost. */
  function PushUp(conn: Conn, frame: Frame): Conn {
    if conn.childOpen && conn.serverOpen then conn.(up := conn.up + [frame]) else conn
  }

  function Broadcast(conns: map<nat, Conn>, to: set<nat>, change: Conn -> Conn): (r: map<nat, Conn>) {
    map c | c in conns :: if c in to then change(conns[c]) else conns[c]
  }

  // ---------------------------------------------------------------- the server

  predicate IsParticipant(conn: Conn) { conn.serverOpen && conn.synced }

  function Participants(conns: map<nat, Conn>): set<nat> {
    set c | c in conns && IsParticipant(conns[c])
  }

  /** Issues the next reload id for `epoch`. */
  function Issue(server: Server, epoch: nat): Server {
    server.(reloadSeq := server.reloadSeq + 1, issued := server.issued[server.reloadSeq + 1 := epoch])
  }

  function AskVote(conn: Conn, id: nat, epoch: nat): Conn {
    Push(conn.(votes := conn.votes + {id}), Prepare(id, epoch))
  }

  /** One turn of the reconciliation loop: closed, in step, or the next prepare. */
  function Reconcile(s: State, c: nat): State
    requires c in s.conns
  {
    var conn := s.conns[c];
    if !conn.serverOpen then s.(conns := s.conns[c := conn.(recon := Idle)])
    else if conn.peerEpoch == Some(s.server.epoch) then
      s.(conns := s.conns[c := conn.(recon := Idle, synced := true)])
    else
      var id := s.server.reloadSeq + 1;
      State(Issue(s.server, s.server.epoch), s.children,
            s.conns[c := AskVote(conn.(recon := Waiting(id, s.server.epoch)), id, s.server.epoch)])
  }

  /** Counts the vote of link `c` for the running reload. */
  function Count(server: Server, c: nat, ok: bool): Server
    requires server.reload.Some?
  {
    server.(reload := Some(server.reload.value.(settled := server.reload.value.settled[c := ok])))
  }

  predicate AwaitedByReload(server: Server, id: nat) {
    server.reload.Some? && server.reload.value.id == Some(id)
  }

  /** The server's end closes: awaited votes are rejected, a reconciliation gives up, nothing more arrives. */
  function Shut(s: State, c: nat): State
    requires c in s.conns
  {
    State(ShutServer(s.server, s.conns[c], c), s.children, s.conns[c := ShutConn(s.conns[c])])
  }

  function ShutConn(conn: Conn): Conn {
    conn.(serverOpen := false, votes := {}, recon := Idle, up := [])
  }

  function ShutServer(server: Server, conn: Conn, c: nat): Server {
    if server.reload.Some? && server.reload.value.id.Some? && server.reload.value.id.value in conn.votes
    then Count(server, c, false) else server
  }

  /**
   * A vote settles: for the cluster reload it is counted, for a reconciliation it wakes the loop or closes the link.
   */
  function Settle(s: State, c: nat, id: nat, ok: bool): State
    requires c in s.conns
  {
    var conn := s.conns[c];
    if id !in conn.votes then s
    else if conn.recon.Waiting? && conn.recon.id == id then
      if ok then s.(conns := s.conns[c := conn.(votes := conn.votes - {id}, recon := Voted(id, conn.recon.epoch))])
      else Shut(s, c)
    else
      State(if AwaitedByReload(s.server, id) then Count(s.server, c, ok) else s.server, s.children,
            s.conns[c := conn.(votes := conn.votes - {id})])
  }

  /** A hello: in step, ahead (refused), or behind (fenced, and reconciled from here on). */
  function Greet(s: State, c: nat, epoch: nat): State
    requires c in s.conns
  {
    if epoch == s.server.epoch then
      State(s.server.(stepped := s.server.stepped + {(c, epoch)}), s.children,
            s.conns[c := s.conns[c].(peerEpoch := Some(epoch), synced := true)])
    else if epoch > s.server.epoch then Shut(s, c)
    else Reconcile(s.(conns := s.conns[c := s.conns[c].(peerEpoch := Some(epoch))]), c)
  }

  // ---------------------------------------------------------------- links

  function ConnectLink(s: State, k: nat, c: nat): State
    requires k in s.children
  {
    State(s.server, s.children[k := s.children[k].(upstream := Some(c))],
          s.conns[c := Conn(k, true, true, false, None, {}, Idle, [], [Hello(s.children[k].epoch)])])
  }

  function CloseChildEnd(s: State, c: nat): State
    requires c in s.conns && s.conns[c].child in s.children
  {
    var k := s.conns[c].child;
    State(s.server, s.children[k := ParentLost(s.children[k])],
          s.conns[c := s.conns[c].(childOpen := false, down := [])])
  }

  function SendCallOn(s: State, c: nat, epoch: nat): State
    requires c in s.conns
  {
    s.(conns := s.conns[c := Push(s.conns[c], Call(epoch))])
  }

  // ---------------------------------------------------------------- the cluster reload

  predicate AllSettled(reload: Reload) {
    reload.id.Some? && reload.local != Running && reload.settled.Keys == reload.participants
  }

  predicate AllGood(reload: Reload) {
    reload.local == Ready && forall c :: c in reload.settled ==> reload.settled[c]
  }

  function Start(s: State): State {
    s.(server := s.server.(reload :=
      Some(Reload(s.server.epochSeq + 1, Participants(s.conns), None, Running, map[]))))
  }

  /** The modules are there: the reload gets its id, and every participant is asked to prepare. */
  function AskAll(s: State): State
    requires s.server.reload.Some?
  {
    var reload := s.server.reload.value;
    var id := s.server.reloadSeq + 1;
    State(Issue(s.server, reload.epoch).(reload := Some(reload.(id := Some(id)))), s.children,
          Broadcast(s.conns, reload.participants, (conn: Conn) => AskVote(conn, id, reload.epoch)))
  }

  function FinishLocal(server: Server, local: Local, loaded: bool): Server
    requires server.reload.Some?
  {
    server.(epochSeq := if loaded then server.reload.value.epoch else server.epochSeq,
            reload := Some(server.reload.value.(local := local)))
  }

  function TellCommit(conn: Conn, id: nat, epoch: nat): Conn {
    Push(conn, Commit(id)).(peerEpoch := Some(epoch))
  }

  function TellAbort(conn: Conn, id: nat): Conn {
    Push(conn.(votes := conn.votes - {id}), Abort(id))
  }

  /** Installed first, then the commit frames; what the new epoch starts comes after both (see SendCall). */
  function CommitReload(s: State): State
    requires s.server.reload.Some? && s.server.reload.value.id.Some?
  {
    var reload := s.server.reload.value;
    var server := s.server.(
      epoch := reload.epoch, reload := None,
      committed := s.server.committed + {reload.id.value}, installed := s.server.installed + {reload.epoch},
      stepped := s.server.stepped + set c | c in reload.participants :: (c, reload.epoch));
    State(server, s.children,
          Broadcast(s.conns, reload.participants, (conn: Conn) => TellCommit(conn, reload.id.value, reload.epoch)))
  }

  function AbortReload(s: State): State
    requires s.server.reload.Some? && s.server.reload.value.id.Some?
  {
    var reload := s.server.reload.value;
    State(s.server.(reload := None, rolling := reload.local == Ready, aborted := s.server.aborted + {reload.id.value}),
          s.children,
          Broadcast(s.conns, reload.participants, (conn: Conn) => TellAbort(conn, reload.id.value)))
  }

  // ---------------------------------------------------------------- reconciliation

  /** The awaited vote arrived: commit if the server still runs that epoch, else abort and ask again. */
  function Resume(s: State, c: nat): State
    requires c in s.conns && s.conns[c].recon.Voted?
  {
    Reconcile(if s.server.epoch == s.conns[c].recon.epoch then CommitOne(s, c) else AbortOne(s, c), c)
  }

  function CommitOne(s: State, c: nat): State
    requires c in s.conns && s.conns[c].recon.Voted?
  {
    var id := s.conns[c].recon.id;
    var epoch := s.conns[c].recon.epoch;
    State(s.server.(committed := s.server.committed + {id}, stepped := s.server.stepped + {(c, epoch)}), s.children,
          s.conns[c := TellCommit(s.conns[c].(recon := Idle), id, epoch)])
  }

  function AbortOne(s: State, c: nat): State
    requires c in s.conns && s.conns[c].recon.Voted?
  {
    var id := s.conns[c].recon.id;
    State(s.server.(aborted := s.server.aborted + {id}), s.children,
          s.conns[c := TellAbort(s.conns[c].(recon := Idle), id)])
  }

  // ---------------------------------------------------------------- receiving

  function PopUp(s: State, c: nat): State
    requires c in s.conns && s.conns[c].up != []
  {
    s.(conns := s.conns[c := s.conns[c].(up := s.conns[c].up[1..])])
  }

  function ServerReceives(s: State, c: nat): State
    requires c in s.conns && s.conns[c].up != []
  {
    match s.conns[c].up[0]
    case Hello(epoch) => Greet(PopUp(s, c), c, epoch)
    case Vote(id, ok) => Settle(PopUp(s, c), c, id, ok)
    case _ => PopUp(s, c)
  }

  /** What the child does with the frame at the head of the queue, and what it answers on the link. */
  function Handled(child: Child, c: nat, frame: Frame): Child {
    match frame
    case Prepare(id, epoch) => ReceivePrepare(child, c, id, epoch)
    case Commit(id) => ReceiveCommit(child, id)
    case Abort(id) => ReceiveAbort(child, id)
    case _ => child
  }

  function Replied(child: Child, conn: Conn, frame: Frame): Conn {
    if frame.Prepare? && child.op.Some? then PushUp(conn, Vote(frame.id, false)) else conn
  }

  function ChildReceives(s: State, c: nat): State
    requires c in s.conns && s.conns[c].down != [] && s.conns[c].child in s.children
  {
    var k := s.conns[c].child;
    var frame := s.conns[c].down[0];
    State(s.server, s.children[k := Handled(s.children[k], c, frame)],
          s.conns[c := Replied(s.children[k], s.conns[c].(down := s.conns[c].down[1..]), frame)])
  }

  function ChildActs(s: State, k: nat, own: Own): State
    requires k in s.children && CanDo(s.children[k], own)
  {
    var child := s.children[k];
    var vote := VoteOf(child, own);
    var s' := s.(children := s.children[k := Do(child, own)]);
    if vote.Some? && child.op.value.link in s.conns then
      var c := child.op.value.link;
      s'.(conns := s.conns[c := PushUp(s.conns[c], Vote(child.op.value.id, vote.value))])
    else s'
  }

  // ---------------------------------------------------------------- the step relation

  predicate LocalRunning(server: Server) {
    server.reload.Some? && server.reload.value.id.Some? && server.reload.value.local == Running
  }

  predicate Enabled(s: State, step: Step) {
    match step
    case NewChild(k) => k !in s.children
    case Connect(k, c) => k in s.children && c !in s.conns && s.children[k].upstream.None?
    case CloseServer(c) => c in s.conns && s.conns[c].serverOpen
    case CloseChild(c) => c in s.conns && s.conns[c].childOpen && s.conns[c].child in s.children
    case StartReload => s.server.reload.None? && !s.server.rolling
    case LoadFails => s.server.reload.Some? && s.server.reload.value.id.None?
    case LoadDone => s.server.reload.Some? && s.server.reload.value.id.None?
    case LocalReady => LocalRunning(s.server)
    case LocalFails(_) => LocalRunning(s.server)
    case VoteDeadline(c, id) => c in s.conns && id in s.conns[c].votes
    case CommitAll =>
      s.server.reload.Some? && AllSettled(s.server.reload.value) && AllGood(s.server.reload.value)
    case AbortAll =>
      s.server.reload.Some? && AllSettled(s.server.reload.value) && !AllGood(s.server.reload.value)
    case RollbackDone => s.server.rolling
    case ReconResume(c) => c in s.conns && s.conns[c].recon.Voted?
    case SendCall(c, epoch) => c in s.conns && s.conns[c].synced && epoch <= s.server.epoch
    case RecvUp(c) => c in s.conns && s.conns[c].serverOpen && s.conns[c].up != []
    case RecvDown(c) =>
      c in s.conns && s.conns[c].childOpen && s.conns[c].down != [] && s.conns[c].child in s.children
    case ChildStep(k, own) => k in s.children && CanDo(s.children[k], own)
  }

  function Next(s: State, step: Step): State
    requires Enabled(s, step)
  {
    match step
    case NewChild(k) => s.(children := s.children[k := FreshChild])
    case Connect(k, c) => ConnectLink(s, k, c)
    case CloseServer(c) => Shut(s, c)
    case CloseChild(c) => CloseChildEnd(s, c)
    case StartReload => Start(s)
    case LoadFails => s.(server := s.server.(reload := None))
    case LoadDone => AskAll(s)
    case LocalReady => s.(server := FinishLocal(s.server, Ready, true))
    case LocalFails(loaded) => s.(server := FinishLocal(s.server, Broken, loaded))
    case VoteDeadline(c, id) => Settle(s, c, id, false)
    case CommitAll => CommitReload(s)
    case AbortAll => AbortReload(s)
    case RollbackDone => s.(server := s.server.(rolling := false))
    case ReconResume(c) => Resume(s, c)
    case SendCall(c, epoch) => SendCallOn(s, c, epoch)
    case RecvUp(c) => ServerReceives(s, c)
    case RecvDown(c) => ChildReceives(s, c)
    case ChildStep(k, own) => ChildActs(s, k, own)
  }
}
