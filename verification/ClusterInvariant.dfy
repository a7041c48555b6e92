/** The invariant of the cluster protocol, and the proof that every step keeps it. */
module ClusterInvariant {
  import opened Wrappers
  import opened ChildReload
  import opened Cluster

  // ---------------------------------------------------------------- the server alone

  ghost predicate Decided(server: Server, id: nat) { id in server.committed || id in server.aborted }

  ghost predicate ServerOk(server: Server) {
    && server.epoch <= server.epochSeq
    && server.epoch in server.installed
    && (forall e :: e in server.installed ==> e <= server.epoch)
    && (forall id :: id in server.issued ==> id <= server.reloadSeq)
    && (forall id :: id in server.committed ==>
          id in server.issued && id !in server.aborted && server.issued[id] in server.installed)
    && (forall id :: id in server.aborted ==> id in server.issued)
    && (server.reload.Some? ==> ReloadOk(server, server.reload.value))
  }

  ghost predicate ReloadOk(server: Server, reload: Reload) {
    && server.epoch < reload.epoch
    && (reload.local == Ready ==> reload.epoch <= server.epochSeq)
    && reload.settled.Keys <= reload.participants
    && (reload.id.None? ==> reload.settled == map[])
    && (reload.id.Some? ==>
          && reload.id.value in server.issued
          && server.issued[reload.id.value] == reload.epoch
          && !Decided(server, reload.id.value))
  }

  // ---------------------------------------------------------------- one link

  /** What the running reload is to link `c`: its id, and the link's vote if it is in. */
  datatype View = NotAsked | Asked(id: nat) | Answered(id: nat, ok: bool)

  function ViewOf(server: Server, c: nat): View {
    if server.reload.None? || server.reload.value.id.None? || c !in server.reload.value.participants then NotAsked
    else if c !in server.reload.value.settled then Asked(server.reload.value.id.value)
    else Answered(server.reload.value.id.value, server.reload.value.settled[c])
  }

  ghost predicate NoControl(frames: seq<Frame>) { forall i :: 0 <= i < |frames| ==> frames[i].Call? }

  /** The child prepared reload `id` on link `c`, voted yes, and waits for the decision. */
  ghost predicate Awaits(child: Child, c: nat, id: nat) {
    child.op.Some? && child.op.value.id == id && child.op.value.link == c && child.op.value.phase == Prepared
  }

  /** Every frame in flight agrees with the history of the server. */
  ghost predicate FramesOk(server: Server, conn: Conn) {
    && (forall f :: f in conn.down ==> match f
          case Prepare(id, epoch) => id in server.issued && server.issued[id] == epoch
          case Commit(id) => id in server.committed
          case Abort(id) => id in server.aborted
          case Call(epoch) => epoch <= server.epoch && conn.synced
          case _ => false)
    && (forall f :: f in conn.up ==> match f
          case Hello(_) =>
            conn.peerEpoch.None? && conn.votes == {} && conn.recon == Idle && !conn.synced && conn.down == []
          case Vote(id, _) => id in server.issued
          case _ => false)
    && (forall i :: 0 < i < |conn.up| ==> !conn.up[i].Hello?)
  }

  /** Which votes are awaited, and by whom. */
  ghost predicate VotesOk(server: Server, conn: Conn, c: nat) {
    && (conn.serverOpen || (conn.recon == Idle && conn.up == []))
    && (conn.synced ==> conn.recon == Idle && conn.peerEpoch.Some?)
    && (conn.recon == Idle || conn.peerEpoch.Some?)
    && (conn.synced || server.reload.None? || c !in server.reload.value.participants)
    && (match conn.recon
        case Idle =>
          (match ViewOf(server, c)
           case Asked(id) => conn.votes == {id}
           case _ => conn.votes == {})
        case Waiting(id, epoch) =>
          conn.votes == {id} && id in server.issued && server.issued[id] == epoch && epoch <= server.epoch
        case Voted(id, epoch) =>
          conn.votes == {} && id in server.issued && server.issued[id] == epoch && epoch <= server.epoch)
    && (conn.peerEpoch.Some? ==> conn.peerEpoch.value <= server.epoch)
  }

  /** While the server may still commit `id` on this link, the child is ready for it and nothing overtakes it. */
  ghost predicate AlignOk(server: Server, child: Child, conn: Conn, c: nat) {
    conn.childOpen ==>
      && (forall id, j :: id in conn.votes && 0 <= j < |conn.down| && conn.down[j].Prepare? && conn.down[j].id == id ==>
            NoControl(conn.down[j + 1..]))
      && (forall id :: id in conn.votes && child.op.Some? && child.op.value.link == c && child.op.value.id == id ==>
            NoControl(conn.down))
      && (forall id :: id in conn.votes && Vote(id, true) in conn.up ==> Awaits(child, c, id) && NoControl(conn.down))
      && (conn.recon.Voted? ==> Awaits(child, c, conn.recon.id) && NoControl(conn.down))
      && (ViewOf(server, c).Answered? && ViewOf(server, c).ok ==>
            Awaits(child, c, ViewOf(server, c).id) && NoControl(conn.down))
      && (forall n :: 0 <= n < |conn.down| && conn.down[n].Commit? ==>
            Awaits(child, c, conn.down[n].id) && NoControl(conn.down[..n]))
  }

  /** The epoch the server believes the child runs is the one it runs once the commit in flight is processed. */
  ghost predicate PeerOk(server: Server, child: Child, conn: Conn) {
    && (conn.childOpen ==> forall f :: f in conn.up && f.Hello? ==> f.epoch == child.epoch)
    && (conn.childOpen && conn.serverOpen && conn.peerEpoch.Some? && !child.failed ==>
          && (forall f :: f in conn.down && f.Commit? ==>
                f.id in server.issued && server.issued[f.id] == conn.peerEpoch.value)
          && ((forall f :: f in conn.down ==> !f.Commit?) ==> child.epoch == conn.peerEpoch.value))
  }

  /**
   * A call of epoch `e` on a link told to run `e` finds the child in `e`, or behind the commit that brings it there.
   */
  ghost predicate CallsOk(server: Server, child: Child, conn: Conn, c: nat) {
    && (forall e :: (c, e) in server.stepped ==> conn.peerEpoch.Some? && e <= conn.peerEpoch.value)
    && (conn.childOpen && !child.failed ==>
          forall n :: 0 <= n < |conn.down| && conn.down[n].Call? && (c, conn.down[n].epoch) in server.stepped ==>
            child.epoch >= conn.down[n].epoch || CommitBefore(server, conn.down, n, conn.down[n].epoch))
  }

  ghost predicate CommitBefore(server: Server, frames: seq<Frame>, n: nat, epoch: nat)
    requires n <= |frames|
  {
    exists m :: 0 <= m < n && frames[m].Commit? && frames[m].id in server.issued && server.issued[frames[m].id] >= epoch
  }

  ghost predicate ConnOk(server: Server, child: Child, conn: Conn, c: nat) {
    && (conn.childOpen <==> child.upstream == Some(c))
    && FramesOk(server, conn)
    && VotesOk(server, conn, c)
    && AlignOk(server, child, conn, c)
    && PeerOk(server, child, conn)
    && CallsOk(server, child, conn, c)
  }

  // ---------------------------------------------------------------- the whole cluster

  ghost predicate ChildLinked(s: State, k: nat)
    requires k in s.children
  {
    var child := s.children[k];
    && ChildOk(child)
    && child.epoch in s.server.installed
    && (child.upstream.Some? ==> child.upstream.value in s.conns && s.conns[child.upstream.value].child == k)
    && (child.op.Some? ==>
          && child.op.value.id in s.server.issued
          && s.server.issued[child.op.value.id] == child.op.value.epoch
          && child.op.value.link in s.conns && s.conns[child.op.value.link].child == k)
    && (forall install :: install in child.installs ==>
          install.id in s.server.committed && install.id in s.server.issued
            && s.server.issued[install.id] == install.epoch)
  }

  function OpenId(conn: Conn): Option<nat> {
    match conn.recon
    case Idle => None
    case Waiting(id, _) => Some(id)
    case Voted(id, _) => Some(id)
  }

  /** The undecided ids: each belongs to one reconciliation or to the running reload. */
  ghost predicate OpenIdsOk(s: State) {
    && (forall c :: c in s.conns && OpenId(s.conns[c]).Some? ==>
          && OpenId(s.conns[c]).value in s.server.issued
          && !Decided(s.server, OpenId(s.conns[c]).value)
          && (s.server.reload.Some? ==> s.server.reload.value.id != OpenId(s.conns[c])))
    && (forall c, d :: c in s.conns && d in s.conns && c != d && OpenId(s.conns[c]).Some? ==>
          OpenId(s.conns[c]) != OpenId(s.conns[d]))
  }

  ghost predicate ConnsOk(s: State) {
    forall c :: c in s.conns ==>
      s.conns[c].child in s.children && ConnOk(s.server, s.children[s.conns[c].child], s.conns[c], c)
  }

  ghost predicate ChildrenOk(s: State) { forall k :: k in s.children ==> ChildLinked(s, k) }

  ghost predicate ParticipantsOk(s: State) {
    && (s.server.reload.Some? ==>
          forall c :: c in s.server.reload.value.participants ==> c in s.conns && s.conns[c].synced)
    && (forall p :: p in s.server.stepped ==> p.0 in s.conns)
  }

  ghost predicate Inv(s: State) {
    ServerOk(s.server) && ConnsOk(s) && ChildrenOk(s) && OpenIdsOk(s) && ParticipantsOk(s)
  }

  // ---------------------------------------------------------------- what leaves a link alone

  ghost predicate HistoryGrows(server: Server, server': Server) {
    && (forall id :: id in server.issued ==> id in server'.issued && server'.issued[id] == server.issued[id])
    && server.committed <= server'.committed && server.aborted <= server'.aborted
    && server.installed <= server'.installed
    && server.epoch <= server'.epoch
  }

  /** The history grows and link `c` is not concerned. */
  ghost predicate Passes(server: Server, server': Server, c: nat) {
    && HistoryGrows(server, server')
    && ViewOf(server', c) == ViewOf(server, c)
    && (forall e :: (c, e) in server'.stepped <==> (c, e) in server.stepped)
  }

  lemma ConnStays(server: Server, server': Server, child: Child, conn: Conn, c: nat)
    requires ConnOk(server, child, conn, c) && Passes(server, server', c)
    requires conn.synced || server'.reload.None? || c !in server'.reload.value.participants
    ensures ConnOk(server', child, conn, c)
  {
    forall n | 0 <= n < |conn.down| && conn.down[n].Call? && CommitBefore(server, conn.down, n, conn.down[n].epoch)
      ensures CommitBefore(server', conn.down, n, conn.down[n].epoch)
    {
      var m :| 0 <= m < n && conn.down[m].Commit? && conn.down[m].id in server.issued &&
        server.issued[conn.down[m].id] >= conn.down[n].epoch;
    }
  }

  /** A step of the child that neither installs nor leaves a prepared operation. */
  ghost predicate Continues(child: Child, child': Child) {
    && child'.upstream == child.upstream && child'.epoch == child.epoch && child'.failed == child.failed
    && (child'.op.Some? ==>
          child.op.Some? && child'.op.value.id == child.op.value.id && child'.op.value.link == child.op.value.link)
    && (child.op.Some? && child.op.value.phase == Prepared ==> child'.op == child.op)
  }

  lemma ChildContinues(server: Server, child: Child, child': Child, conn: Conn, c: nat)
    requires ConnOk(server, child, conn, c) && Continues(child, child')
    ensures ConnOk(server, child', conn, c)
  {
  }

  /** A link the child has closed does not depend on the child any more. */
  lemma ClosedEnd(server: Server, child: Child, child': Child, conn: Conn, c: nat)
    requires ConnOk(server, child, conn, c) && !conn.childOpen && child'.upstream != Some(c)
    ensures ConnOk(server, child', conn, c)
  {
  }

  lemma ChildStays(s: State, s': State, k: nat)
    requires k in s.children && k in s'.children && s'.children[k] == s.children[k] && ChildLinked(s, k)
    requires HistoryGrows(s.server, s'.server)
    requires forall d :: d in s.conns ==> d in s'.conns && s'.conns[d].child == s.conns[d].child
    ensures ChildLinked(s', k)
  {
  }

  /** Everything a step on link `c`, to the child it leads to, and to the server has to keep. */
  ghost predicate TouchesOnly(s: State, s': State, c: nat) {
    && c in s.conns && s.conns[c].child in s.children
    && s'.conns.Keys == s.conns.Keys + {c}
    && (forall d :: d in s.conns && d != c ==> s'.conns[d] == s.conns[d])
    && s'.conns[c].child == s.conns[c].child
    && s'.children.Keys == s.children.Keys
    && (forall k :: k in s.children && k != s.conns[c].child ==> s'.children[k] == s.children[k])
    && (s'.children[s.conns[c].child] == s.children[s.conns[c].child] ||
          (s.conns[c].childOpen && s'.children[s.conns[c].child].upstream in {None, Some(c)}))
    && HistoryGrows(s.server, s'.server)
    && (forall d :: d in s.conns && d != c ==> Passes(s.server, s'.server, d))
  }

  lemma LinkStepKeepsInv(s: State, s': State, c: nat)
    requires Inv(s) && TouchesOnly(s, s', c)
    requires ServerOk(s'.server) && OpenIdsOk(s') && ParticipantsOk(s')
    requires ConnOk(s'.server, s'.children[s'.conns[c].child], s'.conns[c], c)
    requires ChildLinked(s', s.conns[c].child)
    ensures Inv(s')
  {
    hide ServerOk, OpenIdsOk, FramesOk, VotesOk, AlignOk, PeerOk, CallsOk, ChildOk, Passes, HistoryGrows;
    var k := s.conns[c].child;
    forall d | d in s'.conns && d != c
      ensures ConnOk(s'.server, s'.children[s'.conns[d].child], s'.conns[d], d)
    {
      ConnStays(s.server, s'.server, s.children[s.conns[d].child], s.conns[d], d);
      if s'.children[s'.conns[d].child] != s.children[s.conns[d].child] {
        ClosedEnd(s'.server, s.children[k], s'.children[k], s.conns[d], d);
      }
    }
    forall j | j in s'.children && j != k
      ensures ChildLinked(s', j)
    {
      hide ChildLinked;
      ChildStays(s, s', j);
    }
  }

  // ---------------------------------------------------------------- steps of the server alone

  lemma QuietServerKeepsInv(s: State, server': Server)
    requires Inv(s) && ServerOk(server')
    requires forall c :: c in s.conns ==> Passes(s.server, server', c)
    requires HistoryGrows(s.server, server')
    requires server'.committed == s.server.committed && server'.aborted == s.server.aborted
    requires server'.stepped == s.server.stepped
    requires server'.reload.Some? ==>
               forall c :: c in server'.reload.value.participants ==> c in s.conns && s.conns[c].synced
    requires server'.reload.Some? && server'.reload.value.id.Some? ==>
               s.server.reload.Some? && s.server.reload.value.id == server'.reload.value.id
    ensures Inv(s.(server := server'))
  {
    hide ServerOk, ConnOk, ChildLinked, ViewOf;
    forall c | c in s.conns
      ensures ConnOk(server', s.children[s.conns[c].child], s.conns[c], c)
    {
      ConnStays(s.server, server', s.children[s.conns[c].child], s.conns[c], c);
    }
    forall k | k in s.children
      ensures ChildLinked(s.(server := server'), k)
    {
      ChildStays(s, s.(server := server'), k);
    }
  }

  lemma StartKeepsInv(s: State)
    requires Inv(s) && s.server.reload.None?
    ensures Inv(Start(s))
  {
    hide ConnOk, ChildLinked;
    QuietServerKeepsInv(s, Start(s).server);
  }

  lemma LoadFailsKeepsInv(s: State)
    requires Inv(s) && s.server.reload.Some? && s.server.reload.value.id.None?
    ensures Inv(s.(server := s.server.(reload := None)))
  {
    hide ConnOk, ChildLinked;
    QuietServerKeepsInv(s, s.server.(reload := None));
  }

  lemma LocalKeepsInv(s: State, local: Local, loaded: bool)
    requires Inv(s) && LocalRunning(s.server) && (local == Ready ==> loaded)
    ensures Inv(s.(server := FinishLocal(s.server, local, loaded)))
  {
    hide ConnOk, ChildLinked;
    QuietServerKeepsInv(s, FinishLocal(s.server, local, loaded));
  }

  lemma RollbackKeepsInv(s: State)
    requires Inv(s)
    ensures Inv(s.(server := s.server.(rolling := false)))
  {
    hide ConnOk, ChildLinked;
    QuietServerKeepsInv(s, s.server.(rolling := false));
  }

  // ---------------------------------------------------------------- links appear and disappear

  lemma NewChildKeepsInv(s: State, k: nat)
    requires Inv(s) && k !in s.children && 1 in s.server.installed
    ensures Inv(s.(children := s.children[k := FreshChild]))
  {
    hide ConnOk, ServerOk;
    var s' := s.(children := s.children[k := FreshChild]);
    forall j | j in s'.children
      ensures ChildLinked(s', j)
    {
      if j != k {
        ChildStays(s, s', j);
      }
    }
  }

  lemma FreshLinkOk(server: Server, child: Child, c: nat, k: nat)
    requires child.upstream == Some(c)
    requires server.reload.Some? ==> c !in server.reload.value.participants
    requires forall e :: (c, e) !in server.stepped
    ensures ConnOk(server, child, Conn(k, true, true, false, None, {}, Idle, [], [Hello(child.epoch)]), c)
  {
  }

  lemma ConnectKeepsInv(s: State, k: nat, c: nat)
    requires Inv(s) && k in s.children && c !in s.conns && s.children[k].upstream.None?
    ensures Inv(ConnectLink(s, k, c))
  {
    ConnectKeepsConns(s, k, c);
    ConnectKeepsChildren(s, k, c);
    hide ServerOk, ConnsOk, ChildrenOk, OpenIdsOk, ParticipantsOk;
    ConnectKeepsIds(s, k, c);
  }

  lemma ConnectKeepsIds(s: State, k: nat, c: nat)
    requires OpenIdsOk(s) && ParticipantsOk(s) && k in s.children && c !in s.conns
    ensures OpenIdsOk(ConnectLink(s, k, c)) && ParticipantsOk(ConnectLink(s, k, c))
  {
  }

  lemma ConnectKeepsConns(s: State, k: nat, c: nat)
    requires Inv(s) && k in s.children && c !in s.conns && s.children[k].upstream.None?
    ensures ConnsOk(ConnectLink(s, k, c))
  {
    assert ChildLinked(s, k);
    hide ServerOk, FramesOk, VotesOk, AlignOk, PeerOk, CallsOk, ChildOk, ChildrenOk, OpenIdsOk, ParticipantsOk;
    var s' := ConnectLink(s, k, c);
    forall d | d in s'.conns
      ensures ConnOk(s'.server, s'.children[s'.conns[d].child], s'.conns[d], d)
    {
      if d == c {
        FreshLinkOk(s.server, s'.children[k], c, k);
      } else if s.conns[d].child == k {
        ClosedEnd(s.server, s.children[k], s'.children[k], s.conns[d], d);
      }
    }
  }

  lemma ConnectKeepsChildren(s: State, k: nat, c: nat)
    requires Inv(s) && k in s.children && c !in s.conns && s.children[k].upstream.None?
    ensures ChildrenOk(ConnectLink(s, k, c))
  {
    hide ServerOk, ConnsOk, OpenIdsOk, ParticipantsOk, ChildOk;
    var s' := ConnectLink(s, k, c);
    FramesKeepOk(s.children[k], c, 0, 0);
    forall j | j in s'.children
      ensures ChildLinked(s', j)
    {
      if j != k {
        ChildStays(s, s', j);
      }
    }
  }

  /** Closing, settling or resuming a link opens no id. */
  lemma OpenIdsStay(s: State, s': State, c: nat)
    requires OpenIdsOk(s) && c in s.conns && s'.conns.Keys == s.conns.Keys
    requires forall d :: d in s.conns && d != c ==> s'.conns[d] == s.conns[d]
    requires OpenId(s'.conns[c]) == OpenId(s.conns[c]) || OpenId(s'.conns[c]).None?
    requires s.server.issued.Keys <= s'.server.issued.Keys
    requires forall d :: d in s'.conns && OpenId(s'.conns[d]).Some? ==> !Decided(s'.server, OpenId(s'.conns[d]).value)
    requires s'.server.reload.Some? ==>
               s'.server.reload.value.id.None? ||
               (s.server.reload.Some? && s.server.reload.value.id == s'.server.reload.value.id)
    ensures OpenIdsOk(s')
  {
    hide Decided;
  }

  lemma ParticipantsStay(s: State, s': State, c: nat)
    requires ParticipantsOk(s) && c in s.conns && s'.conns.Keys == s.conns.Keys
    requires forall d :: d in s.conns && d != c ==> s'.conns[d] == s.conns[d]
    requires s.conns[c].synced ==> s'.conns[c].synced
    requires s'.server.reload.Some? ==>
               s.server.reload.Some? && s'.server.reload.value.participants == s.server.reload.value.participants
    requires forall p :: p in s'.server.stepped && p !in s.server.stepped ==> p.0 in s.conns
    ensures ParticipantsOk(s')
  {
  }

  lemma ParentLostConn(server: Server, child: Child, conn: Conn, c: nat)
    requires ConnOk(server, child, conn, c) && conn.childOpen
    ensures ConnOk(server, ParentLost(child), conn.(childOpen := false, down := []), c)
  {
  }

  lemma CloseChildShared(s: State, c: nat)
    requires Inv(s) && c in s.conns && s.conns[c].childOpen
    ensures OpenIdsOk(CloseChildEnd(s, c)) && ParticipantsOk(CloseChildEnd(s, c))
  {
    hide ServerOk, ConnOk, ChildOk, ChildLinked, ParentLost;
    OpenIdsStay(s, CloseChildEnd(s, c), c);
    ParticipantsStay(s, CloseChildEnd(s, c), c);
  }

  lemma CloseChildLink(s: State, c: nat)
    requires Inv(s) && c in s.conns && s.conns[c].childOpen
    ensures var s', k := CloseChildEnd(s, c), s.conns[c].child;
            && TouchesOnly(s, s', c) && s'.server == s.server && ChildLinked(s', k)
            && ConnOk(s'.server, s'.children[k], s'.conns[c], c)
  {
    hide ServerOk, ConnOk, ChildOk, ParentLost, OpenIdsOk, ParticipantsOk;
    var s' := CloseChildEnd(s, c);
    var k := s.conns[c].child;
    ParentLostConn(s.server, s.children[k], s.conns[c], c);
    ParentLostLinked(s, s', k);
    hide ChildLinked;
  }

  lemma CloseChildKeepsInv(s: State, c: nat)
    requires Inv(s) && c in s.conns && s.conns[c].childOpen
    ensures Inv(CloseChildEnd(s, c))
  {
    CloseChildShared(s, c);
    CloseChildLink(s, c);
    hide ServerOk, ConnOk, ChildOk, OpenIdsOk, ParticipantsOk, ChildLinked, TouchesOnly;
    LinkStepKeepsInv(s, CloseChildEnd(s, c), c);
  }

  lemma ParentLostLinked(s: State, s': State, k: nat)
    requires k in s.children && ChildLinked(s, k) && s'.server == s.server
    requires forall d :: d in s.conns ==> d in s'.conns && s'.conns[d].child == s.conns[d].child
    requires k in s'.children && s'.children[k] == ParentLost(s.children[k])
    ensures ChildLinked(s', k)
    ensures s'.children[k].upstream.None?
  {
    FramesKeepOk(s.children[k], 0, 0, 0);
    hide ChildOk;
  }

  lemma ShutOk(server: Server, child: Child, conn: Conn, c: nat)
    requires ServerOk(server) && ConnOk(server, child, conn, c)
    requires server.reload.Some? && OpenId(conn).Some? ==> server.reload.value.id != OpenId(conn)
    ensures ServerOk(ShutServer(server, conn, c))
    ensures ConnOk(ShutServer(server, conn, c), child, ShutConn(conn), c)
    ensures forall d :: d != c ==> Passes(server, ShutServer(server, conn, c), d)
    ensures HistoryGrows(server, ShutServer(server, conn, c))
  {
  }

  lemma ShutKeepsInv(s: State, c: nat)
    requires Inv(s) && c in s.conns
    ensures Inv(Shut(s, c))
  {
    hide ConnOk, ServerOk, ChildOk;
    var s' := Shut(s, c);
    ShutOk(s.server, s.children[s.conns[c].child], s.conns[c], c);
    OpenIdsStay(s, s', c);
    ParticipantsStay(s, s', c);
    ChildStays(s, s', s.conns[c].child);
    hide ChildLinked, OpenIdsOk, ParticipantsOk, Passes, HistoryGrows;
    LinkStepKeepsInv(s, s', c);
  }

  // ---------------------------------------------------------------- votes

  lemma PopOk(server: Server, child: Child, conn: Conn, c: nat)
    requires ConnOk(server, child, conn, c) && conn.up != []
    ensures ConnOk(server, child, conn.(up := conn.up[1..]), c)
  {
    assert forall f :: f in conn.up[1..] ==> f in conn.up;
  }

  lemma PopKeepsInv(s: State, c: nat)
    requires Inv(s) && c in s.conns && s.conns[c].up != []
    ensures Inv(PopUp(s, c))
  {
    hide ServerOk, ConnOk, ChildOk;
    var s' := PopUp(s, c);
    PopOk(s.server, s.children[s.conns[c].child], s.conns[c], c);
    OpenIdsStay(s, s', c);
    ParticipantsStay(s, s', c);
    ChildStays(s, s', s.conns[c].child);
    hide ChildLinked, OpenIdsOk, ParticipantsOk;
    LinkStepKeepsInv(s, s', c);
  }

  /** A good vote comes from a child that waits, with no other control frame on its way. */
  ghost predicate GoodVote(child: Child, conn: Conn, c: nat, id: nat) {
    conn.childOpen ==> Awaits(child, c, id) && NoControl(conn.down)
  }

  lemma CountOk(server: Server, child: Child, conn: Conn, c: nat, id: nat, ok: bool)
    requires ServerOk(server) && ConnOk(server, child, conn, c)
    requires id in conn.votes && !(conn.recon.Waiting? && conn.recon.id == id)
    requires ok ==> GoodVote(child, conn, c, id)
    ensures AwaitedByReload(server, id) && ServerOk(Count(server, c, ok))
    ensures ConnOk(Count(server, c, ok), child, conn.(votes := conn.votes - {id}), c)
    ensures forall d :: d != c ==> Passes(server, Count(server, c, ok), d)
    ensures HistoryGrows(server, Count(server, c, ok))
  {
  }

  lemma WakeOk(server: Server, child: Child, conn: Conn, c: nat)
    requires ConnOk(server, child, conn, c) && conn.recon.Waiting? && GoodVote(child, conn, c, conn.recon.id)
    requires conn.recon.epoch <= server.epoch
    ensures ConnOk(server, child,
                   conn.(votes := conn.votes - {conn.recon.id}, recon := Voted(conn.recon.id, conn.recon.epoch)), c)
  {
  }

  lemma SettleKeepsInv(s: State, c: nat, id: nat, ok: bool)
    requires Inv(s) && c in s.conns
    requires ok && id in s.conns[c].votes ==> GoodVote(s.children[s.conns[c].child], s.conns[c], c, id)
    ensures Inv(Settle(s, c, id, ok))
  {
    var conn := s.conns[c];
    if id in conn.votes {
      if conn.recon.Waiting? && conn.recon.id == id && !ok {
        hide Inv;
        ShutKeepsInv(s, c);
      } else {
        hide Settle;
        VoteSettles(s, c, id, ok);
      }
    }
  }

  /** A vote that does not close the link: it wakes the reconcile loop, or counts for the reload. */
  lemma VoteSettles(s: State, c: nat, id: nat, ok: bool)
    requires Inv(s) && c in s.conns && id in s.conns[c].votes
    requires ok ==> GoodVote(s.children[s.conns[c].child], s.conns[c], c, id)
    requires s.conns[c].recon.Waiting? && s.conns[c].recon.id == id ==> ok
    ensures Inv(Settle(s, c, id, ok))
  {
    hide ServerOk, ConnOk, ChildOk, Passes, HistoryGrows;
    var s' := Settle(s, c, id, ok);
    VoteSettlesLink(s, c, id, ok);
    hide Settle;
    OpenIdsStay(s, s', c);
    ParticipantsStay(s, s', c);
    hide OpenIdsOk, ParticipantsOk;
    ChildStays(s, s', s.conns[c].child);
    hide ChildLinked;
    LinkStepKeepsInv(s, s', c);
  }

  lemma VoteSettlesLink(s: State, c: nat, id: nat, ok: bool)
    requires Inv(s) && c in s.conns && id in s.conns[c].votes
    requires ok ==> GoodVote(s.children[s.conns[c].child], s.conns[c], c, id)
    requires s.conns[c].recon.Waiting? && s.conns[c].recon.id == id ==> ok
    ensures var s', conn, k := Settle(s, c, id, ok), s.conns[c], s.conns[c].child;
            && TouchesOnly(s, s', c) && ServerOk(s'.server) && ConnOk(s'.server, s'.children[k], s'.conns[c], c)
            && s'.children == s.children && s'.conns == s.conns[c := s'.conns[c]] && s'.conns[c].synced == conn.synced
            && (OpenId(s'.conns[c]) == OpenId(conn) || OpenId(s'.conns[c]).None?)
            && s'.server == (if conn.recon.Waiting? && conn.recon.id == id then s.server else Count(s.server, c, ok))
  {
    hide ServerOk, ConnOk, ChildOk, OpenIdsOk, ParticipantsOk, ChildLinked;
    var conn := s.conns[c];
    var child := s.children[conn.child];
    if conn.recon.Waiting? && conn.recon.id == id {
      WaitingEpoch(s.server, child, conn, c);
      WakeOk(s.server, child, conn, c);
    } else {
      CountOk(s.server, child, conn, c, id, ok);
      hide Passes, HistoryGrows;
    }
  }

  lemma WaitingEpoch(server: Server, child: Child, conn: Conn, c: nat)
    requires ConnOk(server, child, conn, c) && conn.recon.Waiting?
    ensures conn.recon.epoch <= server.epoch
  {
  }

  // ---------------------------------------------------------------- greeting, asking, reconciling

  /** A link the server has told nothing yet, or whose reconciliation just ended. */
  ghost predicate Unsynced(conn: Conn) { !conn.synced && conn.recon == Idle && conn.peerEpoch.Some? }

  lemma GreetOk(server: Server, server': Server, child: Child, conn: Conn, c: nat, epoch: nat)
    requires ConnOk(server, child, conn, c) && HistoryGrows(server, server') && ServerOk(server)
    requires conn.serverOpen && conn.peerEpoch.None? && conn.down == [] && conn.recon == Idle && epoch <= server.epoch
    requires conn.childOpen ==> child.epoch == epoch
    requires ViewOf(server', c) == ViewOf(server, c) && server'.reload == server.reload
    requires forall e :: (c, e) in server'.stepped ==> (c, e) in server.stepped || e == epoch
    requires forall f :: f in conn.up ==> !f.Hello?
    ensures ConnOk(server', child, conn.(peerEpoch := Some(epoch), synced := true), c)
    ensures ConnOk(server', child, conn.(peerEpoch := Some(epoch)), c)
  {
  }

  lemma AppendedBefore(server: Server, server': Server, frames: seq<Frame>, f: Frame, n: nat, epoch: nat)
    requires n <= |frames| && CommitBefore(server, frames, n, epoch)
    requires forall id :: id in server.issued ==> id in server'.issued && server'.issued[id] == server.issued[id]
    ensures CommitBefore(server', frames + [f], n, epoch)
  {
    var m :| 0 <= m < n && frames[m].Commit? && frames[m].id in server.issued && server.issued[frames[m].id] >= epoch;
    assert (frames + [f])[m] == frames[m];
  }

  /** Appending a frame keeps the calls in order, if a call that is appended finds the child there. */
  lemma AppendCalls(server: Server, server': Server, child: Child, conn: Conn, conn': Conn, c: nat, f: Frame)
    requires CallsOk(server, child, conn, c)
    requires forall id :: id in server.issued ==> id in server'.issued && server'.issued[id] == server.issued[id]
    requires conn'.childOpen == conn.childOpen && conn'.down == conn.down + [f]
    requires forall e :: (c, e) in server'.stepped && (c, e) !in server.stepped ==> Call(e) !in conn.down
    requires forall e :: (c, e) in server'.stepped ==> conn'.peerEpoch.Some? && e <= conn'.peerEpoch.value
    requires f.Call? && (c, f.epoch) in server'.stepped && conn.childOpen && !child.failed ==>
               child.epoch >= f.epoch || CommitBefore(server, conn.down, |conn.down|, f.epoch)
    ensures CallsOk(server', child, conn', c)
  {
    if conn.childOpen && !child.failed {
      forall n | 0 <= n < |conn'.down| && conn'.down[n].Call? && (c, conn'.down[n].epoch) in server'.stepped
        ensures child.epoch >= conn'.down[n].epoch || CommitBefore(server', conn'.down, n, conn'.down[n].epoch)
      {
        if n < |conn.down| {
          assert conn'.down[n] == conn.down[n];
          assert conn.down[n] == Call(conn.down[n].epoch);
          assert conn.down[n] in conn.down;
        }
        if child.epoch < conn'.down[n].epoch {
          AppendedBefore(server, server', conn.down, f, n, conn'.down[n].epoch);
        }
      }
    }
  }

  /** No frame and no operation carries `id` yet. */
  ghost predicate Unseen(child: Child, conn: Conn, id: nat) {
    && (forall f :: f in conn.down && f.Prepare? ==> f.id != id)
    && (forall f :: f in conn.up && f.Vote? ==> f.id != id)
    && (child.op.Some? ==> child.op.value.id != id)
  }

  /** Appending a frame keeps the alignment: what was before a commit stays before it. */
  lemma AppendAlign(server: Server, server': Server, child: Child, conn: Conn, conn': Conn, c: nat, f: Frame)
    requires AlignOk(server, child, conn, c)
    requires conn'.childOpen == conn.childOpen && conn'.down == conn.down + [f] && conn'.up == conn.up
    requires !conn'.recon.Voted? && !(ViewOf(server', c).Answered? && ViewOf(server', c).ok)
    requires forall id :: id in conn'.votes ==> f.Prepare? && f.id == id && Unseen(child, conn, id)
    requires f.Commit? && conn.childOpen ==> Awaits(child, c, f.id) && NoControl(conn.down)
    ensures AlignOk(server', child, conn', c)
  {
    if conn.childOpen {
      assert forall j :: 0 <= j < |conn.down| ==> conn.down[j] in conn.down;
      forall n | 0 <= n < |conn'.down| && conn'.down[n].Commit?
        ensures Awaits(child, c, conn'.down[n].id) && NoControl(conn'.down[..n])
      {
        assert conn'.down[..n] == conn.down[..n];
        if n == |conn.down| {
          assert conn.down[..n] == conn.down;
        }
      }
    }
  }

  /** A prepare is sent: its id is new, so neither the queue nor the child has seen it. */
  lemma AskOk(server: Server, server': Server, child: Child, conn: Conn, c: nat, epoch: nat, recon: Recon)
    requires ServerOk(server) && ConnOk(server, child, conn, c) && conn.recon == Idle && conn.votes == {}
    requires child.op.Some? ==> child.op.value.id in server.issued
    requires conn.peerEpoch.Some? && epoch >= server.epoch
    requires HistoryGrows(server, server') && server'.epoch == server.epoch
    requires server.reloadSeq + 1 in server'.issued && server'.issued[server.reloadSeq + 1] == epoch
    requires forall e :: (c, e) in server'.stepped <==> (c, e) in server.stepped
    requires if conn.synced then recon == Idle && ViewOf(server', c) == Asked(server.reloadSeq + 1)
             else recon == Waiting(server.reloadSeq + 1, epoch) && epoch == server.epoch && conn.serverOpen &&
                  server'.reload == server.reload
    ensures ConnOk(server', child, AskVote(conn.(recon := recon), server.reloadSeq + 1, epoch), c)
  {
    var id := server.reloadSeq + 1;
    var conn' := AskVote(conn.(recon := recon), id, epoch);
    assert conn'.votes == {id} && id !in server.issued;
    assert Unseen(child, conn, id);
    if conn.serverOpen {
      AppendAlign(server, server', child, conn, conn', c, Prepare(id, epoch));
      AppendCalls(server, server', child, conn, conn', c, Prepare(id, epoch));
      assert forall f :: f in conn'.down ==> f in conn.down || f == Prepare(id, epoch);
      assert forall f :: f in conn.down ==> f in conn'.down;
    }
  }

  /** Asking opens one new id. */
  lemma OpenIdsAsk(s: State, s': State, c: nat)
    requires OpenIdsOk(s) && ServerOk(s.server) && c in s.conns && s'.conns.Keys == s.conns.Keys
    requires forall d :: d in s.conns && d != c ==> s'.conns[d] == s.conns[d]
    requires OpenId(s'.conns[c]) == Some(s.server.reloadSeq + 1)
    requires s'.server == Issue(s.server, s.server.epoch)
    ensures OpenIdsOk(s') && ServerOk(s'.server)
  {
  }

  lemma AskKeepsInv(s: State, s': State, c: nat)
    requires Inv(s) && c in s.conns && Unsynced(s.conns[c]) && s.conns[c].serverOpen && s.conns[c].votes == {}
    requires var id := s.server.reloadSeq + 1;
             s' == State(Issue(s.server, s.server.epoch), s.children,
                         s.conns[c := AskVote(s.conns[c].(recon := Waiting(id, s.server.epoch)), id, s.server.epoch)])
    ensures Inv(s')
  {
    hide ConnOk, ChildOk, AskVote, ChildLinked, OpenIdsOk, ReloadOk;
    var conn := s.conns[c];
    var id := s.server.reloadSeq + 1;
    assert AskVote(conn.(recon := Waiting(id, s.server.epoch)), id, s.server.epoch).synced == conn.synced
        && OpenId(AskVote(conn.(recon := Waiting(id, s.server.epoch)), id, s.server.epoch)) == Some(id)
        && AskVote(conn.(recon := Waiting(id, s.server.epoch)), id, s.server.epoch).child == conn.child by {
      AskVoteKeeps(conn.(recon := Waiting(id, s.server.epoch)), id, s.server.epoch);
    }
    AskedLinkOk(s, s', c);
    OpenIdsAsk(s, s', c);
    ParticipantsStay(s, s', c);
    ChildStays(s, s', conn.child);
    hide ServerOk, OpenIdsOk, ParticipantsOk;
    LinkStepKeepsInv(s, s', c);
  }

  lemma AskedLinkOk(s: State, s': State, c: nat)
    requires Inv(s) && c in s.conns && Unsynced(s.conns[c]) && s.conns[c].serverOpen && s.conns[c].votes == {}
    requires var id := s.server.reloadSeq + 1;
             s' == State(Issue(s.server, s.server.epoch), s.children,
                         s.conns[c := AskVote(s.conns[c].(recon := Waiting(id, s.server.epoch)), id, s.server.epoch)])
    ensures ConnOk(s'.server, s.children[s.conns[c].child], s'.conns[c], c)
  {
    hide ConnOk, ChildOk, AskVote, ChildLinked, OpenIdsOk, ParticipantsOk;
    var conn, id := s.conns[c], s.server.reloadSeq + 1;
    LinkedOp(s, conn.child);
    AskOk(s.server, s'.server, s.children[conn.child], conn, c, s.server.epoch, Waiting(id, s.server.epoch));
  }

  lemma AskVoteKeeps(conn: Conn, id: nat, epoch: nat)
    ensures AskVote(conn, id, epoch).synced == conn.synced && AskVote(conn, id, epoch).recon == conn.recon
    ensures AskVote(conn, id, epoch).child == conn.child
  {
  }

  lemma LinkedOp(s: State, k: nat)
    requires k in s.children && ChildLinked(s, k)
    ensures s.children[k].op.Some? ==> s.children[k].op.value.id in s.server.issued
  {
  }

  lemma SyncedOk(server: Server, child: Child, conn: Conn, c: nat)
    requires ConnOk(server, child, conn, c) && Unsynced(conn) && conn.serverOpen
    ensures ConnOk(server, child, conn.(synced := true), c)
  {
  }

  lemma ReconcileKeepsInv(s: State, c: nat)
    requires Inv(s) && c in s.conns && Unsynced(s.conns[c]) && s.conns[c].serverOpen && s.conns[c].votes == {}
    ensures Inv(Reconcile(s, c))
  {
    hide ConnOk, ChildOk, ServerOk;
    var conn := s.conns[c];
    var s' := Reconcile(s, c);
    if conn.peerEpoch == Some(s.server.epoch) {
      ParticipantsStay(s, s', c);
      ChildStays(s, s', conn.child);
      SyncedOk(s.server, s.children[conn.child], conn, c);
      OpenIdsStay(s, s', c);
      hide ChildLinked, OpenIdsOk, ParticipantsOk;
      LinkStepKeepsInv(s, s', c);
    } else {
      AskKeepsInv(s, s', c);
    }
  }

  // ---------------------------------------------------------------- greeting

  /** The state of a link whose hello is at the head: nothing else has happened on it. */
  lemma HelloAlone(server: Server, child: Child, conn: Conn, c: nat)
    requires ConnOk(server, child, conn, c) && conn.up != [] && conn.up[0].Hello?
    ensures conn.peerEpoch.None? && conn.down == [] && conn.recon == Idle && conn.votes == {} && !conn.synced
    ensures conn.childOpen ==> child.epoch == conn.up[0].epoch
    ensures forall f :: f in conn.up[1..] ==> !f.Hello?
  {
    assert conn.up[0] in conn.up;
  }

  lemma SteppedOk(server: Server, c: nat, epoch: nat)
    requires ServerOk(server)
    ensures var server' := server.(stepped := server.stepped + {(c, epoch)});
            ServerOk(server') && HistoryGrows(server, server') && forall d :: d != c ==> Passes(server, server', d)
  {
  }

  lemma GreetingKeepsInv(s: State, s': State, c: nat, epoch: nat, synced: bool)
    requires Inv(s) && c in s.conns
    requires var conn := s.conns[c];
             conn.serverOpen && conn.peerEpoch.None? && conn.down == [] && conn.recon == Idle && !conn.synced &&
             epoch <= s.server.epoch && (conn.childOpen ==> s.children[conn.child].epoch == epoch) &&
             (forall f :: f in conn.up ==> !f.Hello?)
    requires s' == State(if synced then s.server.(stepped := s.server.stepped + {(c, epoch)}) else s.server, s.children,
                         s.conns[c := s.conns[c].(peerEpoch := Some(epoch), synced := synced)])
    ensures Inv(s')
  {
    hide ConnOk, ChildOk, ServerOk, ChildLinked;
    var conn := s.conns[c];
    SteppedOk(s.server, c, epoch);
    assert ConnOk(s'.server, s.children[conn.child], s'.conns[c], c) by {
      hide OpenIdsOk, ParticipantsOk;
      GreetOk(s.server, s'.server, s.children[conn.child], conn, c, epoch);
    }
    ParticipantsStay(s, s', c);
    ChildStays(s, s', conn.child);
    OpenIdsStay(s, s', c);
    hide OpenIdsOk, ParticipantsOk;
    LinkStepKeepsInv(s, s', c);
  }

  lemma GreetKeepsInv(s: State, c: nat)
    requires Inv(s) && c in s.conns && s.conns[c].serverOpen
    requires s.conns[c].up != [] && s.conns[c].up[0].Hello?
    ensures Inv(ServerReceives(s, c))
  {
    hide ConnOk, ChildOk, ServerOk, ChildLinked, OpenIdsOk, ParticipantsOk;
    var conn := s.conns[c];
    var epoch := conn.up[0].epoch;
    HelloAlone(s.server, s.children[conn.child], conn, c);
    PopKeepsInv(s, c);
    var popped := PopUp(s, c);
    if epoch > s.server.epoch {
      ShutKeepsInv(popped, c);
    } else {
      GreetingKeepsInv(popped, State(
        if epoch == s.server.epoch then s.server.(stepped := s.server.stepped + {(c, epoch)}) else s.server, s.children,
        popped.conns[c := popped.conns[c].(peerEpoch := Some(epoch), synced := epoch == s.server.epoch)]), c, epoch,
        epoch == s.server.epoch);
      if epoch < s.server.epoch {
        ReconcileKeepsInv(popped.(conns := popped.conns[c := popped.conns[c].(peerEpoch := Some(epoch),
            synced := false)]), c);
        assert popped.conns[c].(peerEpoch := Some(epoch), synced := false)
               == popped.conns[c].(peerEpoch := Some(epoch));
      }
    }
  }

  lemma VoteIsGood(server: Server, child: Child, conn: Conn, c: nat)
    requires ConnOk(server, child, conn, c) && conn.up != [] && conn.up[0].Vote?
    ensures conn.up[0].ok && conn.up[0].id in conn.votes ==> GoodVote(child, conn, c, conn.up[0].id)
  {
    assert conn.up[0] in conn.up;
  }

  lemma ServerReceivesKeepsInv(s: State, c: nat)
    requires Inv(s) && c in s.conns && s.conns[c].serverOpen && s.conns[c].up != []
    ensures Inv(ServerReceives(s, c))
  {
    hide ConnOk, ChildOk, ServerOk, ChildLinked, OpenIdsOk, ParticipantsOk;
    var conn := s.conns[c];
    if conn.up[0].Hello? {
      GreetKeepsInv(s, c);
    } else {
      PopKeepsInv(s, c);
      if conn.up[0].Vote? {
        VoteIsGood(s.server, s.children[conn.child], conn, c);
        SettleKeepsInv(PopUp(s, c), c, conn.up[0].id, conn.up[0].ok);
      }
    }
  }

  // ---------------------------------------------------------------- calls

  lemma CallOk(server: Server, child: Child, conn: Conn, c: nat, epoch: nat)
    requires ConnOk(server, child, conn, c) && conn.synced && epoch <= server.epoch
    ensures ConnOk(server, child, Push(conn, Call(epoch)), c)
  {
    if conn.serverOpen {
      var conn' := Push(conn, Call(epoch));
      assert forall f :: f in conn'.down ==> f in conn.down || f == Call(epoch);
      assert forall f :: f in conn.down ==> f in conn'.down;
      if conn.childOpen && !child.failed && (c, epoch) in server.stepped && child.epoch < epoch {
        var f :| f in conn.down && f.Commit?;
        assert CommitBefore(server, conn.down, |conn.down|, epoch);
      }
      AppendCalls(server, server, child, conn, conn', c, Call(epoch));
      AppendCallAlign(server, child, conn, conn', c, epoch);
    }
  }

  lemma AppendCallAlign(server: Server, child: Child, conn: Conn, conn': Conn, c: nat, epoch: nat)
    requires AlignOk(server, child, conn, c) && conn' == conn.(down := conn.down + [Call(epoch)])
    ensures AlignOk(server, child, conn', c)
  {
    forall j | 0 <= j < |conn.down|
      ensures conn'.down[j + 1..] == conn.down[j + 1..] + [Call(epoch)] && conn'.down[..j] == conn.down[..j]
    {
    }
  }

  lemma SendCallKeepsInv(s: State, c: nat, epoch: nat)
    requires Inv(s) && c in s.conns && s.conns[c].synced && epoch <= s.server.epoch
    ensures Inv(SendCallOn(s, c, epoch))
  {
    hide ServerOk, ConnOk, ChildOk, ChildLinked;
    var s' := SendCallOn(s, c, epoch);
    CallOk(s.server, s.children[s.conns[c].child], s.conns[c], c, epoch);
    OpenIdsStay(s, s', c);
    ParticipantsStay(s, s', c);
    ChildStays(s, s', s.conns[c].child);
    hide OpenIdsOk, ParticipantsOk, Push;
    LinkStepKeepsInv(s, s', c);
  }

  // ---------------------------------------------------------------- decisions

  /** What holds when the server sends the commit of reload `id` on a link whose child voted for it. */
  ghost predicate MayCommit(server: Server, server': Server, child: Child, conn: Conn, c: nat, id: nat, epoch: nat) {
    && ConnOk(server, child, conn, c) && HistoryGrows(server, server') && GoodVote(child, conn, c, id)
    && (conn.recon == Idle || conn.recon.Voted?)
    && conn.votes == {} && conn.peerEpoch.Some? && conn.peerEpoch.value <= epoch == server'.epoch
    && id in server'.committed && id in server'.issued && server'.issued[id] == epoch
    && ViewOf(server', c) == NotAsked
    && (!conn.synced ==> server'.reload == server.reload)
    && (conn.synced ==> server.epoch < epoch)
    && (forall e :: (c, e) in server'.stepped ==> (c, e) in server.stepped || e == epoch)
  }

  lemma TellCommitOk(server: Server, server': Server, child: Child, conn: Conn, c: nat, id: nat, epoch: nat)
    requires MayCommit(server, server', child, conn, c, id, epoch)
    ensures ConnOk(server', child, TellCommit(conn.(recon := Idle), id, epoch), c)
  {
    TellCommitFrames(server, server', child, conn, c, id, epoch);
    TellCommitOrder(server, server', child, conn, c, id, epoch);
  }

  lemma TellCommitFrames(server: Server, server': Server, child: Child, conn: Conn, c: nat, id: nat, epoch: nat)
    requires MayCommit(server, server', child, conn, c, id, epoch)
    ensures var conn' := TellCommit(conn.(recon := Idle), id, epoch);
            FramesOk(server', conn') && VotesOk(server', conn', c) && PeerOk(server', child, conn')
  {
    hide CallsOk, ViewOf;
    var conn' := TellCommit(conn.(recon := Idle), id, epoch);
    assert forall f :: f in conn.down ==> f in conn'.down;
    assert forall f :: f in conn'.down ==> f in conn.down || f == Commit(id);
    assert conn.serverOpen ==> Commit(id) in conn'.down;
  }

  lemma TellCommitOrder(server: Server, server': Server, child: Child, conn: Conn, c: nat, id: nat, epoch: nat)
    requires MayCommit(server, server', child, conn, c, id, epoch)
    ensures var conn' := TellCommit(conn.(recon := Idle), id, epoch);
            AlignOk(server', child, conn', c) && CallsOk(server', child, conn', c)
  {
    var conn' := TellCommit(conn.(recon := Idle), id, epoch);
    NoCallOf(server, conn, epoch);
    hide FramesOk, VotesOk, PeerOk;
    if conn.serverOpen {
      AppendAlign(server, server', child, conn, conn', c, Commit(id));
      AppendCalls(server, server', child, conn, conn', c, Commit(id));
    } else {
      ClosedCalls(server, server', child, conn, c, epoch);
    }
  }

  lemma NoCallOf(server: Server, conn: Conn, epoch: nat)
    requires FramesOk(server, conn) && (conn.synced ==> server.epoch < epoch)
    ensures Call(epoch) !in conn.down
  {
  }

  lemma ClosedCalls(server: Server, server': Server, child: Child, conn: Conn, c: nat, epoch: nat)
    requires FramesOk(server, conn) && CallsOk(server, child, conn, c) && HistoryGrows(server, server')
    requires conn.peerEpoch.Some? && conn.peerEpoch.value <= epoch
    requires conn.synced ==> server.epoch < epoch
    requires forall e :: (c, e) in server'.stepped ==> (c, e) in server.stepped || e == epoch
    ensures CallsOk(server', child, conn.(recon := Idle, peerEpoch := Some(epoch)), c)
  {
    if conn.childOpen && !child.failed {
      forall n | 0 <= n < |conn.down| && conn.down[n].Call? && (c, conn.down[n].epoch) in server'.stepped
        ensures child.epoch >= conn.down[n].epoch || CommitBefore(server', conn.down, n, conn.down[n].epoch)
      {
        assert conn.down[n] in conn.down;
        if child.epoch < conn.down[n].epoch {
          AppendedBefore(server, server', conn.down, Hello(0), n, conn.down[n].epoch);
          var m :| 0 <= m < n && (conn.down + [Hello(0)])[m].Commit?
            && (conn.down + [Hello(0)])[m].id in server'.issued &&
            server'.issued[(conn.down + [Hello(0)])[m].id] >= conn.down[n].epoch;
          assert conn.down[m] == (conn.down + [Hello(0)])[m];
        }
      }
    }
  }

  lemma TellAbortOk(server: Server, server': Server, child: Child, conn: Conn, c: nat, id: nat)
    requires ConnOk(server, child, conn, c) && HistoryGrows(server, server')
    requires conn.recon == Idle || conn.recon.Voted?
    requires conn.votes == {} && id in server'.aborted && conn.peerEpoch.Some?
    requires ViewOf(server', c) == NotAsked
    requires !conn.synced ==> server'.reload == server.reload
    requires forall e :: (c, e) in server'.stepped <==> (c, e) in server.stepped
    ensures ConnOk(server', child, TellAbort(conn.(recon := Idle), id), c)
  {
    var conn' := TellAbort(conn.(recon := Idle), id);
    assert conn'.votes == {};
    assert forall f :: f in conn.down ==> f in conn'.down;
    assert forall f :: f in conn'.down ==> f in conn.down || f == Abort(id);
    if conn.serverOpen {
      AppendAlign(server, server', child, conn, conn', c, Abort(id));
      AppendCalls(server, server', child, conn, conn', c, Abort(id));
    } else {
      ConnStaysCalls(server, server', child, conn, c);
    }
  }

  lemma ConnStaysCalls(server: Server, server': Server, child: Child, conn: Conn, c: nat)
    requires CallsOk(server, child, conn, c) && HistoryGrows(server, server')
    requires forall e :: (c, e) in server'.stepped <==> (c, e) in server.stepped
    ensures CallsOk(server', child, conn, c)
  {
    forall n | 0 <= n < |conn.down| && conn.down[n].Call? && CommitBefore(server, conn.down, n, conn.down[n].epoch)
      ensures CommitBefore(server', conn.down, n, conn.down[n].epoch)
    {
      var m :| 0 <= m < n && conn.down[m].Commit? && conn.down[m].id in server.issued &&
        server.issued[conn.down[m].id] >= conn.down[n].epoch;
    }
  }

  // ---------------------------------------------------------------- resuming a reconciliation

  lemma VotedFacts(server: Server, child: Child, conn: Conn, c: nat)
    requires ConnOk(server, child, conn, c) && conn.recon.Voted?
    ensures GoodVote(child, conn, c, conn.recon.id) && conn.votes == {} && conn.serverOpen && !conn.synced
    ensures conn.recon.id in server.issued && server.issued[conn.recon.id] == conn.recon.epoch
    ensures conn.recon.epoch <= server.epoch && conn.peerEpoch.Some? && conn.peerEpoch.value <= server.epoch
    ensures ViewOf(server, c) == NotAsked && (server.reload.None? || c !in server.reload.value.participants)
  {
  }

  lemma DecideServer(server: Server, id: nat, commit: bool, c: nat)
    requires ServerOk(server) && id in server.issued && !Decided(server, id) && !AwaitedByReload(server, id)
    requires commit ==> server.issued[id] == server.epoch
    ensures var server' := if commit
            then server.(committed := server.committed + {id}, stepped := server.stepped + {(c, server.epoch)})
                           else server.(aborted := server.aborted + {id});
            ServerOk(server') && HistoryGrows(server, server') && (forall d :: d != c ==> Passes(server, server', d))
  {
  }

  lemma DecideOneOk(s: State, s': State, c: nat)
    requires Inv(s) && c in s.conns && s.conns[c].recon.Voted?
    requires s' == if s.server.epoch == s.conns[c].recon.epoch then CommitOne(s, c) else AbortOne(s, c)
    ensures ServerOk(s'.server) && TouchesOnly(s, s', c)
    ensures ConnOk(s'.server, s.children[s.conns[c].child], s'.conns[c], c)
    ensures s'.conns[c].recon == Idle && s'.conns[c].votes == {} && Unsynced(s'.conns[c]) && s'.conns[c].serverOpen
  {
    hide ConnOk, ChildOk, ServerOk, ChildLinked, ParticipantsOk;
    var conn := s.conns[c];
    var child := s.children[conn.child];
    VotedFacts(s.server, child, conn, c);
    assert OpenId(conn) == Some(conn.recon.id);
    DecideServer(s.server, conn.recon.id, s.server.epoch == conn.recon.epoch, c);
    hide OpenIdsOk, Passes;
    if s.server.epoch == conn.recon.epoch {
      TellCommitOk(s.server, s'.server, child, conn, c, conn.recon.id, conn.recon.epoch);
    } else {
      TellAbortOk(s.server, s'.server, child, conn, c, conn.recon.id);
    }
  }

  lemma ResumeKeepsInv(s: State, c: nat)
    requires Inv(s) && c in s.conns && s.conns[c].recon.Voted?
    ensures Inv(Resume(s, c))
  {
    hide ConnOk, ChildOk, ServerOk, ChildLinked, Passes;
    var s' := if s.server.epoch == s.conns[c].recon.epoch then CommitOne(s, c) else AbortOne(s, c);
    DecideOneOk(s, s', c);
    hide TellCommit, TellAbort;
    DecideOneOpen(s, s', c);
    ParticipantsStay(s, s', c);
    ChildStays(s, s', s.conns[c].child);
    hide OpenIdsOk, ParticipantsOk;
    LinkStepKeepsInv(s, s', c);
    ReconcileKeepsInv(s', c);
  }

  lemma DecideOneOpen(s: State, s': State, c: nat)
    requires OpenIdsOk(s) && c in s.conns && s.conns[c].recon.Voted? && s'.conns.Keys == s.conns.Keys
    requires s' == if s.server.epoch == s.conns[c].recon.epoch then CommitOne(s, c) else AbortOne(s, c)
    ensures OpenIdsOk(s')
  {
    assert OpenId(s.conns[c]) == Some(s.conns[c].recon.id) && OpenId(s'.conns[c]) == None;
  }

  // ---------------------------------------------------------------- all participants at once

  lemma OpenIdsBroadcast(s: State, s': State)
    requires OpenIdsOk(s) && s'.conns.Keys == s.conns.Keys && HistoryGrows(s.server, s'.server)
    requires forall c :: c in s.conns ==> s'.conns[c].recon == s.conns[c].recon
    requires s.server.reload.Some?
    requires s'.server.reload.Some? && s'.server.reload.value.id.Some? ==>
               s'.server.reload.value.id.value !in s.server.issued
    requires forall id: nat :: Decided(s'.server, id) ==> Decided(s.server, id) || s.server.reload.value.id == Some(id)
    ensures OpenIdsOk(s')
  {
    hide Decided;
    assert forall c :: c in s.conns ==> OpenId(s'.conns[c]) == OpenId(s.conns[c]);
  }

  lemma BroadcastKeepsInv(s: State, s': State)
    requires Inv(s) && s'.children == s.children && s'.conns.Keys == s.conns.Keys
    requires forall c :: c in s.conns ==>
               s'.conns[c].child == s.conns[c].child && s'.conns[c].synced == s.conns[c].synced
    requires forall c :: c in s.conns ==> ConnOk(s'.server, s.children[s.conns[c].child], s'.conns[c], c)
    requires ServerOk(s'.server) && HistoryGrows(s.server, s'.server) && OpenIdsOk(s')
    requires s'.server.reload.Some? ==>
               s.server.reload.Some? && s'.server.reload.value.participants == s.server.reload.value.participants
    requires forall p :: p in s'.server.stepped && p !in s.server.stepped ==> p.0 in s.conns
    ensures Inv(s')
  {
    hide ConnOk, ServerOk, ChildOk, OpenIdsOk;
    forall k | k in s'.children
      ensures ChildLinked(s', k)
    {
      hide ChildLinked;
      ChildStays(s, s', k);
    }
  }

  lemma IdleParticipant(s: State, c: nat)
    requires Inv(s) && s.server.reload.Some? && c in s.server.reload.value.participants
    ensures c in s.conns && s.conns[c].synced && s.conns[c].recon == Idle && s.conns[c].peerEpoch.Some?
    ensures s.server.reload.value.id.None? ==> s.conns[c].votes == {}
    ensures s.server.reload.value.id.Some? && c in s.server.reload.value.settled ==>
              && s.conns[c].votes == {}
              && (s.server.reload.value.settled[c] ==>
                    GoodVote(s.children[s.conns[c].child], s.conns[c], c, s.server.reload.value.id.value))
    ensures s.conns[c].peerEpoch.value <= s.server.epoch
  {
    assert ConnOk(s.server, s.children[s.conns[c].child], s.conns[c], c);
  }

  lemma AskAllKeepsInv(s: State)
    requires Inv(s) && s.server.reload.Some? && s.server.reload.value.id.None?
    ensures Inv(AskAll(s))
  {
    hide ConnOk, ChildOk, ChildLinked;
    var s' := AskAll(s);
    var reload := s.server.reload.value;
    var id := s.server.reloadSeq + 1;
    forall c | c in s.conns
      ensures ConnOk(s'.server, s.children[s.conns[c].child], s'.conns[c], c)
    {
      hide OpenIdsOk;
      if c in reload.participants {
        IdleParticipant(s, c);
        assert ChildLinked(s, s.conns[c].child);
        LinkedOp(s, s.conns[c].child);
        AskOk(s.server, s'.server, s.children[s.conns[c].child], s.conns[c], c, reload.epoch, Idle);
        assert s.conns[c].(recon := Idle) == s.conns[c];
      } else {
        ConnStays(s.server, s'.server, s.children[s.conns[c].child], s.conns[c], c);
      }
    }
    OpenIdsBroadcast(s, s');
    hide OpenIdsOk;
    BroadcastKeepsInv(s, s');
  }

  lemma CommitReloadKeepsInv(s: State)
    requires Inv(s) && s.server.reload.Some? && AllSettled(s.server.reload.value) && AllGood(s.server.reload.value)
    ensures Inv(CommitReload(s))
  {
    hide ConnOk, ChildOk, ChildLinked;
    var s' := CommitReload(s);
    var reload := s.server.reload.value;
    forall c | c in s.conns
      ensures ConnOk(s'.server, s.children[s.conns[c].child], s'.conns[c], c)
    {
      hide OpenIdsOk;
      if c in reload.participants {
        IdleParticipant(s, c);
        TellCommitOk(s.server, s'.server, s.children[s.conns[c].child], s.conns[c], c, reload.id.value, reload.epoch);
        assert s.conns[c].(recon := Idle) == s.conns[c];
      } else {
        ConnStays(s.server, s'.server, s.children[s.conns[c].child], s.conns[c], c);
      }
    }
    OpenIdsBroadcast(s, s');
    hide OpenIdsOk;
    BroadcastKeepsInv(s, s');
  }

  lemma AbortReloadKeepsInv(s: State)
    requires Inv(s) && s.server.reload.Some? && AllSettled(s.server.reload.value)
    ensures Inv(AbortReload(s))
  {
    hide ConnOk, ChildOk, ChildLinked;
    var s' := AbortReload(s);
    var reload := s.server.reload.value;
    forall c | c in s.conns
      ensures ConnOk(s'.server, s.children[s.conns[c].child], s'.conns[c], c)
    {
      hide OpenIdsOk;
      if c in reload.participants {
        IdleParticipant(s, c);
        TellAbortOk(s.server, s'.server, s.children[s.conns[c].child], s.conns[c], c, reload.id.value);
        assert s.conns[c].(recon := Idle) == s.conns[c];
      } else {
        ConnStays(s.server, s'.server, s.children[s.conns[c].child], s.conns[c], c);
      }
    }
    OpenIdsBroadcast(s, s');
    hide OpenIdsOk;
    BroadcastKeepsInv(s, s');
  }

  // ---------------------------------------------------------------- the child receives and acts

  /** Behind a control frame at the head wait no commit, no good vote, and no answer that could still commit. */
  lemma HeadControl(server: Server, child: Child, conn: Conn, c: nat)
    requires AlignOk(server, child, conn, c) && conn.childOpen && conn.down != [] && !conn.down[0].Call?
    ensures forall id :: id in conn.votes ==> Vote(id, true) !in conn.up
    ensures !conn.recon.Voted? && !(ViewOf(server, c).Answered? && ViewOf(server, c).ok)
    ensures forall f :: f in conn.down[1..] ==> !f.Commit?
    ensures conn.down[0].Commit? ==> Awaits(child, c, conn.down[0].id)
    ensures conn.down[0].Prepare? && conn.down[0].id in conn.votes ==> NoControl(conn.down[1..])
    ensures var tail := conn.down[1..];
            forall id, j :: id in conn.votes && 0 <= j < |tail| && tail[j].Prepare? && tail[j].id == id ==>
              NoControl(tail[j + 1..])
  {
    var tail := conn.down[1..];
    assert !NoControl(conn.down);
    forall f | f in tail
      ensures !f.Commit?
    {
      var n :| 0 <= n < |tail| && tail[n] == f;
      assert conn.down[n + 1] == f && conn.down[..n + 1][0] == conn.down[0];
    }
    if conn.down[0].Commit? {
      assert conn.down[0].Commit? && 0 <= 0 < |conn.down|;
    }
    forall id, j | id in conn.votes && 0 <= j < |tail| && tail[j].Prepare? && tail[j].id == id
      ensures NoControl(tail[j + 1..])
    {
      assert conn.down[j + 1] == tail[j];
      assert tail[j + 1..] == conn.down[j + 2..];
    }
  }

  lemma TailAlign(server: Server, child: Child, child': Child, conn: Conn, conn': Conn, c: nat)
    requires AlignOk(server, child, conn, c) && conn.childOpen && conn.down != [] && !conn.down[0].Call?
    requires conn' == conn.(down := conn.down[1..], up := conn'.up)
    requires forall f :: f in conn'.up ==> f in conn.up || (f.Vote? && !f.ok)
    requires child'.op.Some? && child'.op != child.op ==>
               (child.op.Some? && child'.op.value.id == child.op.value.id
                && child'.op.value.link == child.op.value.link) ||
               (conn.down[0].Prepare? && child'.op.value.id == conn.down[0].id)
    ensures AlignOk(server, child', conn', c)
  {
    HeadControl(server, child, conn, c);
    assert !NoControl(conn.down);
  }

  lemma TailCalls(server: Server, child: Child, child': Child, conn: Conn, conn': Conn, c: nat)
    requires CallsOk(server, child, conn, c) && conn.down != []
    requires conn' == conn.(down := conn.down[1..], up := conn'.up)
    requires child'.epoch >= child.epoch && (child.failed ==> child'.failed)
    requires conn.down[0].Commit? && conn.down[0].id in server.issued && !child'.failed ==>
               child'.epoch >= server.issued[conn.down[0].id]
    ensures CallsOk(server, child', conn', c)
  {
    if conn.childOpen && !child'.failed {
      forall n | 0 <= n < |conn'.down| && conn'.down[n].Call? && (c, conn'.down[n].epoch) in server.stepped
        ensures child'.epoch >= conn'.down[n].epoch || CommitBefore(server, conn'.down, n, conn'.down[n].epoch)
      {
        assert conn.down[n + 1] == conn'.down[n];
        if child'.epoch < conn'.down[n].epoch {
          var m :| 0 <= m < n + 1 && conn.down[m].Commit? && conn.down[m].id in server.issued &&
            server.issued[conn.down[m].id] >= conn'.down[n].epoch;
          assert conn'.down[m - 1] == conn.down[m];
        }
      }
    }
  }

  lemma TailFrames(server: Server, conn: Conn, conn': Conn, c: nat)
    requires FramesOk(server, conn) && VotesOk(server, conn, c) && conn.down != []
    requires conn'.up == conn.up || (conn.down[0].Prepare? && conn'.up == conn.up + [Vote(conn.down[0].id, false)])
    requires conn' == conn.(down := conn.down[1..], up := conn'.up)
    requires conn.serverOpen || conn'.up == []
    ensures FramesOk(server, conn') && VotesOk(server, conn', c)
  {
    assert conn.down[0] in conn.down;
    assert forall f :: f in conn'.down ==> f in conn.down;
    assert forall f :: f in conn.up && f.Hello? ==> conn.down == [];
    assert forall f :: f in conn'.up ==> !f.Hello?;
  }

  lemma HandleControlOk(server: Server, child: Child, conn: Conn, c: nat)
    requires ConnOk(server, child, conn, c) && ChildOk(child)
    requires conn.childOpen && conn.down != [] && !conn.down[0].Call?
    requires child.op.Some? && child.op.value.id in server.issued ==>
               server.issued[child.op.value.id] == child.op.value.epoch
    ensures var f := conn.down[0];
            ConnOk(server, Handled(child, c, f), Replied(child, conn.(down := conn.down[1..]), f), c)
  {
    var f := conn.down[0];
    var child' := Handled(child, c, f);
    var conn' := Replied(child, conn.(down := conn.down[1..]), f);
    HeadControl(server, child, conn, c);
    assert f in conn.down;
    TailFrames(server, conn, conn', c);
    TailAlign(server, child, child', conn, conn', c);
    TailCalls(server, child, child', conn, conn', c);
    HandledPeer(server, child, conn, conn', c);
  }

  lemma HandledPeer(server: Server, child: Child, conn: Conn, conn': Conn, c: nat)
    requires ConnOk(server, child, conn, c) && ChildOk(child)
    requires conn.childOpen && conn.down != [] && !conn.down[0].Call?
    requires conn' == Replied(child, conn.(down := conn.down[1..]), conn.down[0])
    requires child.op.Some? && child.op.value.id in server.issued ==>
               server.issued[child.op.value.id] == child.op.value.epoch
    ensures PeerOk(server, Handled(child, c, conn.down[0]), conn')
    ensures Handled(child, c, conn.down[0]).upstream == child.upstream
  {
    HeadControl(server, child, conn, c);
    hide AlignOk, CallsOk;
    assert conn.down[0] in conn.down;
    assert forall f :: f in conn.up ==> !f.Hello?;
    assert forall f :: f in conn'.up ==> !f.Hello?;
    assert forall f :: f in conn.down ==> f == conn.down[0] || f in conn.down[1..];
  }

  lemma HandleCallOk(server: Server, child: Child, conn: Conn, c: nat)
    requires ConnOk(server, child, conn, c) && conn.down != [] && conn.down[0].Call?
    ensures ConnOk(server, child, conn.(down := conn.down[1..]), c)
  {
    var conn' := conn.(down := conn.down[1..]);
    TailFrames(server, conn, conn', c);
    TailCalls(server, child, child, conn, conn', c);
    assert forall f :: f in conn.down ==> f == conn.down[0] || f in conn'.down;
    assert forall f :: f in conn'.down ==> f in conn.down;
    TailOfCall(server, child, conn, conn', c);
  }

  lemma TailOfCall(server: Server, child: Child, conn: Conn, conn': Conn, c: nat)
    requires AlignOk(server, child, conn, c) && conn.down != [] && conn.down[0].Call?
    requires conn' == conn.(down := conn.down[1..])
    ensures AlignOk(server, child, conn', c)
  {
    forall n | 0 <= n < |conn'.down|
      ensures conn'.down[n] == conn.down[n + 1] && conn'.down[n + 1..] == conn.down[n + 2..]
      ensures conn'.down[..n] == conn.down[..n + 1][1..]
    {
    }
  }

  lemma ChildReceivesKeepsInv(s: State, c: nat)
    requires Inv(s) && c in s.conns && s.conns[c].childOpen && s.conns[c].down != []
    ensures Inv(ChildReceives(s, c))
  {
    hide ServerOk, ConnOk, ChildOk, Handled, Replied, ChildLinked, ChildrenOk, FramesOk;
    var s', conn := ChildReceives(s, c), s.conns[c];
    HandledLinked(s, s', c);
    HandledLinkOk(s, c);
    RepliedKeeps(s.children[conn.child], conn.(down := conn.down[1..]), conn.down[0]);
    OpenIdsStay(s, s', c);
    ParticipantsStay(s, s', c);
    hide OpenIdsOk, ParticipantsOk;
    LinkStepKeepsInv(s, s', c);
  }

  lemma HandledLinkOk(s: State, c: nat)
    requires Inv(s) && c in s.conns && s.conns[c].childOpen && s.conns[c].down != []
    ensures var s' := ChildReceives(s, c);
            ConnOk(s'.server, s'.children[s.conns[c].child], s'.conns[c], c)
  {
    hide ServerOk, ConnOk, ChildOk, Handled, Replied, OpenIdsOk, ParticipantsOk;
    var conn := s.conns[c];
    var child := s.children[conn.child];
    assert ChildLinked(s, conn.child);
    if conn.down[0].Call? {
      HandleCallOk(s.server, child, conn, c);
      CallLeavesChild(child, conn, c);
    } else {
      HandleControlOk(s.server, child, conn, c);
    }
  }

  lemma CallLeavesChild(child: Child, conn: Conn, c: nat)
    requires conn.down != [] && conn.down[0].Call?
    ensures Handled(child, c, conn.down[0]) == child
    ensures Replied(child, conn.(down := conn.down[1..]), conn.down[0]) == conn.(down := conn.down[1..])
  {
  }

  lemma RepliedKeeps(child: Child, conn: Conn, f: Frame)
    ensures Replied(child, conn, f) == conn.(up := Replied(child, conn, f).up)
  {
  }

  lemma HandledChild(child: Child, c: nat, f: Frame)
    requires ChildOk(child) && child.upstream == Some(c)
    ensures var child' := Handled(child, c, f);
            && ChildOk(child') && child'.upstream == Some(c)
            && (child'.op.Some? ==>
                  (child.op.Some? && child'.op.value.id == child.op.value.id &&
                   child'.op.value.epoch == child.op.value.epoch && child'.op.value.link == child.op.value.link) ||
                  (f == Prepare(child'.op.value.id, child'.op.value.epoch) && child'.op.value.link == c))
            && ((child'.installs == child.installs && child'.epoch == child.epoch) ||
                (f.Commit? && child.op.Some? && child.op.value.id == f.id && child'.epoch == child.op.value.epoch &&
                 child'.installs == child.installs + [Install(f.id, child.op.value.epoch)]))
  {
    hide InstallsOk;
    FramesKeepOk(child, c, if f.Hello? || f.Call? then 0 else f.id, if f.Prepare? then f.epoch else 0);
    if f.Commit? {
      CommitKeepsOk(child, f.id);
    }
  }

  lemma HeadFacts(server: Server, child: Child, conn: Conn, c: nat)
    requires ConnOk(server, child, conn, c) && conn.childOpen && conn.down != []
    ensures child.upstream == Some(c)
    ensures match conn.down[0]
            case Prepare(id, epoch) => id in server.issued && server.issued[id] == epoch
            case Commit(id) => id in server.committed
            case _ => true
  {
    assert conn.down[0] in conn.down;
  }

  lemma CommittedFacts(server: Server, id: nat)
    requires ServerOk(server) && id in server.committed
    ensures id in server.issued && server.issued[id] in server.installed
  {
  }

  lemma HandledLinked(s: State, s': State, c: nat)
    requires Inv(s) && c in s.conns && s.conns[c].childOpen && s.conns[c].down != []
    requires s' == ChildReceives(s, c)
    ensures ChildLinked(s', s.conns[c].child)
    ensures s'.children[s.conns[c].child].upstream == Some(c)
  {
    hide ServerOk, ConnOk, ChildOk, Handled, Replied, OpenIdsOk, ParticipantsOk;
    var conn := s.conns[c];
    HeadFacts(s.server, s.children[conn.child], conn, c);
    HandledChild(s.children[conn.child], c, conn.down[0]);
    RepliedKeeps(s.children[conn.child], conn.(down := conn.down[1..]), conn.down[0]);
    if conn.down[0].Commit? {
      CommittedFacts(s.server, conn.down[0].id);
    }
  }

  /** The child acts on its own; if that sends a vote, it goes out on the operation's link. */
  lemma VoteSentOk(server: Server, child: Child, conn: Conn, c: nat, id: nat, ok: bool)
    requires ConnOk(server, child, conn, c) && id in server.issued
    requires ok ==> Awaits(child, c, id)
    ensures ConnOk(server, child, PushUp(conn, Vote(id, ok)), c)
  {
    var conn' := PushUp(conn, Vote(id, ok));
    assert forall f :: f in conn'.up ==> f in conn.up || f == Vote(id, ok);
  }

  lemma OwnStepContinues(k: Child, own: Own)
    requires ChildOk(k) && CanDo(k, own)
    ensures Continues(k, Do(k, own)) && ChildOk(Do(k, own))
    ensures VoteOf(k, own) == Some(true) ==> Awaits(Do(k, own), k.op.value.link, k.op.value.id)
    ensures VoteOf(k, own).Some? ==> k.op.Some?
    ensures Do(k, own).installs == k.installs
    ensures Do(k, own).op.Some? ==> Do(k, own).op.value.epoch == k.op.value.epoch
  {
    OwnStepsKeepOk(k, own);
  }

  lemma ChildActsConns(s: State, k: nat, own: Own, c: nat)
    requires Inv(s) && k in s.children && CanDo(s.children[k], own) && c in s.conns
    ensures var s' := ChildActs(s, k, own);
            && s'.conns[c] == s.conns[c].(up := s'.conns[c].up)
            && ConnOk(s'.server, s'.children[s.conns[c].child], s'.conns[c], c)
  {
    hide ServerOk, ConnOk, ChildOk, Do, CanDo, VoteOf, OpenIdsOk, ParticipantsOk;
    var s' := ChildActs(s, k, own);
    var child := s.children[k];
    OwnStepContinues(child, own);
    if s.conns[c].child == k {
      ChildContinues(s.server, child, s'.children[k], s.conns[c], c);
    }
    if s'.conns[c] != s.conns[c] {
      VoteSentOk(s.server, s'.children[k], s.conns[c], c, child.op.value.id, VoteOf(child, own).value);
    }
  }

  lemma OpenIdsSame(s: State, s': State)
    requires OpenIdsOk(s) && s'.conns.Keys == s.conns.Keys && s'.server == s.server
    requires forall c :: c in s.conns ==> s'.conns[c].recon == s.conns[c].recon
    ensures OpenIdsOk(s')
  {
    assert forall c :: c in s.conns ==> OpenId(s'.conns[c]) == OpenId(s.conns[c]);
    hide OpenId, Decided;
  }

  lemma ChildActsKeepsInv(s: State, k: nat, own: Own)
    requires Inv(s) && k in s.children && CanDo(s.children[k], own)
    ensures Inv(ChildActs(s, k, own))
  {
    hide ServerOk, ConnOk, ChildOk, Do, CanDo, VoteOf, PushUp, OpenIdsOk;
    var s' := ChildActs(s, k, own);
    OwnStepContinues(s.children[k], own);
    forall c | c in s'.conns
      ensures s'.conns[c].child in s'.children && s'.conns[c] == s.conns[c].(up := s'.conns[c].up)
      ensures ConnOk(s'.server, s'.children[s'.conns[c].child], s'.conns[c], c)
    {
      hide ChildLinked, ParticipantsOk;
      ChildActsConns(s, k, own, c);
    }
    OpenIdsSame(s, s');
    forall j | j in s'.children
      ensures ChildLinked(s', j)
    {
      if j != k {
        ChildStays(s, s', j);
      }
    }
  }
}
