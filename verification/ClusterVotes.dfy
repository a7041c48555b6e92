/** Every vote the server awaits on an open link is on its way: no prepare is forgotten. */
module ClusterVotes {
  import opened Wrappers
  import opened ChildReload
  import opened Cluster
  import opened ClusterInvariant
  import opened ClusterSafety

  /** The child's operation for reload `id` of link `c`, which will vote. */
  predicate WillVote(child: Child, c: nat, id: nat) {
    child.op.Some? && child.op.value.id == id && child.op.value.link == c && !child.op.value.cancelled
    && child.op.value.phase != Prepared
  }

  predicate Asks(frames: seq<Frame>, id: nat) {
    exists i :: 0 <= i < |frames| && frames[i].Prepare? && frames[i].id == id
  }

  predicate Says(frames: seq<Frame>, id: nat) { Vote(id, true) in frames || Vote(id, false) in frames }

  /** The prepare is still in flight, or the child works on it, or the vote is in flight. */
  predicate OnItsWay(child: Child, conn: Conn, c: nat, id: nat) {
    Asks(conn.down, id) || WillVote(child, c, id) || Says(conn.up, id)
  }

  predicate NoneForgotten(child: Child, conn: Conn, c: nat) {
    conn.serverOpen && conn.childOpen ==> forall id | id in conn.votes :: OnItsWay(child, conn, c, id)
  }

  ghost predicate VotesAreComing(s: State) {
    forall c :: c in s.conns ==>
      s.conns[c].child in s.children && NoneForgotten(s.children[s.conns[c].child], s.conns[c], c)
  }

  // ---------------------------------------------------------------- steps of the server

  /** What was awaited and asked stays so; what is newly awaited is asked. */
  predicate Carries(conn: Conn, conn': Conn) {
    && conn'.child == conn.child
    && (conn'.serverOpen && conn'.childOpen ==>
          && conn.serverOpen && conn.childOpen
          && forall id | id in conn'.votes ::
               Asks(conn'.down, id)
               || (id in conn.votes && (Asks(conn.down, id) ==> Asks(conn'.down, id))
                   && (Says(conn.up, id) ==> Says(conn'.up, id))))
  }

  lemma CarriedOn(s: State, s': State)
    requires VotesAreComing(s) && s'.conns.Keys == s.conns.Keys && s'.children == s.children
    requires forall c :: c in s.conns ==> Carries(s.conns[c], s'.conns[c])
    ensures VotesAreComing(s')
  {
    hide Asks, Says;
    forall c | c in s'.conns ensures NoneForgotten(s'.children[s'.conns[c].child], s'.conns[c], c) {
      assert Carries(s.conns[c], s'.conns[c]);
      assert NoneForgotten(s.children[s.conns[c].child], s.conns[c], c);
    }
  }

  lemma Appended(frames: seq<Frame>, f: Frame, id: nat)
    ensures Asks(frames + [f], id) <==> Asks(frames, id) || (f.Prepare? && f.id == id)
    ensures Says(frames + [f], id) <==> Says(frames, id) || (f.Vote? && f.id == id)
  {
    var all := frames + [f];
    if Asks(frames, id) {
      var i :| 0 <= i < |frames| && frames[i].Prepare? && frames[i].id == id;
      assert all[i] == frames[i];
    }
    if f.Prepare? && f.id == id {
      assert all[|frames|] == f;
    }
    if f.Vote? {
      assert f == Vote(f.id, true) || f == Vote(f.id, false);
    }
  }

  lemma Popped(frames: seq<Frame>, id: nat)
    requires frames != []
    ensures Asks(frames, id) <==> Asks(frames[1..], id) || (frames[0].Prepare? && frames[0].id == id)
    ensures Says(frames, id) <==> Says(frames[1..], id) || (frames[0].Vote? && frames[0].id == id)
  {
    if Asks(frames, id) && !(frames[0].Prepare? && frames[0].id == id) {
      var i :| 0 <= i < |frames| && frames[i].Prepare? && frames[i].id == id;
      assert frames[1..][i - 1] == frames[i];
    }
    if Asks(frames[1..], id) {
      var i :| 0 <= i < |frames[1..]| && frames[1..][i].Prepare? && frames[1..][i].id == id;
      assert frames[i + 1] == frames[1..][i];
    }
    assert frames == [frames[0]] + frames[1..];
    if frames[0].Vote? {
      assert frames[0] == Vote(frames[0].id, true) || frames[0] == Vote(frames[0].id, false);
    }
  }

  lemma PushCarries(conn: Conn, conn': Conn, f: Frame)
    requires conn'.child == conn.child && conn'.votes <= conn.votes && conn'.up == conn.up
    requires conn'.serverOpen == conn.serverOpen && conn'.childOpen == conn.childOpen
    requires conn'.down == if conn.serverOpen then conn.down + [f] else conn.down
    ensures Carries(conn, conn')
  {
    forall id ensures Asks(conn.down + [f], id) <==> Asks(conn.down, id) || (f.Prepare? && f.id == id) {
      Appended(conn.down, f, id);
    }
    hide Asks, Says;
  }

  lemma AskCarries(conn: Conn, id: nat, epoch: nat)
    ensures Carries(conn, AskVote(conn, id, epoch))
  {
    forall other ensures Asks(conn.down + [Prepare(id, epoch)], other) <==> Asks(conn.down, other) || other == id {
      Appended(conn.down, Prepare(id, epoch), other);
    }
    hide Asks, Says;
  }

  lemma SettleCarries(s: State, c: nat, id: nat, ok: bool)
    requires c in s.conns
    ensures var s' := Settle(s, c, id, ok);
            && s'.conns.Keys == s.conns.Keys && s'.children == s.children && id !in s'.conns[c].votes
            && forall d :: d in s.conns ==> Carries(s.conns[d], s'.conns[d])
  {
    hide Asks, Says, AwaitedByReload, Count;
  }

  lemma ReconcileCarries(s: State, c: nat)
    requires c in s.conns
    ensures var s' := Reconcile(s, c);
            && s'.conns.Keys == s.conns.Keys && s'.children == s.children
            && forall d :: d in s.conns ==> Carries(s.conns[d], s'.conns[d])
  {
    var conn := s.conns[c];
    AskCarries(conn.(recon := Waiting(s.server.reloadSeq + 1, s.server.epoch)), s.server.reloadSeq + 1, s.server.epoch);
    hide Asks, Says, AskVote;
  }

  lemma ResumeCarries(s: State, c: nat)
    requires c in s.conns && s.conns[c].recon.Voted? && s.conns[c].votes == {}
    ensures var s' := Resume(s, c);
            && s'.conns.Keys == s.conns.Keys && s'.children == s.children
            && forall d :: d in s.conns ==> Carries(s.conns[d], s'.conns[d])
  {
    var s1 := if s.server.epoch == s.conns[c].recon.epoch then CommitOne(s, c) else AbortOne(s, c);
    ReconcileCarries(s1, c);
    hide Reconcile;
    assert s1.conns[c].votes == {};
    forall d | d in s.conns ensures Carries(s.conns[d], Resume(s, c).conns[d]) {
      assert Carries(s1.conns[d], Resume(s, c).conns[d]);
    }
  }

  lemma GreetCarries(s: State, c: nat, epoch: nat)
    requires c in s.conns && s.conns[c].votes == {}
    ensures var s' := Greet(s, c, epoch);
            && s'.conns.Keys == s.conns.Keys && s'.children == s.children
            && forall d :: d in s.conns ==> Carries(s.conns[d], s'.conns[d])
  {
    var s1 := s.(conns := s.conns[c := s.conns[c].(peerEpoch := Some(epoch))]);
    ReconcileCarries(s1, c);
    hide Reconcile;
    forall d | d in s.conns ensures Carries(s.conns[d], Greet(s, c, epoch).conns[d]) {
      assert Carries(s1.conns[d], Reconcile(s1, c).conns[d]);
    }
  }

  lemma BroadcastCarries(s: State, to: set<nat>, change: Conn -> Conn)
    requires forall c :: c in s.conns ==> Carries(s.conns[c], change(s.conns[c]))
    ensures forall c :: c in s.conns ==> Carries(s.conns[c], Broadcast(s.conns, to, change)[c])
  {
    hide Asks, Says;
    forall c | c in s.conns ensures Carries(s.conns[c], s.conns[c]) {
    }
  }

  lemma ReloadCarries(s: State, step: Step)
    requires Enabled(s, step) && (step.LoadDone? || step.CommitAll? || step.AbortAll?)
    ensures Next(s, step).conns.Keys == s.conns.Keys && Next(s, step).children == s.children
    ensures forall c :: c in s.conns ==> Carries(s.conns[c], Next(s, step).conns[c])
  {
    var reload := s.server.reload.value;
    var id := s.server.reloadSeq + 1;
    forall c | c in s.conns
      ensures Carries(s.conns[c], AskVote(s.conns[c], id, reload.epoch))
      ensures reload.id.Some? ==> Carries(s.conns[c], TellCommit(s.conns[c], reload.id.value, reload.epoch))
      ensures reload.id.Some? ==> Carries(s.conns[c], TellAbort(s.conns[c], reload.id.value))
    {
      AskCarries(s.conns[c], id, reload.epoch);
      if reload.id.Some? {
        PushCarries(s.conns[c], TellCommit(s.conns[c], reload.id.value, reload.epoch), Commit(reload.id.value));
        PushCarries(s.conns[c], TellAbort(s.conns[c], reload.id.value), Abort(reload.id.value));
      }
    }
    hide Carries, AllSettled, AllGood, AskVote, TellCommit, TellAbort;
    if step.LoadDone? {
      BroadcastCarries(s, reload.participants, (conn: Conn) => AskVote(conn, id, reload.epoch));
    } else if step.CommitAll? {
      BroadcastCarries(s, reload.participants, (conn: Conn) => TellCommit(conn, reload.id.value, reload.epoch));
    } else {
      BroadcastCarries(s, reload.participants, (conn: Conn) => TellAbort(conn, reload.id.value));
    }
  }

  // ---------------------------------------------------------------- what arrives

  /** A vote arrives: the one it answers is not awaited any more, and the others are still in flight. */
  lemma UpKeeps(s: State, c: nat)
    requires Inv(s) && VotesAreComing(s) && Enabled(s, RecvUp(c))
    ensures VotesAreComing(Next(s, RecvUp(c)))
  {
    UpFrames(s, c);
    hide Inv, VotesAreComing, Carries, PopUp, Greet, Settle;
    match s.conns[c].up[0] {
      case Hello(epoch) => HelloKeeps(s, c, epoch);
      case Vote(id, ok) => VoteArrives(s, c, id, ok);
    }
  }

  lemma HelloKeeps(s: State, c: nat, epoch: nat)
    requires VotesAreComing(s) && c in s.conns && s.conns[c].up != [] && s.conns[c].votes == {}
    ensures VotesAreComing(Greet(PopUp(s, c), c, epoch))
  {
    NothingLost(s, c);
    assert PopUp(s, c).conns[c].votes == {};
    hide VotesAreComing, Carries, PopUp, Greet;
    GreetCarries(PopUp(s, c), c, epoch);
    CarriedOn(PopUp(s, c), Greet(PopUp(s, c), c, epoch));
  }

  lemma VoteArrives(s: State, c: nat, id: nat, ok: bool)
    requires VotesAreComing(s) && c in s.conns && s.conns[c].up != [] && s.conns[c].up[0] == Vote(id, ok)
    ensures VotesAreComing(Settle(PopUp(s, c), c, id, ok))
  {
    assert PopUp(s, c).conns.Keys == s.conns.Keys && PopUp(s, c).children == s.children;
    hide VotesAreComing, Carries, PopUp, Settle;
    SettleCarries(PopUp(s, c), c, id, ok);
    VoteKeeps(s, c, id, Settle(PopUp(s, c), c, id, ok));
  }

  lemma UpFrames(s: State, c: nat)
    requires Inv(s) && c in s.conns && s.conns[c].up != []
    ensures s.conns[c].up[0].Hello? || s.conns[c].up[0].Vote?
    ensures s.conns[c].up[0].Hello? ==> s.conns[c].votes == {}
  {
    assert ConnOk(s.server, s.children[s.conns[c].child], s.conns[c], c) && s.conns[c].up[0] in s.conns[c].up;
    hide Inv, VotesOk, AlignOk, PeerOk, ClusterInvariant.CallsOk;
  }

  lemma NothingLost(s: State, c: nat)
    requires VotesAreComing(s) && c in s.conns && s.conns[c].up != [] && s.conns[c].votes == {}
    ensures VotesAreComing(PopUp(s, c))
  {
    hide OnItsWay;
    forall d | d in s.conns ensures NoneForgotten(s.children[s.conns[d].child], PopUp(s, c).conns[d], d) {
      assert NoneForgotten(s.children[s.conns[d].child], s.conns[d], d);
    }
  }

  lemma VoteKeeps(s: State, c: nat, id: nat, s': State)
    requires VotesAreComing(s) && c in s.conns && s.conns[c].up != [] && s.conns[c].up[0].Vote?
    requires id == s.conns[c].up[0].id && s'.conns.Keys == s.conns.Keys && s'.children == s.children
    requires id !in s'.conns[c].votes
    requires forall d :: d in s.conns ==> Carries(PopUp(s, c).conns[d], s'.conns[d])
    ensures VotesAreComing(s')
  {
    forall other ensures Says(s.conns[c].up, other) <==> Says(s.conns[c].up[1..], other) || other == id {
      Popped(s.conns[c].up, other);
    }
    hide Asks, Says;
    forall d | d in s'.conns ensures NoneForgotten(s'.children[s'.conns[d].child], s'.conns[d], d) {
      assert NoneForgotten(s.children[s.conns[d].child], s.conns[d], d);
      assert Carries(PopUp(s, c).conns[d], s'.conns[d]);
    }
  }

  /** An awaited id is not decided: no abort of it is in flight. */
  lemma AwaitedIsOpen(s: State, c: nat, id: nat)
    requires Inv(s) && c in s.conns && id in s.conns[c].votes
    ensures Abort(id) !in s.conns[c].down
  {
    assert ConnOk(s.server, s.children[s.conns[c].child], s.conns[c], c);
    assert OpenIdsOk(s) && ServerOk(s.server);
    hide Inv;
  }

  /**
   * One frame for the child: a prepare becomes its operation or is refused at once; nothing else ends one that votes.
   */
  lemma FrameKeeps(child: Child, conn: Conn, c: nat, id: nat)
    requires conn.serverOpen && conn.childOpen && conn.down != [] && OnItsWay(child, conn, c, id)
    requires conn.down[0] != Abort(id)
    ensures var f, rest := conn.down[0], conn.(down := conn.down[1..]);
            OnItsWay(Handled(child, c, f), Replied(child, rest, f), c, id)
  {
    var f := conn.down[0];
    Popped(conn.down, id);
    if f.Prepare? {
      Appended(conn.up, Vote(f.id, false), id);
    }
  }

  lemma DownKeeps(s: State, c: nat)
    requires Inv(s) && VotesAreComing(s) && Enabled(s, RecvDown(c))
    ensures VotesAreComing(Next(s, RecvDown(c)))
  {
    var s', k := Next(s, RecvDown(c)), s.conns[c].child;
    var conn := s.conns[c];
    forall d | d in s'.conns
      ensures s'.conns[d].child in s'.children && NoneForgotten(s'.children[s'.conns[d].child], s'.conns[d], d)
    {
      assert NoneForgotten(s.children[s.conns[d].child], s.conns[d], d);
      if d == c {
        LinkKeeps(s, c);
      } else if s.conns[d].child == k {
        OneUpstream(s, c, d);
      }
    }
  }

  lemma LinkKeeps(s: State, c: nat)
    requires Inv(s) && VotesAreComing(s) && Enabled(s, RecvDown(c))
    ensures var s' := Next(s, RecvDown(c));
            c in s'.conns && s'.conns[c].child in s'.children
            && NoneForgotten(s'.children[s'.conns[c].child], s'.conns[c], c)
  {
    hide Inv, VotesAreComing, Handled, Replied, OnItsWay, NoneForgotten;
    ComingOn(s, c);
    var conn, child := s.conns[c], s.children[s.conns[c].child];
    RepliedSame(child, conn.(down := conn.down[1..]), conn.down[0]);
    if conn.serverOpen {
      forall id | id in conn.votes
        ensures OnItsWay(Handled(child, c, conn.down[0]),
                         Replied(child, conn.(down := conn.down[1..]), conn.down[0]), c, id)
      {
        AwaitedIsOpen(s, c, id);
        FrameKeeps(child, conn, c, id);
      }
    }
    StaysOnTheWay(Handled(child, c, conn.down[0]), Replied(child, conn.(down := conn.down[1..]), conn.down[0]), c);
  }

  lemma ComingOn(s: State, c: nat)
    requires VotesAreComing(s) && c in s.conns
    ensures s.conns[c].child in s.children && NoneForgotten(s.children[s.conns[c].child], s.conns[c], c)
    ensures s.conns[c].serverOpen && s.conns[c].childOpen ==>
              forall id | id in s.conns[c].votes :: OnItsWay(s.children[s.conns[c].child], s.conns[c], c, id)
  {
  }

  lemma StaysOnTheWay(child: Child, conn: Conn, c: nat)
    requires conn.serverOpen && conn.childOpen ==> forall id | id in conn.votes :: OnItsWay(child, conn, c, id)
    ensures NoneForgotten(child, conn, c)
  {
  }

  lemma RepliedSame(child: Child, conn: Conn, f: Frame)
    ensures Replied(child, conn, f) == conn.(up := Replied(child, conn, f).up)
  {
  }

  lemma OneUpstream(s: State, c: nat, d: nat)
    requires Inv(s) && c in s.conns && d in s.conns && c != d && s.conns[d].child == s.conns[c].child
    requires s.conns[c].childOpen
    ensures !s.conns[d].childOpen
  {
    assert ConnOk(s.server, s.children[s.conns[c].child], s.conns[c], c);
    assert ConnOk(s.server, s.children[s.conns[d].child], s.conns[d], d);
  }

  // ---------------------------------------------------------------- steps of the child

  /** An operation that votes goes on until it does. */
  lemma ActKeeps(child: Child, own: Own, c: nat, id: nat)
    requires CanDo(child, own) && WillVote(child, c, id)
    ensures WillVote(Do(child, own), c, id) || VoteOf(child, own).Some?
  {
  }

  lemma ChildActsKeep(s: State, k: nat, own: Own)
    requires Inv(s) && VotesAreComing(s) && Enabled(s, ChildStep(k, own))
    ensures VotesAreComing(Next(s, ChildStep(k, own)))
  {
    var s', child := Next(s, ChildStep(k, own)), s.children[k];
    forall c | c in s'.conns
      ensures s'.conns[c].child in s'.children && NoneForgotten(s'.children[s'.conns[c].child], s'.conns[c], c)
    {
      ActsOnLink(s, k, own, c);
    }
  }

  lemma ActsOnLink(s: State, k: nat, own: Own, c: nat)
    requires VotesAreComing(s) && Enabled(s, ChildStep(k, own)) && c in s.conns
    ensures var s' := Next(s, ChildStep(k, own));
            c in s'.conns && s'.conns[c].child in s'.children
            && NoneForgotten(s'.children[s'.conns[c].child], s'.conns[c], c)
  {
    var s', child, conn := Next(s, ChildStep(k, own)), s.children[k], s.conns[c];
    assert NoneForgotten(s.children[conn.child], conn, c);
    if conn.child == k {
      forall id | OnItsWay(child, conn, c, id) && conn.serverOpen && conn.childOpen
        ensures OnItsWay(Do(child, own), s'.conns[c], c, id)
      {
        if VoteOf(child, own).Some? {
          Appended(conn.up, Vote(child.op.value.id, VoteOf(child, own).value), id);
        }
        if WillVote(child, c, id) {
          ActKeeps(child, own, c, id);
        }
      }
    }
    hide OnItsWay, Do, VoteOf, CanDo;
  }

  lemma OpenIsUpstream(s: State, c: nat)
    requires Inv(s) && c in s.conns
    ensures s.conns[c].child in s.children
    ensures s.conns[c].childOpen <==> s.children[s.conns[c].child].upstream == Some(c)
  {
    assert ConnOk(s.server, s.children[s.conns[c].child], s.conns[c], c);
  }

  /** A connection that opens or closes at the child concerns no other link that is open. */
  lemma EndsKeep(s: State, step: Step)
    requires Inv(s) && VotesAreComing(s) && Enabled(s, step) && (step.Connect? || step.CloseChild?)
    ensures VotesAreComing(Next(s, step))
  {
    var s' := Next(s, step);
    assert s'.children.Keys == s.children.Keys;
    assert step.Connect? ==> s'.conns.Keys == s.conns.Keys + {step.c} && s'.conns[step.c].child in s'.children
                             && s'.conns[step.c].votes == {};
    assert step.CloseChild? ==> s'.conns.Keys == s.conns.Keys;
    hide Inv, OnItsWay, Next;
    forall c | c in s'.conns
      ensures s'.conns[c].child in s'.children && NoneForgotten(s'.children[s'.conns[c].child], s'.conns[c], c)
    {
      if c in s.conns {
        EndsKeepLink(s, step, c);
      }
    }
  }

  lemma EndsKeepLink(s: State, step: Step, c: nat)
    requires Inv(s) && VotesAreComing(s) && Enabled(s, step) && (step.Connect? || step.CloseChild?) && c in s.conns
    ensures var s' := Next(s, step);
            c in s'.conns && s'.conns[c].child in s'.children
            && NoneForgotten(s'.children[s'.conns[c].child], s'.conns[c], c)
  {
    hide Inv, OnItsWay, VotesAreComing;
    ComingOn(s, c);
    OpenIsUpstream(s, c);
    if step.CloseChild? && c != step.c && s.conns[c].child == s.conns[step.c].child {
      OneUpstream(s, step.c, c);
    }
  }

  // ---------------------------------------------------------------- every step, every run

  lemma StepKeepsVotes(s: State, step: Step)
    requires Sound(s) && VotesAreComing(s) && Enabled(s, step)
    ensures VotesAreComing(Next(s, step))
  {
    hide Inv, VotesAreComing, Carries;
    match step
    case Connect(_, _) => EndsKeep(s, step);
    case CloseChild(_) => EndsKeep(s, step);
    case RecvUp(c) => UpKeeps(s, c);
    case RecvDown(c) => DownKeeps(s, c);
    case ChildStep(k, own) => ChildActsKeep(s, k, own);
    case LoadDone => ReloadCarries(s, step); CarriedOn(s, Next(s, step));
    case CommitAll => ReloadCarries(s, step); CarriedOn(s, Next(s, step));
    case AbortAll => ReloadCarries(s, step); CarriedOn(s, Next(s, step));
    case _ => OtherStepsKeepVotes(s, step);
  }

  lemma OtherStepsKeepVotes(s: State, step: Step)
    requires Sound(s) && VotesAreComing(s) && Enabled(s, step)
    requires !step.Connect? && !step.CloseChild? && !step.RecvUp? && !step.RecvDown? && !step.ChildStep?
             && !step.LoadDone? && !step.CommitAll? && !step.AbortAll?
    ensures VotesAreComing(Next(s, step))
  {
    hide Inv, Asks, Says;
    match step
    case CloseServer(c) => ShutKeeps(s, c);
    case VoteDeadline(c, id) => SettleCarries(s, c, id, false); CarriedOn(s, Next(s, step));
    case ReconResume(c) => NothingAwaited(s, c); ResumeCarries(s, c); CarriedOn(s, Next(s, step));
    case SendCall(c, epoch) => CallCarries(s, c, epoch); CarriedOn(s, Next(s, step));
    case NewChild(k) => KeptChildren(s, k);
    case StartReload =>
    case LoadFails =>
    case LocalReady =>
    case LocalFails(_) =>
    case RollbackDone =>
  }

  lemma KeptChildren(s: State, k: nat)
    requires VotesAreComing(s) && k !in s.children
    ensures VotesAreComing(Next(s, NewChild(k)))
  {
    forall c | c in s.conns
      ensures NoneForgotten(Next(s, NewChild(k)).children[s.conns[c].child], s.conns[c], c)
    {
      assert NoneForgotten(s.children[s.conns[c].child], s.conns[c], c);
    }
  }

  lemma ShutKeeps(s: State, c: nat)
    requires VotesAreComing(s) && c in s.conns
    ensures VotesAreComing(Shut(s, c))
  {
  }

  lemma NothingAwaited(s: State, c: nat)
    requires Inv(s) && c in s.conns && s.conns[c].recon.Voted?
    ensures s.conns[c].votes == {}
  {
    assert ConnOk(s.server, s.children[s.conns[c].child], s.conns[c], c);
  }

  lemma CallCarries(s: State, c: nat, epoch: nat)
    requires c in s.conns
    ensures SendCallOn(s, c, epoch).conns.Keys == s.conns.Keys && SendCallOn(s, c, epoch).children == s.children
    ensures forall d :: d in s.conns ==> Carries(s.conns[d], SendCallOn(s, c, epoch).conns[d])
  {
    PushCarries(s.conns[c], Push(s.conns[c], Call(epoch)), Call(epoch));
    hide Asks, Says;
  }

  lemma {:induction false} VotesAlwaysCome(s: State, steps: seq<Step>)
    requires Sound(s) && VotesAreComing(s) && Legal(s, steps)
    ensures VotesAreComing(After(s, steps))
    decreases |steps|
  {
    hide Sound, VotesAreComing, Next;
    if steps != [] {
      StepKeepsVotes(s, steps[0]);
      StaysSound(s, steps[0]);
      VotesAlwaysCome(Next(s, steps[0]), steps[1..]);
    }
  }

  lemma StaysSound(s: State, step: Step)
    requires Sound(s) && Enabled(s, step)
    ensures Sound(Next(s, step))
  {
    hide Inv;
    StepKeepsInv(s, step);
    InstalledGrows(s, step);
    hide Next;
  }

  /**
   * In every run, a vote that is awaited on an open link is on its way: the prepare is in flight, or the child's
   * operation for it goes on uncancelled, or the vote is in flight. No reload waits for a vote that nobody will send.
   */
  lemma NoVoteIsForgotten(s: State, c: nat, id: nat)
    requires Reached(s) && c in s.conns && s.conns[c].serverOpen && s.conns[c].childOpen && id in s.conns[c].votes
    ensures s.conns[c].child in s.children && OnItsWay(s.children[s.conns[c].child], s.conns[c], c, id)
  {
    var steps :| Legal(Init, steps) && After(Init, steps) == s;
    InitIsSound();
    hide Sound;
    VotesAlwaysCome(Init, steps);
  }

  lemma InitIsSound()
    ensures Sound(Init) && VotesAreComing(Init)
  {
  }
}
