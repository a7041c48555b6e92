/** What the cluster protocol guarantees in every run from the initial state. */
module ClusterSafety {
  import opened Wrappers
  import opened ChildReload
  import opened Cluster
  import opened ClusterInvariant

  ghost predicate Legal(s: State, steps: seq<Step>)
    decreases |steps|
  {
    steps == [] || (Enabled(s, steps[0]) && Legal(Next(s, steps[0]), steps[1..]))
  }

  ghost function After(s: State, steps: seq<Step>): State
    requires Legal(s, steps)
    decreases |steps|
  {
    if steps == [] then s else After(Next(s, steps[0]), steps[1..])
  }

  /** The first epoch is never forgotten. */
  ghost predicate Sound(s: State) { Inv(s) && 1 in s.server.installed }

  lemma StepKeepsInv(s: State, step: Step)
    requires Sound(s) && Enabled(s, step)
    ensures Inv(Next(s, step))
  {
    hide Inv;
    match step
    case NewChild(k) => assert Inv(s); NewChildKeepsInv(s, k);
    case Connect(k, c) => ConnectKeepsInv(s, k, c);
    case CloseServer(c) => ShutKeepsInv(s, c);
    case CloseChild(c) => CloseChildKeepsInv(s, c);
    case StartReload => StartKeepsInv(s);
    case LoadFails => LoadFailsKeepsInv(s);
    case LoadDone => AskAllKeepsInv(s);
    case LocalReady => LocalKeepsInv(s, Ready, true);
    case LocalFails(loaded) => LocalKeepsInv(s, Broken, loaded);
    case VoteDeadline(c, id) => SettleKeepsInv(s, c, id, false);
    case CommitAll => CommitReloadKeepsInv(s);
    case AbortAll => AbortReloadKeepsInv(s);
    case RollbackDone => RollbackKeepsInv(s);
    case ReconResume(c) => ResumeKeepsInv(s, c);
    case SendCall(c, epoch) => SendCallKeepsInv(s, c, epoch);
    case RecvUp(c) => ServerReceivesKeepsInv(s, c);
    case RecvDown(c) => ChildReceivesKeepsInv(s, c);
    case ChildStep(k, own) => ChildActsKeepsInv(s, k, own);
  }

  lemma InstalledGrows(s: State, step: Step)
    requires Enabled(s, step)
    ensures s.server.installed <= Next(s, step).server.installed
  {
    hide CanDo, Do, VoteOf, Handled, Replied, Shut, Settle, Greet, Count;
    match step
    case CloseServer(c) => ServerKeepsInstalled(s, c);
    case VoteDeadline(c, id) => ServerKeepsInstalled(s, c);
    case ReconResume(c) => ServerKeepsInstalled(s, c);
    case RecvUp(c) => ServerKeepsInstalled(PopUp(s, c), c);
    case _ =>
  }

  lemma ServerKeepsInstalled(s: State, c: nat)
    requires c in s.conns
    ensures Shut(s, c).server.installed == s.server.installed
    ensures forall id, ok :: Settle(s, c, id, ok).server.installed == s.server.installed
    ensures forall epoch :: Greet(s, c, epoch).server.installed == s.server.installed
  {
  }

  lemma {:induction false} SoundAlways(s: State, steps: seq<Step>)
    requires Sound(s) && Legal(s, steps)
    ensures Sound(After(s, steps))
    decreases |steps|
  {
    if steps != [] {
      StepKeepsInv(s, steps[0]);
      InstalledGrows(s, steps[0]);
      SoundAlways(Next(s, steps[0]), steps[1..]);
    }
  }

  // ---------------------------------------------------------------- epochs of reloads

  /** A reload whose own prepare runs takes the epoch after the last one loaded. */
  predicate SeqOk(server: Server) {
    server.reload.Some? ==>
      var reload := server.reload.value;
      if reload.local == Running then reload.epoch == server.epochSeq + 1
      else server.epochSeq <= reload.epoch <= server.epochSeq + 1
  }

  lemma StepKeepsSeq(s: State, step: Step)
    requires SeqOk(s.server) && Enabled(s, step)
    ensures SeqOk(Next(s, step).server) && s.server.epochSeq <= Next(s, step).server.epochSeq
  {
    hide CanDo, Do, VoteOf, Handled, Replied, Shut, Settle, Greet, Count, Broadcast, ShutServer, Reconcile, Resume,
      SeqOk;
    match step
    case CloseServer(c) => ServerKeepsSeq(s, c);
    case VoteDeadline(c, id) => ServerKeepsSeq(s, c);
    case ReconResume(c) => ResumeKeepsSeq(s, c);
    case RecvUp(c) => ServerKeepsSeq(PopUp(s, c), c);
    case _ => OtherStepsKeepSeq(s, step);
  }

  lemma OtherStepsKeepSeq(s: State, step: Step)
    requires SeqOk(s.server) && Enabled(s, step)
    requires !step.CloseServer? && !step.VoteDeadline? && !step.ReconResume? && !step.RecvUp?
    ensures SeqOk(Next(s, step).server) && s.server.epochSeq <= Next(s, step).server.epochSeq
  {
    hide CanDo, Do, VoteOf, Handled, Replied, Broadcast, Participants;
  }

  predicate SameEpochs(server: Server, server': Server) {
    && server'.epochSeq == server.epochSeq && (server'.reload.Some? <==> server.reload.Some?)
    && (server.reload.Some? ==> server'.reload.value.epoch == server.reload.value.epoch
                                && server'.reload.value.local == server.reload.value.local)
  }

  lemma ServerKeepsSeq(s: State, c: nat)
    requires c in s.conns && SeqOk(s.server)
    ensures SeqOk(Shut(s, c).server) && Shut(s, c).server.epochSeq == s.server.epochSeq
    ensures forall id, ok ::
            SeqOk(Settle(s, c, id, ok).server) && Settle(s, c, id, ok).server.epochSeq == s.server.epochSeq
    ensures forall epoch :: SeqOk(Greet(s, c, epoch).server) && Greet(s, c, epoch).server.epochSeq == s.server.epochSeq
  {
    assert SameEpochs(s.server, Shut(s, c).server);
    assert forall id, ok :: SameEpochs(s.server, Settle(s, c, id, ok).server);
    assert forall epoch :: SameEpochs(s.server, Greet(s, c, epoch).server);
    hide Shut, Settle, Greet;
  }

  lemma ResumeKeepsSeq(s: State, c: nat)
    requires c in s.conns && s.conns[c].recon.Voted? && SeqOk(s.server)
    ensures SeqOk(Resume(s, c).server) && Resume(s, c).server.epochSeq == s.server.epochSeq
  {
    assert SameEpochs(s.server, Resume(s, c).server);
    hide Resume;
  }

  lemma {:induction false} SeqRises(s: State, steps: seq<Step>)
    requires SeqOk(s.server) && Legal(s, steps)
    ensures SeqOk(After(s, steps).server) && s.server.epochSeq <= After(s, steps).server.epochSeq
    decreases |steps|
  {
    hide SeqOk, Next;
    if steps != [] {
      StepKeepsSeq(s, steps[0]);
      SeqRises(Next(s, steps[0]), steps[1..]);
    }
  }

  /**
   * An epoch that the server loaded, whether its own prepare then succeeded or failed and whatever became of the
   * reload, is taken by no later reload.
   */
  lemma LoadedEpochsAreNotReused(s: State, step: Step, steps: seq<Step>)
    requires SeqOk(s.server) && Enabled(s, step) && (step.LocalReady? || step == LocalFails(true))
    requires Legal(Next(s, step), steps) && Enabled(After(Next(s, step), steps), StartReload)
    ensures s.server.reload.Some? && Start(After(Next(s, step), steps)).server.reload.Some?
    ensures Start(After(Next(s, step), steps)).server.reload.value.epoch > s.server.reload.value.epoch
  {
    StepKeepsSeq(s, step);
    assert Next(s, step).server.epochSeq == s.server.reload.value.epoch;
    hide Next, SeqOk;
    SeqRises(Next(s, step), steps);
  }

  /** After an abort the next reload may start at once exactly if there is nothing of the server's own to roll back. */
  lemma AbortFreesTheSlotIff(s: State)
    requires Enabled(s, AbortAll)
    ensures Enabled(Next(s, AbortAll), StartReload) <==> s.server.reload.value.local == Broken
  {
  }

  // ---------------------------------------------------------------- reachable states

  /** The states some run from the initial one ends in. */
  ghost predicate Reached(s: State) {
    exists steps :: Legal(Init, steps) && After(Init, steps) == s
  }

  lemma ReachedIsSound(s: State)
    requires Reached(s)
    ensures Sound(s)
  {
    var steps :| Legal(Init, steps) && After(Init, steps) == s;
    SoundAlways(Init, steps);
  }

  // ---------------------------------------------------------------- epochs

  /**
   * In every run: a child runs an epoch the server installed, everything it installed came from a reload the server
   * committed and did not abort, with the epoch issued for that reload, and its epochs rise strictly.
   */
  lemma ChildrenFollowTheServer(s: State, k: nat)
    requires Reached(s) && k in s.children
    ensures var child := s.children[k];
            && child.epoch in s.server.installed && child.epoch <= s.server.epoch
            && (forall i :: 0 <= i < |child.installs| ==>
                  var install := child.installs[i];
                  && install.id in s.server.committed && install.id !in s.server.aborted
                  && install.epoch in s.server.installed
                  && 1 < install.epoch <= child.epoch
                  && (i + 1 < |child.installs| ==> install.epoch < child.installs[i + 1].epoch))
  {
    ReachedIsSound(s);
    var child := s.children[k];
    assert ChildLinked(s, k);
    forall i | 0 <= i < |child.installs|
      ensures child.installs[i].id in s.server.committed && child.installs[i].id !in s.server.aborted
      ensures child.installs[i].epoch in s.server.installed
      ensures 1 < child.installs[i].epoch <= child.epoch
      ensures i + 1 < |child.installs| ==> child.installs[i].epoch < child.installs[i + 1].epoch
    {
      assert child.installs[i] in child.installs;
      InstallsRise(child.installs, child.epoch, i);
    }
  }

  /**
   * A child's epoch moves only when it processes a commit frame; then it rises, to an epoch the server already runs.
   */
  lemma EpochMovesByCommit(s: State, step: Step, k: nat)
    requires Reached(s) && Enabled(s, step) && k in s.children
    ensures var s' := Next(s, step);
            k in s'.children &&
            (s'.children[k].epoch != s.children[k].epoch ==>
               && step.RecvDown? && s.conns[step.c].child == k && s.conns[step.c].down[0].Commit?
               && s.children[k].epoch < s'.children[k].epoch <= s.server.epoch
               && s'.children[k].epoch in s.server.installed)
  {
    ReachedIsSound(s);
    hide Reached, ConnOk, ServerOk, ChildLinked;
    if step.RecvDown? {
      CommitMoves(s, step.c, k);
    } else {
      OtherStepsKeepEpochs(s, step, k);
    }
  }

  lemma OtherStepsKeepEpochs(s: State, step: Step, k: nat)
    requires Enabled(s, step) && !step.RecvDown? && k in s.children
    ensures k in Next(s, step).children && Next(s, step).children[k].epoch == s.children[k].epoch
  {
    hide Do, VoteOf, CanDo, Push, PushUp, AskVote, Broadcast;
    if step.ChildStep? {
      OwnStepKeepsEpoch(s.children[step.k], step.own);
    }
  }

  lemma OwnStepKeepsEpoch(k: Child, own: Own)
    requires CanDo(k, own)
    ensures Do(k, own).epoch == k.epoch
  {
  }

  lemma CommitMoves(s: State, c: nat, k: nat)
    requires Inv(s) && c in s.conns && s.conns[c].childOpen && s.conns[c].down != [] && k in s.children
    ensures s.conns[c].child in s.children
    ensures var s' := ChildReceives(s, c);
            s'.children[k].epoch != s.children[k].epoch ==>
              && s.conns[c].child == k && s.conns[c].down[0].Commit?
              && s.children[k].epoch < s'.children[k].epoch <= s.server.epoch
              && s'.children[k].epoch in s.server.installed
  {
    hide ConnOk, ServerOk, OpenIdsOk, ParticipantsOk;
    if s.conns[c].child == k {
      HeadFacts(s.server, s.children[k], s.conns[c], c);
      if s.conns[c].down[0].Commit? {
        CommittedFacts(s.server, s.conns[c].down[0].id);
        InstalledBound(s.server);
      }
    }
  }

  lemma InstalledBound(server: Server)
    requires ServerOk(server)
    ensures forall e :: e in server.installed ==> e <= server.epoch
  {
  }

  // ---------------------------------------------------------------- commit frames and calls

  /**
   * In every run, a commit frame finds its child waiting for exactly that decision: no abort, prepare or other reload
   * overtook it. It installs the epoch of its reload unless an earlier, slower rollback cleared the pending epoch.
   */
  lemma CommitsFindTheirChild(s: State, c: nat, id: nat)
    requires Receives(s, c, Commit(id)) && Reached(s)
    ensures id in s.server.issued && Awaits(s.children[s.conns[c].child], c, id)
    ensures CommitOutcome(s.children[s.conns[c].child], ChildReceives(s, c).children[s.conns[c].child],
                          s.server.issued[id])
  {
    ReachedIsSound(s);
    hide Reached, ServerOk, OpenIdsOk, ParticipantsOk, FramesOk, VotesOk, AlignOk, PeerOk, CallsOk, ChildOk;
    HeadCommit(s.server, s.children[s.conns[c].child], s.conns[c], c);
  }

  /** Installed, exactly if every rollback that was running when the operation announced its epoch still is. */
  ghost predicate CommitOutcome(child: Child, child': Child, epoch: nat) {
    && child.op.Some? && child.op.value.loaded.Some? && child.rolling <= child.op.value.loaded.value
    && (if child.rolling == child.op.value.loaded.value
        then child.epoch < epoch == child'.epoch && child'.failed == child.failed
        else child'.failed && child'.epoch == child.epoch)
  }

  lemma HeadCommit(server: Server, child: Child, conn: Conn, c: nat)
    requires ConnOk(server, child, conn, c) && conn.childOpen && conn.down != [] && conn.down[0].Commit?
    requires ChildOk(child)
    requires child.op.Some? ==>
               child.op.value.id in server.issued && server.issued[child.op.value.id] == child.op.value.epoch
    ensures conn.down[0].id in server.issued && Awaits(child, c, conn.down[0].id)
    ensures CommitOutcome(child, Handled(child, c, conn.down[0]), server.issued[conn.down[0].id])
  {
    hide FramesOk, VotesOk, PeerOk, CallsOk;
    assert 0 <= 0 < |conn.down| && conn.down[0].Commit?;
    CommitInstallsIff(child, conn.down[0].id);
  }

  /**
   * In every run: when a call of a root of epoch `e` reaches a child over a link that was told to run `e` (as every
   * participant of the reload that installed `e` is), the child runs `e` or a later epoch, or its host has failed.
   */
  lemma CallsFindTheirEpoch(s: State, c: nat, epoch: nat)
    requires Receives(s, c, Call(epoch)) && Reached(s)
    requires (c, epoch) in s.server.stepped
    ensures s.children[s.conns[c].child].epoch >= epoch || s.children[s.conns[c].child].failed
  {
    ReachedIsSound(s);
    hide Reached, ServerOk, OpenIdsOk, ParticipantsOk, ChildrenOk, FramesOk, VotesOk, AlignOk, PeerOk, CallsOk;
    HeadCall(s.server, s.children[s.conns[c].child], s.conns[c], c);
  }

  /** The child of link `c` takes `frame` from its queue. */
  ghost predicate Receives(s: State, c: nat, frame: Frame) {
    c in s.conns && s.conns[c].childOpen && s.conns[c].down != [] && s.conns[c].down[0] == frame &&
    s.conns[c].child in s.children
  }

  lemma HeadCall(server: Server, child: Child, conn: Conn, c: nat)
    requires ConnOk(server, child, conn, c) && conn.childOpen && conn.down != [] && conn.down[0].Call?
    requires (c, conn.down[0].epoch) in server.stepped
    ensures child.epoch >= conn.down[0].epoch || child.failed
  {
    assert !CommitBefore(server, conn.down, 0, conn.down[0].epoch);
  }

  /**
   * In every run, the links in step with the server after a commit are exactly those of the participants, the links
   * that were synced when the reload began; any other link is sent nothing, and what the server knew of it is older.
   */
  lemma InStepAfterCommitIff(s: State, c: nat)
    requires Reached(s) && Enabled(s, CommitAll) && c in s.conns
    ensures var s' := Next(s, CommitAll);
            && ((c, s'.server.epoch) in s'.server.stepped <==> c in s.server.reload.value.participants)
            && (s'.conns[c].peerEpoch == Some(s'.server.epoch) <==> c in s.server.reload.value.participants)
            && (c !in s.server.reload.value.participants ==> s'.conns[c] == s.conns[c])
  {
    OnlyCommits(s);
    ReachedIsSound(s);
    KnownEpochIsOld(s, c);
    hide Reached, Inv, Enabled, Next, CommitReload;
    CommitSteps(s, c);
  }

  lemma OnlyCommits(s: State)
    requires Enabled(s, CommitAll)
    ensures s.server.reload.Some? && s.server.reload.value.id.Some? && Next(s, CommitAll) == CommitReload(s)
  {
    hide CommitReload;
  }

  lemma CommitSteps(s: State, c: nat)
    requires s.server.reload.Some? && s.server.reload.value.id.Some? && c in s.conns
    requires (c, s.server.reload.value.epoch) !in s.server.stepped
    requires s.conns[c].peerEpoch != Some(s.server.reload.value.epoch)
    ensures var s' := CommitReload(s);
            && s'.server.epoch == s.server.reload.value.epoch && c in s'.conns
            && ((c, s'.server.epoch) in s'.server.stepped <==> c in s.server.reload.value.participants)
            && (s'.conns[c].peerEpoch == Some(s'.server.epoch) <==> c in s.server.reload.value.participants)
            && (c !in s.server.reload.value.participants ==> s'.conns[c] == s.conns[c])
  {
  }

  lemma KnownEpochIsOld(s: State, c: nat)
    requires Inv(s) && c in s.conns && s.server.reload.Some?
    ensures (c, s.server.reload.value.epoch) !in s.server.stepped
    ensures s.conns[c].peerEpoch != Some(s.server.reload.value.epoch)
  {
    assert ConnOk(s.server, s.children[s.conns[c].child], s.conns[c], c);
    hide FramesOk, AlignOk, PeerOk, ChildrenOk, OpenIdsOk, ParticipantsOk;
  }

  /**
   * In every run, on a link open at both ends: what the server believes the child runs is what the child runs, or
   * what the one commit frame in flight will install (unless the child's host has failed).
   */
  lemma PeerEpochIsTrue(s: State, c: nat)
    requires Reached(s) && c in s.conns
    ensures var conn := s.conns[c];
            conn.child in s.children &&
            var child := s.children[conn.child];
            conn.serverOpen && conn.childOpen && conn.peerEpoch.Some? && !child.failed ==>
              && ((exists f :: f in conn.down && f.Commit?) || child.epoch == conn.peerEpoch.value)
              && (forall f :: f in conn.down && f.Commit? ==>
                    f.id in s.server.issued && s.server.issued[f.id] == conn.peerEpoch.value)
              && ((c, s.server.epoch) in s.server.stepped ==> conn.peerEpoch.value == s.server.epoch)
  {
    ReachedIsSound(s);
    hide Reached;
    assert ConnOk(s.server, s.children[s.conns[c].child], s.conns[c], c);
  }

  /**
   * A synced link is not always in step: a child that connects while a reload prepares is no participant, and stays
   * behind, with nothing in flight that would bring it along.
   */
  lemma SyncedChildLeftBehind()
    ensures var steps := LateChild();
            Legal(Init, steps) &&
            var s := After(Init, steps);
            && 0 in s.conns && 0 in s.children
            && s.conns[0].synced && s.conns[0].serverOpen && s.conns[0].childOpen
            && s.conns[0].down == [] && s.conns[0].up == [] && s.conns[0].recon == Idle
            && s.children[0].epoch == 1 && s.server.epoch == 2
  {
    hide Legal, After, Enabled, Next;
    LateSteps();
    Ends(LateState(4), CommitAll);
    Prepends(LateState(3), LocalReady, [CommitAll]);
    Prepends(LateState(2), RecvUp(0), [LocalReady, CommitAll]);
    Prepends(LateState(1), Connect(0, 0), [RecvUp(0), LocalReady, CommitAll]);
    Prepends(LateState(0), LoadDone, [Connect(0, 0), RecvUp(0), LocalReady, CommitAll]);
    LateBeginning();
    Prepends(Init.(children := map[0 := FreshChild]), StartReload,
             [LoadDone, Connect(0, 0), RecvUp(0), LocalReady, CommitAll]);
    Prepends(Init, NewChild(0), [StartReload, LoadDone, Connect(0, 0), RecvUp(0), LocalReady, CommitAll]);
    assert LateChild() == [NewChild(0)] + [StartReload, LoadDone, Connect(0, 0), RecvUp(0), LocalReady, CommitAll];
    assert LateChild()[1..] == [StartReload] + [LoadDone, Connect(0, 0), RecvUp(0), LocalReady, CommitAll];
    assert LateChild()[2..] == [LoadDone] + [Connect(0, 0), RecvUp(0), LocalReady, CommitAll];
    assert LateChild()[3..] == [Connect(0, 0)] + [RecvUp(0), LocalReady, CommitAll];
    assert LateChild()[4..] == [RecvUp(0)] + [LocalReady, CommitAll];
    assert LateChild()[5..] == [LocalReady] + [CommitAll];
  }

  function LateChild(): seq<Step> {
    [NewChild(0), StartReload, LoadDone, Connect(0, 0), RecvUp(0), LocalReady, CommitAll]
  }

  /** The states of that run, from the one in which the modules are loading. */
  function LateState(i: nat): State {
    var child := if i < 2 then FreshChild else FreshChild.(upstream := Some(0));
    var conn := Conn(0, true, true, i >= 3, if i >= 3 then Some(1) else None, {}, Idle, [],
                     if i >= 3 then [] else [Hello(1)]);
    var reload := Reload(2, {}, if i == 0 then None else Some(1), if i >= 4 then Ready else Running, map[]);
    var server := Server(1, if i >= 4 then 2 else 1, if i == 0 then 0 else 1, Some(reload), false,
                         if i == 0 then map[] else map[1 := 2], {}, {}, {1}, if i >= 3 then {(0, 1)} else {});
    State(server, map[0 := child], if i < 2 then map[] else map[0 := conn])
  }

  lemma LateBeginning()
    ensures Enabled(Init, NewChild(0)) && Next(Init, NewChild(0)) == Init.(children := map[0 := FreshChild])
    ensures var s := Init.(children := map[0 := FreshChild]);
            Enabled(s, StartReload) && Next(s, StartReload) == LateState(0)
  {
    assert Participants(map[]) == {};
  }

  lemma LateSteps()
    ensures Enabled(LateState(0), LoadDone) && Next(LateState(0), LoadDone) == LateState(1)
    ensures Enabled(LateState(1), Connect(0, 0)) && Next(LateState(1), Connect(0, 0)) == LateState(2)
    ensures Enabled(LateState(2), RecvUp(0)) && Next(LateState(2), RecvUp(0)) == LateState(3)
    ensures Enabled(LateState(3), LocalReady) && Next(LateState(3), LocalReady) == LateState(4)
    ensures Enabled(LateState(4), CommitAll)
    ensures var s := Next(LateState(4), CommitAll);
            && 0 in s.conns && 0 in s.children
            && s.conns[0].synced && s.conns[0].serverOpen && s.conns[0].childOpen
            && s.conns[0].down == [] && s.conns[0].up == [] && s.conns[0].recon == Idle
            && s.children[0].epoch == 1 && s.server.epoch == 2
  {
    assert [Hello(1)][1..] == [];
    assert LateState(2).conns[0].up == [Hello(1)];
    assert PopUp(LateState(2), 0).conns[0].up == [];
  }

  lemma Ends(s: State, step: Step)
    requires Enabled(s, step)
    ensures Legal(s, [step]) && After(s, [step]) == Next(s, step)
  {
    assert Legal(Next(s, step), []);
  }

  lemma Prepends(s: State, step: Step, rest: seq<Step>)
    requires Enabled(s, step) && Legal(Next(s, step), rest)
    ensures Legal(s, [step] + rest) && After(s, [step] + rest) == After(Next(s, step), rest)
  {
    assert ([step] + rest)[1..] == rest;
  }
}
