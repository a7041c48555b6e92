/** Runs of the cluster that end as they should: a reload with a participant, one that is refused, a reconciliation. */
module ClusterRuns {
  import opened Wrappers
  import opened ChildReload
  import opened Cluster
  import opened ClusterInvariant
  import opened ClusterSafety

  lemma {:induction false} OneMore(s: State, steps: seq<Step>, step: Step)
    requires Legal(s, steps) && Enabled(After(s, steps), step)
    ensures Legal(s, steps + [step]) && After(s, steps + [step]) == Next(After(s, steps), step)
    decreases |steps|
  {
    hide Enabled, Next;
    if steps == [] {
      Ends(s, step);
      assert steps + [step] == [step];
    } else {
      OneMore(Next(s, steps[0]), steps[1..], step);
      assert steps + [step] == [steps[0]] + (steps[1..] + [step]);
      Prepends(s, steps[0], steps[1..] + [step]);
    }
  }

  predicate Leads(s: State, step: Step, s': State) { Enabled(s, step) && Next(s, step) == s' }

  lemma Extends(s: State, step: Step, s': State)
    requires Reached(s) && Leads(s, step, s')
    ensures Reached(s')
  {
    hide Enabled, Next, Legal;
    var steps :| Legal(Init, steps) && After(Init, steps) == s;
    OneMore(Init, steps, step);
    assert Legal(Init, steps + [step]) && After(Init, steps + [step]) == s';
  }

  // ---------------------------------------------------------------- a commit needs every vote

  /**
   * In every run, when the server can commit, every participant whose end of the link is open has prepared that very
   * reload, said so, and waits: nobody is committed who did not vote yes.
   */
  lemma CommitsHaveEveryVote(s: State, c: nat)
    requires Reached(s) && Enabled(s, CommitAll) && c in s.server.reload.value.participants
    ensures c in s.conns && s.conns[c].child in s.children && s.server.reload.value.id.Some?
    ensures s.conns[c].childOpen ==> Awaits(s.children[s.conns[c].child], c, s.server.reload.value.id.value)
  {
    ReachedIsSound(s);
    assert s.server.reload.value.id.Some? && s.server.reload.value.settled[c] by {
      hide Reached, Inv, Next;
    }
    hide Reached, Enabled, ServerOk, ConnOk, ChildrenOk, OpenIdsOk;
    GoodVote(s.server, s.children[s.conns[c].child], s.conns[c], c);
  }

  lemma GoodVote(server: Server, child: Child, conn: Conn, c: nat)
    requires ConnOk(server, child, conn, c) && server.reload.Some? && server.reload.value.id.Some?
    requires c in server.reload.value.participants && c in server.reload.value.settled && server.reload.value.settled[c]
    ensures conn.childOpen ==> Awaits(child, c, server.reload.value.id.value)
  {
    hide FramesOk, VotesOk, PeerOk, CallsOk;
  }

  // ---------------------------------------------------------------- one child

  const Linked: Child := FreshChild.(upstream := Some(0))

  const Server0: Server := Server(1, 1, 0, None, false, map[], {}, {}, {1}, {})

  const Greeted: Server := Server0.(stepped := {(0, 1)})

  const Synced: Conn := Conn(0, true, true, true, Some(1), {}, Idle, [], [])

  function One(server: Server, child: Child, conn: Conn): State { State(server, map[0 := child], map[0 := conn]) }

  /** A child has said hello, and is in step. */
  lemma InStep()
    ensures Reached(One(Greeted, Linked, Synced))
  {
    var s0 := Init.(children := map[0 := FreshChild]);
    var s1 := One(Server0, Linked, Conn(0, true, true, false, None, {}, Idle, [], [Hello(1)]));
    assert Legal(Init, []) && After(Init, []) == Init;
    assert Leads(Init, NewChild(0), s0);
    assert Leads(s0, Connect(0, 0), s1);
    HelloArrives(s1);
    hide Leads, Legal, After;
    Extends(Init, NewChild(0), s0);
    Extends(s0, Connect(0, 0), s1);
    Extends(s1, RecvUp(0), One(Greeted, Linked, Synced));
  }

  lemma HelloArrives(s: State)
    requires s == One(Server0, Linked, Conn(0, true, true, false, None, {}, Idle, [], [Hello(1)]))
    ensures Leads(s, RecvUp(0), One(Greeted, Linked, Synced))
  {
    assert [Hello(1)][1..] == [];
    assert s.conns[0].up[0] == Hello(1);
    assert PopUp(s, 0) == One(Server0, Linked, Conn(0, true, true, false, None, {}, Idle, [], []));
  }

  /** The server's reload of that child, with what is known of modules, vote and its own prepare. */
  function Reloading(id: Option<nat>, local: Local, settled: map<nat, bool>): Server {
    Greeted.(reload := Some(Reload(2, {0}, id, local, settled)), reloadSeq := if id.Some? then 1 else 0,
             issued := if id.Some? then map[1 := 2] else map[], epochSeq := if local == Running then 1 else 2)
  }

  function Asked0(down: seq<Frame>, up: seq<Frame>): Conn { Synced.(votes := {1}, down := down, up := up) }

  lemma Asks()
    ensures Leads(One(Greeted, Linked, Synced), StartReload, One(Reloading(None, Running, map[]), Linked, Synced))
    ensures Leads(One(Reloading(None, Running, map[]), Linked, Synced), LoadDone,
                  One(Reloading(Some(1), Running, map[]), Linked, Asked0([Prepare(1, 2)], [])))
  {
    assert Participants(One(Greeted, Linked, Synced).conns) == {0};
    var s := One(Reloading(None, Running, map[]), Linked, Synced);
    assert AskVote(Synced, 1, 2) == Asked0([Prepare(1, 2)], []);
    assert AskAll(s).conns == map[0 := Asked0([Prepare(1, 2)], [])];
  }

  /** The child's operation of that reload. */
  function Works(phase: Phase, loaded: Option<nat>): Child {
    Linked.(slot := true, op := Some(Op(1, 2, 0, phase, true, false, loaded)),
            pending := if loaded.Some? then Some(2) else None)
  }

  function AtWork(child: Child): State { One(Reloading(Some(1), Running, map[]), child, Asked0([], [])) }

  lemma Receives1()
    ensures Leads(One(Reloading(Some(1), Running, map[]), Linked, Asked0([Prepare(1, 2)], [])), RecvDown(0),
                  AtWork(Works(Loading, None)))
  {
    assert [Prepare(1, 2)][1..] == [];
    assert Asked0([Prepare(1, 2)], []).down[0] == Prepare(1, 2);
  }

  lemma AsksTheChild()
    ensures Reached(AtWork(Works(Loading, None)))
  {
    InStep();
    Asks();
    Receives1();
    hide Leads, Reached, Linked, Synced, Greeted;
    var s0 := One(Greeted, Linked, Synced);
    var s1 := One(Reloading(None, Running, map[]), Linked, Synced);
    var s2 := One(Reloading(Some(1), Running, map[]), Linked, Asked0([Prepare(1, 2)], []));
    Extends(s0, StartReload, s1);
    Extends(s1, LoadDone, s2);
    Extends(s2, RecvDown(0), AtWork(Works(Loading, None)));
  }

  function Voted1(child: Child, ok: bool): State {
    One(Reloading(Some(1), Running, map[]), child, Asked0([], [Vote(1, ok)]))
  }

  lemma Prepares()
    ensures Leads(AtWork(Works(Loading, None)), ChildStep(0, ModulesLoaded(true)), AtWork(Works(Preparing, None)))
    ensures Leads(AtWork(Works(Preparing, None)), ChildStep(0, EpochAnnounced), AtWork(Works(Preparing, Some(0))))
    ensures Leads(AtWork(Works(Preparing, Some(0))), ChildStep(0, PrepareDone), Voted1(Works(Prepared, Some(0)), true))
    ensures Leads(AtWork(Works(Loading, None)), ChildStep(0, ModulesLoaded(false)), Voted1(Linked, false))
  {
    assert [] + [Vote(1, true)] == [Vote(1, true)];
    assert [] + [Vote(1, false)] == [Vote(1, false)];
  }

  function Counted(child: Child, local: Local, ok: bool): State {
    One(Reloading(Some(1), local, map[0 := ok]), child, Synced)
  }

  lemma Counts(child: Child, ok: bool)
    ensures Leads(Voted1(child, ok), RecvUp(0), Counted(child, Running, ok))
    ensures Leads(Counted(child, Running, ok), LocalReady, Counted(child, Ready, ok))
  {
    var s := Voted1(child, ok);
    assert [Vote(1, ok)][1..] == [] && s.conns[0].up[0] == Vote(1, ok);
    assert PopUp(s, 0) == One(Reloading(Some(1), Running, map[]), child, Asked0([], []));
    assert {1} - {1} == {};
    assert map[][0 := ok] == map[0 := ok];
  }

  const Committed: Server :=
    Server(2, 2, 1, None, false, map[1 := 2], {1}, {}, {1, 2}, {(0, 1), (0, 2)})

  const Told: State := One(Committed, Works(Prepared, Some(0)), Synced.(peerEpoch := Some(2), down := [Commit(1)]))

  const Done: State := One(Committed, Linked.(epoch := 2, installs := [Install(1, 2)]), Synced.(peerEpoch := Some(2)))

  lemma Commits1()
    ensures Leads(Counted(Works(Prepared, Some(0)), Ready, true), CommitAll, Told)
  {
    var s := Counted(Works(Prepared, Some(0)), Ready, true);
    assert (set c | c in s.server.reload.value.participants :: (c, 2)) == {(0, 2)};
    assert {(0, 1)} + {(0, 2)} == {(0, 1), (0, 2)};
    assert {1} + {2} == {1, 2} && {} + {1} == {1};
    assert TellCommit(Synced, 1, 2) == Synced.(peerEpoch := Some(2), down := [Commit(1)]);
    assert CommitReload(s).conns == Told.conns;
    assert CommitReload(s).server == Committed;
    assert AllSettled(s.server.reload.value) && AllGood(s.server.reload.value);
    hide CommitReload, AllSettled, AllGood;
  }

  lemma Installs1()
    ensures Leads(Told, RecvDown(0), Done)
  {
    assert [Commit(1)][1..] == [] && Told.conns[0].down[0] == Commit(1);
    assert [] + [Install(1, 2)] == [Install(1, 2)];
    assert ChildReceives(Told, 0) == Done;
    hide ChildReceives;
  }

  /** Asked, prepared, voted, committed: in the end server and child run epoch 2 and nothing is in flight. */
  lemma ParticipantCommits() returns (s: State)
    ensures Reached(s) && s.server.epoch == 2 && s.server.committed == {1} && s.server.aborted == {}
    ensures 0 in s.children && s.children[0].epoch == 2 && s.children[0].installs == [Install(1, 2)]
    ensures !s.children[0].failed && s.children[0].op.None? && !s.children[0].slot && s.children[0].pending.None?
    ensures 0 in s.conns && s.conns[0].synced && s.conns[0].down == s.conns[0].up == [] && s.conns[0].votes == {}
  {
    s := Done;
    assert Reached(s) by {
      var ready := Works(Prepared, Some(0));
      AsksTheChild();
      Prepares();
      Counts(ready, true);
      Commits1();
      Installs1();
      hide Leads, Reached, AtWork, Voted1, Counted, One, Works, Told, Done;
      Extends(AtWork(Works(Loading, None)), ChildStep(0, ModulesLoaded(true)), AtWork(Works(Preparing, None)));
      Extends(AtWork(Works(Preparing, None)), ChildStep(0, EpochAnnounced), AtWork(Works(Preparing, Some(0))));
      Extends(AtWork(Works(Preparing, Some(0))), ChildStep(0, PrepareDone), Voted1(ready, true));
      Extends(Voted1(ready, true), RecvUp(0), Counted(ready, Running, true));
      Extends(Counted(ready, Running, true), LocalReady, Counted(ready, Ready, true));
      Extends(Counted(ready, Ready, true), CommitAll, Told);
      Extends(Told, RecvDown(0), s);
    }
  }

  // ---------------------------------------------------------------- a refusal

  function Rolling(rolling: bool): Server {
    Server(1, 2, 1, None, rolling, map[1 := 2], {}, {1}, {1}, {(0, 1)})
  }

  const Refused: State := One(Rolling(true), Linked, Synced.(down := [Abort(1)]))

  lemma Aborts1()
    ensures Leads(Counted(Linked, Ready, false), AbortAll, Refused)
  {
    var s := Counted(Linked, Ready, false);
    assert {} - {1} == {} && {} + {1} == {1};
    assert TellAbort(Synced, 1) == Synced.(down := [Abort(1)]);
    assert AbortReload(s).conns == Refused.conns;
    assert AbortReload(s).server == Rolling(true);
    assert !s.server.reload.value.settled[0];
    assert AllSettled(s.server.reload.value) && !AllGood(s.server.reload.value);
    hide AbortReload, AllSettled, AllGood;
  }

  lemma Ignored1()
    ensures Leads(Refused, RecvDown(0), One(Rolling(true), Linked, Synced))
    ensures Leads(One(Rolling(true), Linked, Synced), RollbackDone, One(Rolling(false), Linked, Synced))
  {
    assert [Abort(1)][1..] == [] && Refused.conns[0].down[0] == Abort(1);
    assert ChildReceives(Refused, 0) == One(Rolling(true), Linked, Synced);
    hide ChildReceives;
  }

  /**
   * A child whose modules do not load votes no; the reload aborts, and both are as before and free for the next one.
   */
  lemma RefusalAborts() returns (s: State)
    ensures Reached(s) && s.server.epoch == 1 && s.server.aborted == {1} && s.server.committed == {}
    ensures 0 in s.children && s.children[0] == FreshChild.(upstream := Some(0))
    ensures 0 in s.conns && s.conns[0].synced && s.conns[0].down == s.conns[0].up == []
    ensures Enabled(s, StartReload)
  {
    s := One(Rolling(false), Linked, Synced);
    assert Reached(s) by {
      AsksTheChild();
      Prepares();
      Counts(Linked, false);
      Aborts1();
      Ignored1();
      hide Leads, Reached, AtWork, Voted1, Counted, One, Works, Refused;
      Extends(AtWork(Works(Loading, None)), ChildStep(0, ModulesLoaded(false)), Voted1(Linked, false));
      Extends(Voted1(Linked, false), RecvUp(0), Counted(Linked, Running, false));
      Extends(Counted(Linked, Running, false), LocalReady, Counted(Linked, Ready, false));
      Extends(Counted(Linked, Ready, false), AbortAll, Refused);
      Extends(Refused, RecvDown(0), One(Rolling(true), Linked, Synced));
      Extends(One(Rolling(true), Linked, Synced), RollbackDone, s);
    }
  }

  // ---------------------------------------------------------------- a reconciliation

  function Alone(id: Option<nat>, local: Local): State {
    State(Server0.(reload := Some(Reload(2, {}, id, local, map[])), reloadSeq := if id.Some? then 1 else 0,
                   issued := if id.Some? then map[1 := 2] else map[], epochSeq := if local == Running then 1 else 2),
          map[0 := FreshChild], map[])
  }

  /** The server in epoch 2, with reload 2 issued for a child that is behind or not. */
  function Ahead(asked: bool, committed: set<nat>, stepped: set<(nat, nat)>): Server {
    Server(2, 2, if asked then 2 else 1, None, false, if asked then map[1 := 2, 2 := 2] else map[1 := 2], committed, {},
           {1, 2}, stepped)
  }

  const Before: State := State(Ahead(false, {1}, {}), map[0 := FreshChild], map[])

  lemma ReloadsAlone()
    ensures Reached(Before)
  {
    var s0 := Init.(children := map[0 := FreshChild]);
    assert Legal(Init, []) && After(Init, []) == Init;
    assert Leads(Init, NewChild(0), s0);
    assert Participants(map[]) == {};
    assert Leads(s0, StartReload, Alone(None, Running));
    assert Leads(Alone(None, Running), LoadDone, Alone(Some(1), Running));
    assert Leads(Alone(Some(1), Running), LocalReady, Alone(Some(1), Ready));
    CommitsAlone();
    hide Leads, Legal, After, Alone;
    Extends(Init, NewChild(0), s0);
    Extends(s0, StartReload, Alone(None, Running));
    Extends(Alone(None, Running), LoadDone, Alone(Some(1), Running));
    Extends(Alone(Some(1), Running), LocalReady, Alone(Some(1), Ready));
    Extends(Alone(Some(1), Ready), CommitAll, Before);
  }

  lemma CommitsAlone()
    ensures Leads(Alone(Some(1), Ready), CommitAll, Before)
  {
    var s := Alone(Some(1), Ready);
    assert (set c | c in s.server.reload.value.participants :: (c, 2)) == {};
    assert {1} + {2} == {1, 2} && {} + {1} == {1};
    assert CommitReload(s).server == Ahead(false, {1}, {});
    assert CommitReload(s).conns == map[];
    assert AllSettled(s.server.reload.value) && AllGood(s.server.reload.value);
    hide CommitReload, AllSettled, AllGood;
  }

  /** The link of a child that is brought from epoch 1 to 2 by reload 2. */
  function Fenced(votes: set<nat>, recon: Recon, down: seq<Frame>, up: seq<Frame>): Conn {
    Conn(0, true, true, false, Some(1), votes, recon, down, up)
  }

  function Behind(child: Child, votes: set<nat>, recon: Recon, down: seq<Frame>, up: seq<Frame>): State {
    One(Ahead(true, {1}, {}), child, Fenced(votes, recon, down, up))
  }

  const Late: State := One(Ahead(false, {1}, {}), Linked, Conn(0, true, true, false, None, {}, Idle, [], [Hello(1)]))

  lemma Greets()
    ensures Leads(Before, Connect(0, 0), Late)
    ensures Leads(Late, RecvUp(0), Behind(Linked, {2}, Waiting(2, 2), [Prepare(2, 2)], []))
  {
    assert [Hello(1)][1..] == [] && Late.conns[0].up[0] == Hello(1);
    assert PopUp(Late, 0) == One(Ahead(false, {1}, {}), Linked, Conn(0, true, true, false, None, {}, Idle, [], []));
    assert map[1 := 2][2 := 2] == map[1 := 2, 2 := 2];
    assert {} + {2} == {2} && [] + [Prepare(2, 2)] == [Prepare(2, 2)];
  }

  function Works2(phase: Phase, loaded: Option<nat>): Child {
    Linked.(slot := true, op := Some(Op(2, 2, 0, phase, true, false, loaded)),
            pending := if loaded.Some? then Some(2) else None)
  }

  function Asked2(child: Child, up: seq<Frame>): State { Behind(child, {2}, Waiting(2, 2), [], up) }

  lemma Receives2()
    ensures Leads(Behind(Linked, {2}, Waiting(2, 2), [Prepare(2, 2)], []), RecvDown(0),
                  Asked2(Works2(Loading, None), []))
  {
    assert [Prepare(2, 2)][1..] == [];
    assert Behind(Linked, {2}, Waiting(2, 2), [Prepare(2, 2)], []).conns[0].down[0] == Prepare(2, 2);
  }

  lemma Loads2()
    ensures Leads(Asked2(Works2(Loading, None), []), ChildStep(0, ModulesLoaded(true)),
                  Asked2(Works2(Preparing, None), []))
  {
  }

  lemma Announces2()
    ensures Leads(Asked2(Works2(Preparing, None), []), ChildStep(0, EpochAnnounced),
                  Asked2(Works2(Preparing, Some(0)), []))
  {
  }

  lemma Prepares2()
    ensures Leads(Asked2(Works2(Preparing, Some(0)), []), ChildStep(0, PrepareDone),
                  Asked2(Works2(Prepared, Some(0)), [Vote(2, true)]))
  {
    assert [] + [Vote(2, true)] == [Vote(2, true)];
  }

  const Woken: State := Behind(Works2(Prepared, Some(0)), {}, Recon.Voted(2, 2), [], [])

  lemma Wakes()
    ensures Leads(Asked2(Works2(Prepared, Some(0)), [Vote(2, true)]), RecvUp(0), Woken)
  {
    var s := Asked2(Works2(Prepared, Some(0)), [Vote(2, true)]);
    assert [Vote(2, true)][1..] == [] && s.conns[0].up[0] == Vote(2, true);
    assert PopUp(s, 0) == Asked2(Works2(Prepared, Some(0)), []);
    assert {2} - {2} == {};
  }

  const Told2: State :=
    One(Ahead(true, {1, 2}, {(0, 2)}), Works2(Prepared, Some(0)),
        Conn(0, true, true, true, Some(2), {}, Idle, [Commit(2)], []))

  const Even: State :=
    One(Ahead(true, {1, 2}, {(0, 2)}), Linked.(epoch := 2, installs := [Install(2, 2)]),
        Conn(0, true, true, true, Some(2), {}, Idle, [], []))

  lemma Resumes()
    ensures Leads(Woken, ReconResume(0), Told2)
    ensures Leads(Told2, RecvDown(0), Even)
  {
    assert {1} + {2} == {1, 2} && {} + {(0, 2)} == {(0, 2)};
    assert [] + [Commit(2)] == [Commit(2)] && [Commit(2)][1..] == [] && Told2.conns[0].down[0] == Commit(2);
    assert CommitOne(Woken, 0)
        == One(Ahead(true, {1, 2}, {(0, 2)}), Works2(Prepared, Some(0)),
               Conn(0, true, true, false, Some(2), {}, Idle, [Commit(2)], []));
    assert [] + [Install(2, 2)] == [Install(2, 2)];
    assert ChildReceives(Told2, 0) == Even;
    hide ChildReceives, CommitOne;
  }

  /** A child that connects behind is fenced, brought to the server's epoch, and in step from then on. */
  lemma LateChildIsReconciled() returns (s: State)
    ensures Reached(s) && s.server.epoch == 2 && 0 in s.children && s.children[0].epoch == 2 && s.children[0].op.None?
    ensures s.children[0].installs == [Install(2, 2)] && 2 in s.server.committed && !s.children[0].failed
    ensures 0 in s.conns && s.conns[0].synced && s.conns[0].recon == Idle && s.conns[0].down == s.conns[0].up == []
  {
    s := Even;
    assert Reached(s) by {
      ReloadsAlone();
      Greets();
      Receives2();
      Loads2();
      Announces2();
      Prepares2();
      Wakes();
      Resumes();
      hide Leads, Reached, Behind, Asked2, Works2, Late, Before, Woken, Told2, Even;
      Extends(Before, Connect(0, 0), Late);
      Extends(Late, RecvUp(0), Behind(Linked, {2}, Waiting(2, 2), [Prepare(2, 2)], []));
      Extends(Behind(Linked, {2}, Waiting(2, 2), [Prepare(2, 2)], []), RecvDown(0), Asked2(Works2(Loading, None), []));
      Extends(Asked2(Works2(Loading, None), []), ChildStep(0, ModulesLoaded(true)),
              Asked2(Works2(Preparing, None), []));
      Extends(Asked2(Works2(Preparing, None), []), ChildStep(0, EpochAnnounced),
              Asked2(Works2(Preparing, Some(0)), []));
      Extends(Asked2(Works2(Preparing, Some(0)), []), ChildStep(0, PrepareDone),
              Asked2(Works2(Prepared, Some(0)), [Vote(2, true)]));
      Extends(Asked2(Works2(Prepared, Some(0)), [Vote(2, true)]), RecvUp(0), Woken);
      Extends(Woken, ReconResume(0), Told2);
      Extends(Told2, RecvDown(0), Even);
    }
  }
}
