/**
 * The commit of a cluster reload, act by act: under one hold of the publication queue the epoch is published, then the
 * commit frames are sent, then what the epoch starts is started; what was enqueued meanwhile is delivered after that.
 */
module CommitFrames {
  import opened Cluster
  import opened ClusterSafety
  import opened Publications

  /** The link a numbered frame goes out on, and the frame. */
  type Numbering = nat -> (nat, Frame)

  function SendAll(frames: seq<nat>): seq<Act> {
    if frames == [] then [] else [Send(frames[0])] + SendAll(frames[1..])
  }

  /** `Reload.commit`: `publish`, the coordinator's callback, and `starts`. */
  function CommitBody(publish: seq<Act>, frames: seq<nat>, starts: seq<Act>): seq<Act> {
    publish + (SendAll(frames) + starts)
  }

  lemma {:induction false} ActsSum(a: seq<Act>, b: seq<Act>)
    ensures Sends(a + b) == Sends(a) + Sends(b) && Pushes(a + b) == Pushes(a) + Pushes(b)
  {
    if a == [] {
      assert a + b == b;
    } else {
      hide Sends, Pushes, RunsSend, Runs;
      ActsSum(a[1..], b);
      FirstAct(a, b);
      Publications.Joined(Sends([a[0]]), Sends(a[1..]), Sends(b));
      Publications.Joined(Pushes([a[0]]), Pushes(a[1..]), Pushes(b));
    }
  }

  lemma FirstAct(a: seq<Act>, b: seq<Act>)
    requires a != []
    ensures Sends(a) == Sends([a[0]]) + Sends(a[1..]) && Sends(a + b) == Sends([a[0]]) + Sends(a[1..] + b)
    ensures Pushes(a) == Pushes([a[0]]) + Pushes(a[1..]) && Pushes(a + b) == Pushes([a[0]]) + Pushes(a[1..] + b)
  {
    hide Sends, Pushes, RunsSend, Runs;
    RunsSplit(a);
    PushesSplit(a);
    assert (a + b)[1..] == a[1..] + b && (a + b)[0] == a[0];
    RunsSplit(a + b);
    PushesSplit(a + b);
  }

  lemma {:induction false} SendAllSends(frames: seq<nat>)
    ensures Sends(SendAll(frames)) == frames && Pushes(SendAll(frames)) == []
  {
    if frames != [] {
      SendAllSends(frames[1..]);
      assert SendAll(frames)[1..] == SendAll(frames[1..]);
    }
  }

  /** What is sent after the callback: by what starts, then by the held notifications and whatever they lead to. */
  function Later(publish: seq<Act>, starts: seq<Act>): seq<nat> {
    Sends(starts) + DeliverySends(Pushes(publish) + Pushes(starts))
  }

  method PublishEpoch(queue: PublicationQueue, publish: seq<Act>, frames: seq<nat>, starts: seq<Act>)
    requires queue.Valid() && !queue.Busy()
    modifies queue
    ensures queue.Valid() && !queue.Busy()
    ensures queue.sent == old(queue.sent) + (Sends(publish) + frames + Later(publish, starts))
  {
    var body := CommitBody(publish, frames, starts);
    BodySends(publish, frames, starts);
    hide Sends, Pushes, DeliverySends;
    queue.HoldPublications(body);
  }

  lemma BodySends(publish: seq<Act>, frames: seq<nat>, starts: seq<Act>)
    ensures var body := CommitBody(publish, frames, starts);
            Sends(body) + DeliverySends(Pushes(body)) == Sends(publish) + frames + Later(publish, starts)
  {
    ActsSum(publish, SendAll(frames) + starts);
    ActsSum(SendAll(frames), starts);
    SendAllSends(frames);
    hide Sends, Pushes, DeliverySends;
    assert [] + Pushes(starts) == Pushes(starts);
  }

  // ---------------------------------------------------------------- what a link carries

  /** The frames that go out on one link, in order. */
  function OnLink(number: Numbering, sent: seq<nat>, c: nat): seq<Frame> {
    if sent == [] then []
    else
      var last := number(sent[|sent| - 1]);
      OnLink(number, sent[..|sent| - 1], c) + (if last.0 == c then [last.1] else [])
  }

  lemma OnLinkSnoc(number: Numbering, sent: seq<nat>, frame: nat, c: nat)
    ensures OnLink(number, sent + [frame], c)
            == OnLink(number, sent, c) + (if number(frame).0 == c then [number(frame).1] else [])
  {
    assert (sent + [frame])[..|sent + [frame]| - 1] == sent;
  }

  lemma {:induction false} OnLinkSum(number: Numbering, a: seq<nat>, b: seq<nat>, c: nat)
    ensures OnLink(number, a + b, c) == OnLink(number, a, c) + OnLink(number, b, c)
    decreases |b|
  {
    if b == [] {
      assert a + b == a;
    } else {
      var rest, last := b[..|b| - 1], b[|b| - 1];
      assert a + b == (a + rest) + [last] && b == rest + [last];
      OnLinkSum(number, a, rest, c);
      OnLinkSnoc(number, a + rest, last, c);
      OnLinkSnoc(number, rest, last, c);
    }
  }

  /** The callback tells every participant, once. */
  ghost predicate Announces(number: Numbering, frames: seq<nat>, participants: set<nat>, id: nat) {
    forall c :: OnLink(number, frames, c) == if c in participants then [Commit(id)] else []
  }

  /** Publishing only installs: it calls nobody in the new epoch itself, though what it enqueues may. */
  predicate OnlyInstalls(number: Numbering, publish: seq<Act>, epoch: nat) {
    forall i | 0 <= i < |Sends(publish)| :: number(Sends(publish)[i]).1 != Call(epoch)
  }

  lemma {:induction false} NotOnLink(number: Numbering, sent: seq<nat>, c: nat, frame: Frame)
    requires forall i | 0 <= i < |sent| :: number(sent[i]).1 != frame
    ensures frame !in OnLink(number, sent, c)
    decreases |sent|
  {
    if sent != [] {
      NotOnLink(number, sent[..|sent| - 1], c, frame);
    }
  }

  /**
   * On the link of a participant the commit frame goes before every call of the new epoch, whatever the epoch starts
   * and whatever the held notifications lead to.
   */
  lemma CommitPrecedesCalls(number: Numbering, publish: seq<Act>, frames: seq<nat>, starts: seq<Act>,
                            participants: set<nat>, id: nat, epoch: nat, c: nat)
    requires Announces(number, frames, participants, id) && OnlyInstalls(number, publish, epoch) && c in participants
    ensures var link := OnLink(number, Sends(publish) + frames + Later(publish, starts), c);
            exists k | 0 <= k < |link| :: link[k] == Commit(id) && Call(epoch) !in link[..k]
  {
    var before, later := OnLink(number, Sends(publish), c), OnLink(number, Later(publish, starts), c);
    OnLinkSum(number, Sends(publish) + frames, Later(publish, starts), c);
    OnLinkSum(number, Sends(publish), frames, c);
    NotOnLink(number, Sends(publish), c, Call(epoch));
    hide OnLink, Sends, Later;
    var link := before + [Commit(id)] + later;
    assert OnLink(number, frames, c) == [Commit(id)];
    assert link == OnLink(number, Sends(publish) + frames + Later(publish, starts), c);
    assert link[|before|] == Commit(id) && link[..|before|] == before;
  }

  // ---------------------------------------------------------------- the commit as steps of the protocol

  /** What may be sent after the callback, as far as the protocol is concerned: calls on links that are not fenced. */
  predicate OnlyCalls(s: State, number: Numbering, sent: seq<nat>, epoch: nat) {
    forall i | 0 <= i < |sent| ::
      var (c, frame) := number(sent[i]);
      frame.Call? && frame.epoch <= epoch && c in s.conns && s.conns[c].synced
  }

  function CallSteps(number: Numbering, sent: seq<nat>): seq<Step>
    requires forall i | 0 <= i < |sent| :: number(sent[i]).1.Call?
  {
    if sent == [] then []
    else [SendCall(number(sent[0]).0, number(sent[0]).1.epoch)] + CallSteps(number, sent[1..])
  }

  /** `s'` is `s` with more frames on the links that are open on the server's end. */
  ghost predicate Carries(s: State, s': State, number: Numbering, sent: seq<nat>) {
    && s'.conns.Keys == s.conns.Keys
    && forall c | c in s.conns ::
         && s'.conns[c].serverOpen == s.conns[c].serverOpen && s'.conns[c].synced == s.conns[c].synced
         && (s.conns[c].serverOpen ==> s'.conns[c].down == s.conns[c].down + OnLink(number, sent, c))
  }

  lemma {:induction false} CallsAreSteps(s: State, number: Numbering, sent: seq<nat>, epoch: nat)
    requires OnlyCalls(s, number, sent, epoch) && epoch <= s.server.epoch
    ensures Legal(s, CallSteps(number, sent)) && Carries(s, After(s, CallSteps(number, sent)), number, sent)
    decreases |sent|
  {
    if sent == [] {
      assert CallSteps(number, sent) == [];
    } else {
      var (c, frame) := number(sent[0]);
      var step := SendCall(c, frame.epoch);
      var s1 := Next(s, step);
      FirstCall(s, number, sent, epoch);
      CallsAreSteps(s1, number, sent[1..], epoch);
      Prepends(s, step, CallSteps(number, sent[1..]));
      Together(number, s, s1, After(s1, CallSteps(number, sent[1..])), [sent[0]], sent[1..]);
      assert [sent[0]] + sent[1..] == sent;
    }
  }

  lemma FirstCall(s: State, number: Numbering, sent: seq<nat>, epoch: nat)
    requires OnlyCalls(s, number, sent, epoch) && epoch <= s.server.epoch && sent != []
    ensures var step := SendCall(number(sent[0]).0, number(sent[0]).1.epoch);
            && Enabled(s, step) && Carries(s, Next(s, step), number, [sent[0]])
            && OnlyCalls(Next(s, step), number, sent[1..], epoch) && epoch <= Next(s, step).server.epoch
  {
    assert number(sent[0]).1.Call?;
    var (c, frame) := number(sent[0]);
    var s' := Next(s, SendCall(c, frame.epoch));
    forall d | d in s.conns && s.conns[d].serverOpen
      ensures s'.conns[d].down == s.conns[d].down + OnLink(number, [sent[0]], d)
    {
      OnLinkSnoc(number, [], sent[0], d);
      assert [] + [sent[0]] == [sent[0]];
    }
  }

  lemma CommitCarries(s: State, number: Numbering, frames: seq<nat>)
    requires Enabled(s, CommitAll)
    requires Announces(number, frames, s.server.reload.value.participants, s.server.reload.value.id.value)
    ensures Carries(s, Next(s, CommitAll), number, frames)
  {
    forall c | c in s.conns && s.conns[c].serverOpen
      ensures Next(s, CommitAll).conns[c].down == s.conns[c].down + OnLink(number, frames, c)
    {
    }
  }

  /**
   * The whole synchronous commit is a run of the protocol, the step that installs and tells, then calls: afterwards
   * every open link carries exactly the frames that the callback, what starts, and the held notifications sent on it,
   * in order.
   */
  lemma CommitIsARun(s: State, number: Numbering, publish: seq<Act>, frames: seq<nat>, starts: seq<Act>)
    requires Enabled(s, CommitAll)
    requires Announces(number, frames, s.server.reload.value.participants, s.server.reload.value.id.value)
    requires OnlyCalls(s, number, Later(publish, starts), s.server.reload.value.epoch)
    ensures var steps := [CommitAll] + CallSteps(number, Later(publish, starts));
            Legal(s, steps) && Carries(s, After(s, steps), number, frames + Later(publish, starts))
  {
    var later, epoch := Later(publish, starts), s.server.reload.value.epoch;
    var s1 := Next(s, CommitAll);
    CommitCarries(s, number, frames);
    assert s1.server.epoch == epoch;
    assert OnlyCalls(s1, number, later, epoch);
    CallsAreSteps(s1, number, later, epoch);
    hide Later;
    Prepends(s, CommitAll, CallSteps(number, later));
    Together(number, s, s1, After(s1, CallSteps(number, later)), frames, later);
  }

  lemma Together(number: Numbering, s: State, s1: State, s2: State, a: seq<nat>, b: seq<nat>)
    requires Carries(s, s1, number, a) && Carries(s1, s2, number, b)
    ensures Carries(s, s2, number, a + b)
  {
    forall c | c in s.conns && s.conns[c].serverOpen
      ensures s2.conns[c].down == s.conns[c].down + OnLink(number, a + b, c) {
      OnLinkSum(number, a, b, c);
      hide OnLink;
      assert s.conns[c].down + OnLink(number, a, c) + OnLink(number, b, c)
          == s.conns[c].down + (OnLink(number, a, c) + OnLink(number, b, c));
    }
  }
}
