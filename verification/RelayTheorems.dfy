/** What relaying promises: tables mutually inverse, one settlement a call, nothing left of a closed relay. */
module RelayTheorems {
  import opened Wrappers
  import opened Relays
  import opened RelayInvariant
  import opened RelayClosing
  import opened RelaySafety

  /** A run of legal steps leads from `from` to `t`. */
  ghost predicate RunsTo(steps: seq<Step>, from: Tables, t: Tables)
    decreases |steps|
  {
    if steps == [] then t == from
    else
      var rest, last := steps[..|steps| - 1], steps[|steps| - 1];
      exists t0 :: RunsTo(rest, from, t0) && Follows(t0, last, t)
  }

  ghost predicate Follows(t0: Tables, step: Step, t: Tables) {
    Legal(t0, step) && Possible(t0, step) && t == Apply(t0, step)
  }

  /** In every run the tables of both links stay inverse to the relays and calls they find. */
  lemma {:induction false} AlwaysSafe(steps: seq<Step>, from: Tables, t: Tables)
    requires RunsTo(steps, from, t) && Safe(from)
    ensures Safe(t)
    decreases |steps|
  {
    hide Safe, Legal, Possible, Apply;
    if steps == [] {
    } else {
      var t0 :| RunsTo(steps[..|steps| - 1], from, t0) && Follows(t0, steps[|steps| - 1], t);
      AlwaysSafe(steps[..|steps| - 1], from, t0);
      StepKeepsSafe(t0, steps[|steps| - 1]);
    }
  }

  lemma StartsSafe()
    ensures Safe(NoTables)
  {
  }

  /** So they are on every host, whatever it was asked to relay since it started. */
  lemma HostsAreSafe(steps: seq<Step>, t: Tables)
    requires RunsTo(steps, NoTables, t)
    ensures Safe(t)
  {
    StartsSafe();
    hide Safe;
    AlwaysSafe(steps, NoTables, t);
  }

  // ---------------------------------------------------------------- one settlement a call

  lemma {:induction false} CancelAllLogs(t: Tables, cs: seq<nat>, forward: bool)
    requires Found(t) && forall c :: c in cs ==> c in t.calls
    ensures t.settlements <= CancelAll(t, cs, forward).settlements
  {
    if cs == [] {
    } else {
      CancelAllLogs(t, cs[..|cs| - 1], forward);
    }
  }

  lemma {:induction false} UnsubscribeAllLogs(t: Tables, r: nat, ss: seq<nat>, forward: bool)
    requires r in t.relays
    ensures UnsubscribeAll(t, r, ss, forward).settlements == t.settlements
  {
    if ss == [] {
    } else {
      UnsubscribeAllLogs(t, r, ss[..|ss| - 1], forward);
    }
  }

  lemma {:induction false} RejectAllLogs(t: Tables, cs: seq<nat>)
    requires forall c :: c in cs ==> c in t.calls
    ensures t.settlements <= RejectAll(t, cs).settlements
  {
    if cs == [] {
    } else {
      RejectAllLogs(t, cs[..|cs| - 1]);
    }
  }

  lemma {:induction false} ForwardAllLogs(t: Tables, r: nat, ss: seq<nat>)
    requires r in t.relays && t.relays[r].down.Some?
    ensures ForwardAll(t, r, ss).settlements == t.settlements
  {
    if ss == [] {
    } else {
      ForwardAllLogs(t, r, ss[..|ss| - 1]);
    }
  }

  lemma CloseLogs(t: Tables, r: nat, releaseDown: bool, notify: bool, order: Order)
    requires Closable(t, r, order)
    ensures t.settlements <= Close(t, r, releaseDown, notify, order).settlements
  {
    if !t.relays[r].closed {
      var relay, t0 := t.relays[r], Shut(t, r);
      CancelAllLogs(t0, order.calls, releaseDown);
      UnsubscribeAllLogs(CancelAll(t0, order.calls, releaseDown), r, order.subs, releaseDown);
      var t1 := Undo(t0, r, releaseDown, order.calls, order.subs);
      assert t0.settlements == t.settlements;
      hide CancelAll, UnsubscribeAll, RejectAll, Shut, Found, Visits;
      RejectAllLogs(t1, order.waiting);
      RejectAllLogs(if relay.down.Some? && releaseDown then Put(t1, relay.down.value, ReleaseFrame(relay.downId))
                    else t1,
                    order.waiting);
    }
  }

  lemma FinishLogs(t: Tables, c: nat, outcome: Outcome)
    requires c in t.calls && t.calls[c].relay in t.relays
    ensures t.settlements <= Finish(t, c, outcome).settlements
  {
  }

  lemma GoOnLogs(t: Tables, c: nat)
    requires c in t.calls && t.calls[c].relay in t.relays
    ensures t.settlements <= ForwardCall(t, c).settlements
  {
  }

  lemma CancelCallLogs(t: Tables, c: nat)
    requires c in t.calls && t.calls[c].relay in t.relays
    ensures t.settlements <= CancelCall(t, c, true).settlements
  {
    hide Finish;
    var down := t.relays[t.calls[c].relay].down;
    if t.calls[c].state.Sent? {
      FinishLogs(if down.Some? then Put(t, down.value, CancelFrame(t.calls[c].state.downId)) else t, c, Failed);
    }
  }

  lemma CancelLogs(t: Tables, c: nat)
    requires c in t.calls && t.calls[c].relay in t.relays
    ensures t.settlements <= CancelArrives(t, c).settlements
  {
    CancelCallLogs(t, c);
    hide CancelCall;
  }

  lemma SubLogs(t: Tables, r: nat, s: nat)
    requires r in t.relays
    ensures Subscribe(t, r, s).settlements == t.settlements == Unsubscribe(t, r, s, true).settlements
  {
  }

  lemma StepLogs(t: Tables, step: Step)
    requires Legal(t, step) && Possible(t, step)
    ensures t.settlements <= Apply(t, step).settlements
  {
    hide Finish, CancelArrives, ForwardCall, Subscribe, Unsubscribe, Close, ListsQueue, Closable;
    match step
    case OpenStep(r, d, ss) => ForwardAllLogs(Route(t, r, d), r, ss);
    case CloseStep(r, releaseDown, notify, order) => CloseLogs(t, r, releaseDown, notify, order);
    case SubStep(o, s, hold) => SubLogs(t, RelayServed(t, o, hold).value, s);
    case UnsubStep(o, s) => SubLogs(t, t.relaySubs[(o, s)], s);
    case GoOn(c) => GoOnLogs(t, c);
    case CancelStep(o, id) => CancelLogs(t, t.incoming[(o, id)]);
    case ResultStep(d, id, outcome) => FinishLogs(t, t.relayedCalls[(d, id)], outcome);
    case _ =>
  }

  /**
   * A relayed call settles once: whatever comes first (result, cancel, the relay closing, a link lost) decides its
   * outcome, and nothing that comes later changes it or settles it again.
   */
  lemma {:induction false} SettlesOnce(steps: seq<Step>, from: Tables, t: Tables)
    requires RunsTo(steps, from, t) && Safe(from)
    ensures from.settlements <= t.settlements
    ensures forall i, j :: 0 <= i < j < |t.settlements| ==> t.settlements[i].0 != t.settlements[j].0
    ensures forall c | c in from.calls && from.calls[c].state.Settled? ::
            c in t.calls && t.calls[c].state == from.calls[c].state
    decreases |steps|
  {
    AlwaysSafe(steps, from, t);
    LogGrows(steps, from, t);
    hide RunsTo;
    forall c | c in from.calls && from.calls[c].state.Settled?
      ensures c in t.calls && t.calls[c].state == from.calls[c].state
    {
      OutcomeStands(from, t, c);
    }
  }

  lemma OutcomeStands(from: Tables, t: Tables, c: nat)
    requires LogOk(from) && LogOk(t) && from.settlements <= t.settlements
    requires c in from.calls && from.calls[c].state.Settled?
    ensures c in t.calls && t.calls[c].state == from.calls[c].state
  {
    var i :| 0 <= i < |from.settlements| && from.settlements[i] == (c, from.calls[c].state.outcome);
    assert t.settlements[i] == from.settlements[i];
  }

  lemma {:induction false} LogGrows(steps: seq<Step>, from: Tables, t: Tables)
    requires RunsTo(steps, from, t)
    ensures from.settlements <= t.settlements
    decreases |steps|
  {
    hide Legal, Possible, Apply;
    if steps == [] {
    } else {
      var t0 :| RunsTo(steps[..|steps| - 1], from, t0) && Follows(t0, steps[|steps| - 1], t);
      LogGrows(steps[..|steps| - 1], from, t0);
      StepLogs(t0, steps[|steps| - 1]);
    }
  }

  // ---------------------------------------------------------------- what the tables find

  /** An open relay is found from both links, and under no other id. */
  lemma OpenRelayIsFound(t: Tables, r: nat)
    requires Safe(t) && r in t.relays && !t.relays[r].closed
    ensures forall k :: k in t.served && t.served[k] == Relayed(r) <==> k == OriginKey(t.relays[r])
    ensures t.relays[r].down.Some? ==>
              forall k :: k in t.relayedHolds && t.relayedHolds[k] == r
                          <==> k == (t.relays[r].down.value, t.relays[r].downId)
  {
    hide SubsOk, ForwardedOk, CallSide, Flags, LinkIdsOk;
  }

  /** A forwarded subscription is found from both links, and leads back to the id its origin used. */
  lemma SubscriptionIsFound(t: Tables, r: nat, s: nat)
    requires Safe(t) && HasSub(t, r, s) && t.relays[r].down.Some?
    ensures t.relays[r].subs[s].Some?
    ensures forall k :: k in t.relayedSubs && t.relayedSubs[k] == (r, s)
                        <==> k == (t.relays[r].down.value, t.relays[r].subs[s].value)
    ensures forall k :: k in t.relaySubs && t.relaySubs[k] == r && k.1 == s <==> k == (t.relays[r].origin, s)
  {
    assert RelayFlags(t, r);
    assert SubAt(t, r, s) == t.relays[r].subs[s];
    hide CallSide, Flags, LinkIdsOk, ServedOk, HoldsOk, RelayFlags;
  }

  /** A forwarded call is found from both links while it is unsettled, under one id on each. */
  lemma CallIsFound(t: Tables, c: nat)
    requires Safe(t) && IsSent(t, c)
    ensures var relay := t.relays[t.calls[c].relay];
            && relay.down.Some? && !relay.closed
            && (forall k :: k in t.relayedCalls && t.relayedCalls[k] == c
                            <==> k == (relay.down.value, t.calls[c].state.downId))
            && (forall o :: o in relay.calls && relay.calls[o] == c <==> o == t.calls[c].originId)
  {
    var r := t.calls[c].relay;
    assert RelayFlags(t, r) && t.calls[c].originId in t.relays[r].calls;
    assert !t.relays[r].closed;
    hide LinkSide, Flags, RelayFlags, LogOk, IncomingOk, CallIdsOk;
    forall o | o in t.relays[r].calls && t.relays[r].calls[o] == c ensures o == t.calls[c].originId {
      assert HasCall(t, r, o);
    }
  }

  /** A closed relay leaves no entry on either link. */
  lemma ClosedRelayLeavesNothing(t: Tables, r: nat)
    requires Safe(t) && r in t.relays && t.relays[r].closed
    ensures forall k | k in t.served :: t.served[k] != Relayed(r)
    ensures forall k | k in t.relayedHolds :: t.relayedHolds[k] != r
    ensures forall k | k in t.relaySubs :: t.relaySubs[k] != r
    ensures forall k | k in t.relayedSubs :: t.relayedSubs[k].0 != r
    ensures forall k | k in t.relayedCalls :: t.relayedCalls[k] in t.calls && t.calls[t.relayedCalls[k]].relay != r
  {
    assert RelayFlags(t, r);
    hide Flags, RelayFlags, LogOk, IncomingOk, CallIdsOk, LinkIdsOk;
    assert forall s: nat :: !HasSub(t, r, s);
    assert forall s: nat :: SubAt(t, r, s).None?;
    assert forall k | k in t.relayedCalls :: t.calls[t.relayedCalls[k]].relay != r by {
      hide ServedOk, HoldsOk, SubsOk, ForwardedOk, HasSub, SubAt;
    }
    hide CallsOk, OwnCallsOk, HasSub, SubAt;
  }

  /** Closing a relay fails every call that waits on it or was forwarded through it. */
  lemma CloseFailsItsCalls(t: Tables, r: nat, releaseDown: bool, notify: bool, order: Order, c: nat)
    requires Safe(t) && Closable(t, r, order) && !t.relays[r].closed
    requires c in t.calls && t.calls[c].relay == r && (t.calls[c].state.Waiting? || t.calls[c].state.Sent?)
    ensures c in Close(t, r, releaseDown, notify, order).calls
    ensures Close(t, r, releaseDown, notify, order).calls[c].state.Settled?
  {
    var t' := Close(t, r, releaseDown, notify, order);
    CloseKeepsInverse(t, r, releaseDown, notify, order);
    assert Shut(t, r).calls == t.calls;
    hide Close, Shut, Flags, Closable;
    CallsShrink(Shut(t, r), t', c);
    hide Shrinks;
    assert OwnCallsOk(t');
    hide Inverse;
    if IsSent(t', c) {
      assert t'.calls[c].originId in t'.relays[r].calls;
    }
  }

  /**
   * A cancel from the origin settles its call, with one exception: between the moment the route is known and the
   * forwarding of the call, a cancel has no effect and the call is forwarded all the same.
   */
  lemma CancelSettlesIffNotReady(t: Tables, o: nat, id: nat)
    requires Safe(t) && (o, id) in t.incoming
    ensures var c := t.incoming[(o, id)];
            && c in t.calls && t.calls[c].relay in t.relays
            && (CancelArrives(t, c).calls[c].state.Settled? <==> !t.calls[c].state.Ready?)
            && (t.calls[c].state.Ready? ==> CancelArrives(t, c) == t)
  {
    var c := t.incoming[(o, id)];
    assert Found(t) && c in t.calls && t.calls[c].relay in t.relays;
    hide Inverse, Flags;
    CancelShrinks(t, c, true);
    FailShrinks(t, c);
    CallsShrink(t, CancelCall(t, c, true), c);
    hide Fail;
  }

  lemma Then(steps: seq<Step>, from: Tables, t: Tables, step: Step, t': Tables) returns (all: seq<Step>)
    requires RunsTo(steps, from, t) && Follows(t, step, t')
    ensures all == steps + [step] && RunsTo(all, from, t')
  {
    all := steps + [step];
    assert all[..|all| - 1] == steps;
  }

  /** Link 1 holds relay 0 under id 10 and called through it, as call 5 under id 20. */
  function Held(links: map<nat, Link>, call: CallState): Tables {
    NoTables.(links := links, relays := map[0 := Relay(1, 10, 0, None, 0, false, map[], map[])],
              served := map[(1, 10) := Relayed(0)], calls := map[5 := Call(0, 20, call)], incoming := map[(1, 20) := 5])
  }

  const TwoLinks: map<nat, Link> := map[1 := Link(true, 0, 1), 2 := Link(true, 0, 1)]

  lemma HoldsAndCalls() returns (steps: seq<Step>)
    ensures RunsTo(steps, NoTables, Held(TwoLinks, Waiting))
  {
    var t1 := NoTables.(links := map[1 := Link(true, 0, 1)]);
    var t2 := NoTables.(links := TwoLinks);
    var t3 := Held(TwoLinks, Waiting).(calls := map[], incoming := map[]);
    Connects();
    assert Follows(t2, HoldStep(1, 10, 0), t3);
    assert Follows(t3, CallStep(1, 20, 10, 5), Held(TwoLinks, Waiting));
    steps := [];
    assert RunsTo(steps, NoTables, NoTables);
    hide Follows, RunsTo;
    steps := Then(steps, NoTables, NoTables, Connect(1), t1);
    steps := Then(steps, NoTables, t1, Connect(2), t2);
    steps := Then(steps, NoTables, t2, HoldStep(1, 10, 0), t3);
    steps := Then(steps, NoTables, t3, CallStep(1, 20, 10, 5), Held(TwoLinks, Waiting));
  }

  lemma Connects()
    ensures Follows(NoTables, Connect(1), NoTables.(links := map[1 := Link(true, 0, 1)]))
    ensures Follows(NoTables.(links := map[1 := Link(true, 0, 1)]), Connect(2), NoTables.(links := TwoLinks))
  {
  }

  /** The route of relay 0 is link 2. */
  function Routed(): Tables {
    Held(map[1 := Link(true, 0, 1), 2 := Link(true, 0, 2)], Ready)
    .(relays := map[0 := Relay(1, 10, 0, Some(2), 1, false, map[], map[])], relayedHolds := map[(2, 1) := 0],
      sent := [(2, HoldFrame(1))])
  }

  lemma RouteIsFound()
    ensures Follows(Held(TwoLinks, Waiting), OpenStep(0, 2, []), Routed())
  {
    var t0 := Held(TwoLinks, Waiting);
    assert Route(t0, 0, 2).links == Routed().links;
    assert Route(t0, 0, 2).relays == Routed().relays;
    assert Route(t0, 0, 2) == Routed().(calls := t0.calls);
    assert Wake(Route(t0, 0, 2), 0).calls == Routed().calls;
  }

  /** The route of a waiting call is found; a cancel that arrives before the call goes on is lost. */
  lemma CancelIsLost() returns (steps: seq<Step>, t: Tables)
    ensures RunsTo(steps, NoTables, t) && Legal(t, CancelStep(1, 20)) && Legal(t, GoOn(5))
    ensures t.incoming[(1, 20)] == 5 && 5 in t.calls && 0 in t.relays && t.calls[5].relay == 0
            && t.calls[5].state.Ready?
    ensures CancelArrives(t, 5) == t && ForwardCall(t, 5).calls[5].state.Sent?
  {
    steps := HoldsAndCalls();
    RouteIsFound();
    t := Routed();
    assert RunsTo(steps + [OpenStep(0, 2, [])], NoTables, t) by {
      hide Follows, RunsTo;
      var all := Then(steps, NoTables, Held(TwoLinks, Waiting), OpenStep(0, 2, []), t);
    }
    hide RunsTo, Follows;
    steps := steps + [OpenStep(0, 2, [])];
  }
}
