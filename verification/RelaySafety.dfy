/** Every run of a relaying host: what its tables find, and how calls settle. */
module RelaySafety {
  import opened Wrappers
  import opened Relays
  import opened RelayInvariant
  import opened RelayOpening
  import opened RelayClosing

  /**
   * What can happen. A relay closes for any reason at any time (`CloseStep`): its route failed, the origin released it
   * or went away, its principal was revoked, the downstream hold is gone, the downstream link closed.
   */
  datatype Step =
    | Connect(x: nat)
    | HoldStep(o: nat, id: nat, r: nat)
    | LocalHold(o: nat, id: nat)
    | LocalDrop(o: nat, id: nat)
    | OpenStep(r: nat, d: nat, ss: seq<nat>)
    | CloseStep(r: nat, releaseDown: bool, notify: bool, order: Order)
    | SubStep(o: nat, s: nat, hold: nat)
    | UnsubStep(o: nat, s: nat)
    | CallStep(o: nat, id: nat, hold: nat, c: nat)
    | GoOn(c: nat)
    | CancelStep(o: nat, id: nat)
    | ResultStep(d: nat, id: nat, outcome: Outcome)
    | Reap(o: nat, id: nat)
    | Revoke(o: nat)
    | LinkDown(x: nat)

  function RelayServed(t: Tables, o: nat, hold: nat): Option<nat> {
    if (o, hold) in t.served && t.served[(o, hold)].Relayed? then Some(t.served[(o, hold)].relay) else None
  }

  /** The queued subscriptions of a relay, each once. */
  ghost predicate ListsQueue(t: Tables, r: nat, ss: seq<nat>)
    requires r in t.relays
  {
    && (forall s :: s in ss <==> s in t.relays[r].subs)
    && (forall i, j :: 0 <= i < j < |ss| ==> ss[i] != ss[j])
  }

  /** Ids of new objects are fresh; a repeated id on a link is a violation, which closes the link instead. */
  ghost predicate Legal(t: Tables, step: Step) {
    match step
    case Connect(x) => x !in t.links
    case HoldStep(o, id, r) => IsOpen(t, o) && r !in t.relays && (o, id) !in t.served
    case LocalHold(o, id) => IsOpen(t, o) && (o, id) !in t.served
    case LocalDrop(o, id) => (o, id) in t.served && t.served[(o, id)].Local?
    case OpenStep(r, d, ss) => Current(t, r) && t.relays[r].down.None? && d in t.links && ListsQueue(t, r, ss)
    case CloseStep(r, releaseDown, notify, order) => Closable(t, r, order)
    case SubStep(o, s, hold) => RelayServed(t, o, hold).Some? && (o, s) !in t.relaySubs
    case UnsubStep(o, s) => (o, s) in t.relaySubs
    case CallStep(o, id, hold, c) =>
      IsOpen(t, o) && RelayServed(t, o, hold).Some? && (o, id) !in t.incoming && c !in t.calls
    case GoOn(c) => c in t.calls && t.calls[c].state.Ready?
    case CancelStep(o, id) => (o, id) in t.incoming
    case ResultStep(d, id, outcome) => (d, id) in t.relayedCalls
    case Reap(o, id) => (o, id) in t.incoming && !Unsettled(t, t.incoming[(o, id)])
    case Revoke(o) => o in t.links
    case LinkDown(x) => x in t.links
  }

  function Fenced(t: Tables, o: nat): Tables
    requires o in t.links
  {
    t.(links := t.links[o := t.links[o].(generation := t.links[o].generation + 1)])
  }

  function Down(t: Tables, x: nat): Tables
    requires x in t.links
  {
    t.(links := t.links[x := t.links[x].(open := false)],
       incoming := map k | k in t.incoming && k.0 != x :: t.incoming[k])
  }

  /** A step that its objects allow; which steps are legal says more. */
  predicate Possible(t: Tables, step: Step) {
    && (step.OpenStep? ==> step.r in t.relays)
    && (step.SubStep? || step.CallStep? ==>
          RelayServed(t, step.o, step.hold).Some? && RelayServed(t, step.o, step.hold).value in t.relays)
    && (step.HoldStep? || step.Revoke? ==> step.o in t.links)
    && (step.UnsubStep? ==> (step.o, step.s) in t.relaySubs && t.relaySubs[(step.o, step.s)] in t.relays)
    && (step.GoOn? ==> step.c in t.calls && t.calls[step.c].relay in t.relays)
    && (step.CancelStep? ==> (step.o, step.id) in t.incoming && t.incoming[(step.o, step.id)] in t.calls
                             && t.calls[t.incoming[(step.o, step.id)]].relay in t.relays)
    && (step.ResultStep? ==> (step.d, step.id) in t.relayedCalls && t.relayedCalls[(step.d, step.id)] in t.calls
                             && t.calls[t.relayedCalls[(step.d, step.id)]].relay in t.relays)
    && (step.LinkDown? ==> step.x in t.links)
  }

  lemma LegalIsPossible(t: Tables, step: Step)
    requires Inverse(t) && Legal(t, step)
    ensures Possible(t, step)
  {
    hide ForwardedOk, OwnCallsOk, LogOk, CallIdsOk, LinkIdsOk, HoldsOk;
  }

  ghost function Apply(t: Tables, step: Step): Tables
    requires Possible(t, step) && (step.CloseStep? ==> Closable(t, step.r, step.order))
  {
    match step
    case Connect(x) => t.(links := t.links[x := Link(true, 0, 1)])
    case HoldStep(o, id, r) => HoldArrives(t, o, id, r)
    case LocalHold(o, id) => t.(served := t.served[(o, id) := Local])
    case LocalDrop(o, id) => t.(served := t.served - {(o, id)})
    case OpenStep(r, d, ss) => Open(t, r, d, ss)
    case CloseStep(r, releaseDown, notify, order) => Close(t, r, releaseDown, notify, order)
    case SubStep(o, s, hold) => Subscribe(t, RelayServed(t, o, hold).value, s)
    case UnsubStep(o, s) => Unsubscribe(t, t.relaySubs[(o, s)], s, true)
    case CallStep(o, id, hold, c) => CallArrives(t, o, id, RelayServed(t, o, hold).value, c)
    case GoOn(c) => ForwardCall(t, c)
    case CancelStep(o, id) => CancelArrives(t, t.incoming[(o, id)])
    case ResultStep(d, id, outcome) => Finish(t, t.relayedCalls[(d, id)], outcome)
    case Reap(o, id) => t.(incoming := t.incoming - {(o, id)})
    case Revoke(o) => Fenced(t, o)
    case LinkDown(x) => Down(t, x)
  }

  // ---------------------------------------------------------------- small steps

  lemma ConnectKeeps(t: Tables, x: nat)
    requires Inverse(t) && x !in t.links
    ensures Inverse(t.(links := t.links[x := Link(true, 0, 1)]))
  {
    var t' := t.(links := t.links[x := Link(true, 0, 1)]);
    ConnectIncoming(t, x);
    LinkSideKept(t, t');
    hide LinkSide, IncomingOk;
    OwnCallsKept(t, t');
    hide CallsOk, OwnCallsOk;
    assert forall k :: Used(t, k) ==> Used(t', k);
    assert CallIdsOk(t');
  }

  lemma ConnectIncoming(t: Tables, x: nat)
    requires IncomingOk(t) && LinkIdsOk(t) && x !in t.links
    ensures IncomingOk(t.(links := t.links[x := Link(true, 0, 1)]))
  {
    var t' := t.(links := t.links[x := Link(true, 0, 1)]);
    assert forall c | c in t.calls :: CallKey(t', c) == CallKey(t, c) && CallKey(t, c).0 != x;
    assert forall y | y != x :: IsOpen(t', y) <==> IsOpen(t, y);
    hide LinkIdsOk;
  }

  lemma LinksChangeKeeps(t: Tables, t': Tables)
    requires Inverse(t) && t' == t.(links := t'.links, incoming := t'.incoming)
    requires LinksGrow(t, t') && forall x :: IsOpen(t', x) ==> IsOpen(t, x)
    requires forall k :: k in t'.incoming ==> k in t.incoming && t'.incoming[k] == t.incoming[k]
    requires forall k :: k in t.incoming && k !in t'.incoming ==>
      !IsOpen(t', k.0) || !Unsettled(t, t.incoming[k])
    ensures Inverse(t')
  {
    hide LinkSide, IncomingOk, CallsOk;
    LinkSideKept(t, t');
    hide LinkSide;
    OwnCallsKept(t, t');
    assert forall k :: Used(t, k) ==> Used(t', k);
    assert CallIdsOk(t');
    assert IncomingOk(t') by { hide CallsOk, OwnCallsOk, LogOk; IncomingShrinks(t, t'); }
    hide CallsOk, OwnCallsOk, IncomingOk;
  }

  lemma IncomingShrinks(t: Tables, t': Tables)
    requires IncomingOk(t) && t'.calls == t.calls && t'.relays == t.relays
    requires forall x :: IsOpen(t', x) ==> IsOpen(t, x)
    requires forall k :: k in t'.incoming ==> k in t.incoming && t'.incoming[k] == t.incoming[k]
    requires forall k :: k in t.incoming && k !in t'.incoming ==>
      !IsOpen(t', k.0) || !Unsettled(t, t.incoming[k])
    ensures IncomingOk(t')
  {
    assert forall c :: c in t.calls ==> CallKey(t', c) == CallKey(t, c);
    assert forall c :: Unsettled(t', c) <==> Unsettled(t, c);
    forall c | Unsettled(t', c) && IsOpen(t', CallKey(t', c).0)
      ensures CallKey(t', c) in t'.incoming
    {
      var k := CallKey(t, c);
      assert k in t.incoming && t.incoming[k] in t.calls && CallKey(t, t.incoming[k]) == k;
    }
  }

  lemma LocalServed(t: Tables, t': Tables, k: Key)
    requires ServedOk(t) && t'.relays == t.relays
    requires (k !in t.served && t'.served == t.served[k := Local])
             || (k in t.served && t.served[k].Local? && t'.served == t.served - {k})
    ensures ServedOk(t')
  {
  }

  lemma LocalKeeps(t: Tables, t': Tables, k: Key)
    requires Inverse(t) && t' == t.(served := t'.served)
    requires (k !in t.served && t'.served == t.served[k := Local])
             || (k in t.served && t.served[k].Local? && t'.served == t.served - {k})
    ensures Inverse(t')
  {
    LocalServed(t, t', k);
    CallSideKept(t, t');
    hide CallSide, ServedOk;
    SubsKept(t, t');
    ForwardedKept(t, t');
    hide SubsOk, ForwardedOk;
  }

  // ---------------------------------------------------------------- flags and contents agree

  ghost predicate RelayFlags(t: Tables, r: nat)
    requires r in t.relays
  {
    (t.relays[r].closed ==> Emptied(t, r)) && (t.relays[r].down.Some? ==> CaughtUp(t, r))
  }

  lemma ShrinksKeepsFlags(t: Tables, t': Tables)
    requires Shrinks(t, t') && forall r | r in t.relays :: RelayFlags(t, r)
    ensures forall r | r in t'.relays :: RelayFlags(t', r)
  {
    forall r | r in t'.relays ensures RelayFlags(t', r) {
      assert RelayFlags(t, r) && RelayShrinks(t.relays[r], t'.relays[r]);
      assert forall c | c in t'.calls :: CallShrinks(t.calls[c], t'.calls[c]);
    }
  }

  ghost predicate Flags(t: Tables) { forall r | r in t.relays :: RelayFlags(t, r) }

  /** No call began to wait for relay `q`. */
  predicate NoNewWaiter(t: Tables, t': Tables, q: nat) {
    forall c | c in t'.calls && t'.calls[c].relay == q && t'.calls[c].state.Waiting? ::
      c in t.calls && t.calls[c] == t'.calls[c]
  }

  lemma SameRelayFlags(t: Tables, t': Tables, q: nat)
    requires q in t.relays && RelayFlags(t, q) && NoNewWaiter(t, t', q)
    requires q in t'.relays && t'.relays[q] == t.relays[q]
    ensures RelayFlags(t', q)
  {
  }

  lemma HoldFlags(t: Tables, o: nat, id: nat, r: nat)
    requires Inverse(t) && o in t.links && r !in t.relays && Flags(t)
    ensures Flags(HoldArrives(t, o, id, r))
  {
    var t' := HoldArrives(t, o, id, r);
    forall q | q in t'.relays ensures RelayFlags(t', q) {
      if q != r {
        hide Inverse;
        SameRelayFlags(t, t', q);
      }
    }
  }

  lemma OpenFlags(t: Tables, r: nat, d: nat, ss: seq<nat>)
    requires Current(t, r) && ListsQueue(t, r, ss) && Flags(t)
    ensures Flags(Open(t, r, d, ss))
  {
    var t1 := Route(t, r, d);
    var t2 := ForwardAll(t1, r, ss);
    var t3 := Wake(t2, r);
    assert t1.calls == t.calls && forall q | q in t.relays && q != r :: t1.relays[q] == t.relays[q];
    assert t1.relays[r] == t.relays[r].(down := t1.relays[r].down, downId := t1.relays[r].downId);
    assert t1.relays[r].down == Some(d);
    assert !t.relays[r].closed && t1.relays.Keys == t.relays.Keys;
    ForwardAllChanges(t1, r, ss);
    hide ForwardAll, Route, Current;
    assert forall c | c in t.calls :: t3.calls[c] == Awake(t.calls[c], r);
    hide Wake;
    forall q | q in t3.relays ensures RelayFlags(t3, q) {
      if q != r {
        SameRelayFlags(t, t3, q);
      }
    }
  }

  lemma ShutOthers(t: Tables, r: nat)
    requires r in t.relays
    ensures forall q | q in t.relays && q != r :: Shut(t, r).relays[q] == t.relays[q]
  {
  }

  lemma CloseFlags(t: Tables, r: nat, releaseDown: bool, notify: bool, order: Order)
    requires Inverse(t) && Closable(t, r, order) && !t.relays[r].closed && Flags(t)
    ensures Flags(Close(t, r, releaseDown, notify, order))
  {
    var t0, t' := Shut(t, r), Close(t, r, releaseDown, notify, order);
    CloseKeepsInverse(t, r, releaseDown, notify, order);
    ShutOthers(t, r);
    hide Close, Inverse, Shut, Closable, RelayFlags, Emptied;
    assert t0.calls == t.calls;
    forall q | q in t'.relays ensures RelayFlags(t', q) {
      if q != r {
        SameRelayFlags(t, t0, q);
        ShrinksOne(t0, t', q);
      } else {
        EmptiedIsCaughtUp(t', r);
      }
    }
  }

  lemma EmptiedIsCaughtUp(t: Tables, r: nat)
    requires r in t.relays && Emptied(t, r)
    ensures RelayFlags(t, r)
  {
  }

  lemma ShrinksOne(t: Tables, t': Tables, q: nat)
    requires Shrinks(t, t') && q in t.relays && RelayFlags(t, q)
    ensures RelayFlags(t', q)
  {
    assert RelayShrinks(t.relays[q], t'.relays[q]);
    assert forall c | c in t'.calls :: CallShrinks(t.calls[c], t'.calls[c]);
    hide Shrinks;
  }

  /** A subscription changes the subscriptions of its relay, and is forwarded if the route is known. */
  lemma SubChanges(t: Tables, r: nat, s: nat)
    requires r in t.relays
    ensures var relay, t' := t.relays[r], Subscribe(t, r, s);
            && t'.calls == t.calls && t'.relays == t.relays[r := t'.relays[r]]
            && t'.relays[r] == relay.(subs := relay.subs[s := t'.relays[r].subs[s]])
            && (relay.down.Some? ==> t'.relays[r].subs[s].Some?)
  {
    if t.relays[r].down.Some? {
      var subs, id: nat := t.relays[r].subs, NextId(t, t.relays[r].down.value);
      var queued: map<nat, Option<nat>> := subs[s := None];
      assert queued[s := Some(id)] == subs[s := Some(id)];
    }
  }

  lemma SubFlags(t: Tables, r: nat, s: nat)
    requires r in t.relays && !t.relays[r].closed && Flags(t)
    ensures Flags(Subscribe(t, r, s))
  {
    var t' := Subscribe(t, r, s);
    SubChanges(t, r, s);
    hide Subscribe;
    forall q | q in t'.relays ensures RelayFlags(t', q) {
      assert RelayFlags(t, q);
      if q != r {
        SameRelayFlags(t, t', q);
      }
    }
  }

  lemma CallFlags(t: Tables, o: nat, id: nat, r: nat, c: nat)
    requires r in t.relays && !t.relays[r].closed && c !in t.calls && Flags(t)
    ensures Flags(CallArrives(t, o, id, r, c))
  {
    var t' := CallArrives(t, o, id, r, c);
    forall q | q in t'.relays ensures RelayFlags(t', q) {
      assert RelayFlags(t, q);
    }
  }

  lemma GoOnChanges(t: Tables, c: nat)
    requires c in t.calls && t.calls[c].relay in t.relays
    requires !t.relays[t.calls[c].relay].closed && t.relays[t.calls[c].relay].down.Some?
    ensures !ForwardCall(t, c).calls[c].state.Waiting?
    ensures ForwardCall(t, c).calls == t.calls[c := ForwardCall(t, c).calls[c]]
    ensures var r := t.calls[c].relay;
            ForwardCall(t, c).relays
            == t.relays[r := t.relays[r].(calls := t.relays[r].calls[t.calls[c].originId := c])]
  {
  }

  lemma GoOnFlags(t: Tables, c: nat)
    requires c in t.calls && t.calls[c].relay in t.relays && Flags(t)
    ensures Flags(ForwardCall(t, c))
  {
    var t', r := ForwardCall(t, c), t.calls[c].relay;
    if t.relays[r].closed || t.relays[r].down.None? {
      FailShrinks(t, c);
      hide Fail, Shrinks, RelayFlags;
      ShrinksKeepsFlags(t, t');
    } else {
      GoOnChanges(t, c);
      hide ForwardCall;
      forall q | q in t'.relays ensures RelayFlags(t', q) {
        assert RelayFlags(t, q);
        assert NoNewWaiter(t, t', q);
      }
    }
  }

  // ---------------------------------------------------------------- every step, every run

  ghost predicate Safe(t: Tables) { Inverse(t) && Flags(t) }

  lemma SubStepKeeps(t: Tables, o: nat, s: nat, hold: nat)
    requires Safe(t) && RelayServed(t, o, hold).Some? && (o, s) !in t.relaySubs
    ensures RelayServed(t, o, hold).value in t.relays
    ensures Safe(Subscribe(t, RelayServed(t, o, hold).value, s))
  {
    var r := RelayServed(t, o, hold).value;
    assert r in t.relays && t.relays[r].origin == o && !t.relays[r].closed;
    SubFlags(t, r, s);
    hide Flags, Inverse;
    QueueKeeps(t, r, s);
    if t.relays[r].down.Some? {
      ForwardSubKeeps(Queue(t, r, s), r, s);
    }
  }

  lemma OpenStepKeeps(t: Tables, r: nat, d: nat, ss: seq<nat>)
    requires Safe(t) && Legal(t, OpenStep(r, d, ss))
    ensures Safe(Open(t, r, d, ss))
  {
    OpenFlags(t, r, d, ss);
    RouteKeeps(t, r, d);
    assert forall s | s in t.relays[r].subs :: t.relays[r].subs[s].None? by { QueueIsUnsent(t, r); }
    hide Flags, Inverse, Current, Wake;
    ForwardAllKeeps(Route(t, r, d), r, ss);
    WakeKeeps(ForwardAll(Route(t, r, d), r, ss), r);
  }

  lemma QueueIsUnsent(t: Tables, r: nat)
    requires ForwardedOk(t) && r in t.relays && t.relays[r].down.None?
    ensures forall s | s in t.relays[r].subs :: t.relays[r].subs[s].None?
  {
    forall s | s in t.relays[r].subs ensures t.relays[r].subs[s].None? {
      assert SubAt(t, r, s) == t.relays[r].subs[s];
    }
  }

  lemma Unchanged(t: Tables, t': Tables)
    requires Safe(t) && Inverse(t') && t'.relays == t.relays && t'.calls == t.calls
    ensures Safe(t')
  {
    hide Inverse;
    assert Shrinks(t, t');
    ShrinksKeepsFlags(t, t');
  }

  lemma ConnectStepKeeps(t: Tables, x: nat)
    requires Safe(t) && x !in t.links
    ensures Safe(Apply(t, Connect(x)))
  {
    ConnectKeeps(t, x);
    hide Safe, Inverse;
    Unchanged(t, Apply(t, Connect(x)));
  }

  lemma ReapKeeps(t: Tables, k: Key)
    requires Safe(t) && k in t.incoming && !Unsettled(t, t.incoming[k])
    ensures Safe(t.(incoming := t.incoming - {k}))
  {
    hide Inverse, Flags;
    LinksChangeKeeps(t, t.(incoming := t.incoming - {k}));
    hide Safe;
    Unchanged(t, t.(incoming := t.incoming - {k}));
  }

  lemma FenceKeeps(t: Tables, x: nat)
    requires Safe(t) && x in t.links
    ensures Safe(Fenced(t, x))
  {
    hide Inverse, Flags;
    LinksChangeKeeps(t, Fenced(t, x));
    hide Safe;
    Unchanged(t, Fenced(t, x));
  }

  lemma DownKeeps(t: Tables, x: nat)
    requires Safe(t) && x in t.links
    ensures Safe(Down(t, x))
  {
    hide Inverse, Flags;
    assert forall y :: IsOpen(Down(t, x), y) ==> IsOpen(t, y) && y != x;
    LinksChangeKeeps(t, Down(t, x));
    hide Safe;
    Unchanged(t, Down(t, x));
  }

  lemma LocalStepsKeep(t: Tables, step: Step)
    requires Safe(t) && Legal(t, step) && (step.LocalHold? || step.LocalDrop?)
    ensures Possible(t, step) && Safe(Apply(t, step))
  {
    hide Inverse, Flags;
    LocalKeeps(t, Apply(t, step), (step.o, step.id));
    hide Safe;
    Unchanged(t, Apply(t, step));
  }

  lemma CallStepsKeep(t: Tables, c: nat, outcome: Outcome)
    requires Safe(t) && c in t.calls
    ensures Safe(Finish(t, c, outcome)) && Safe(CancelArrives(t, c))
  {
    hide Flags, RelayFlags, Shrinks;
    FinishShrinks(t, c, outcome);
    FinishKeeps(t, c, outcome);
    FailShrinks(t, c);
    CancelKeeps(t, c, true);
    if t.calls[c].state.Waiting? {
      FailKeeps(t, c);
    }
    hide Inverse, Finish, CancelCall, Fail;
    assert forall r | r in t.relays :: RelayFlags(t, r) by { FlagsAre(t); }
    ShrinksKeepsFlags(t, Finish(t, c, outcome));
    FlagsAre(Finish(t, c, outcome));
    ShrinksKeepsFlags(t, CancelArrives(t, c));
    FlagsAre(CancelArrives(t, c));
  }

  lemma FlagsAre(t: Tables)
    ensures Flags(t) <==> forall r | r in t.relays :: RelayFlags(t, r)
  {
  }

  lemma UnsubStepKeeps(t: Tables, r: nat, s: nat)
    requires Safe(t) && r in t.relays
    ensures Safe(Unsubscribe(t, r, s, true))
  {
    UnsubscribeShrinks(t, r, s, true);
    UnsubscribeKeeps(t, r, s, true);
    hide Inverse, Unsubscribe, Shrinks;
    ShrinksKeepsFlags(t, Unsubscribe(t, r, s, true));
  }

  lemma CallStepKeeps(t: Tables, o: nat, id: nat, hold: nat, c: nat)
    requires Safe(t) && Legal(t, CallStep(o, id, hold, c))
    ensures RelayServed(t, o, hold).value in t.relays
    ensures Safe(CallArrives(t, o, id, RelayServed(t, o, hold).value, c))
  {
    var r := RelayServed(t, o, hold).value;
    assert r in t.relays && t.relays[r].origin == o && !t.relays[r].closed;
    hide Inverse, Flags;
    CallFlags(t, o, id, r, c);
    CallArrivesKeeps(t, o, id, r, c);
  }

  /** Every step of a relaying host, in whatever order, keeps the tables inverse and its closed relays empty. */
  lemma StepKeepsSafe(t: Tables, step: Step)
    requires Safe(t) && Legal(t, step)
    ensures Possible(t, step)
    ensures Safe(Apply(t, step))
  {
    hide Inverse, CallSide, LinkSide, RelayFlags, Flags;
    LegalIsPossible(t, step);
    hide Safe;
    match step
    case Connect(x) => ConnectStepKeeps(t, x);
    case Reap(o, id) => ReapKeeps(t, (o, id));
    case Revoke(o) => FenceKeeps(t, o);
    case LinkDown(x) => DownKeeps(t, x);
    case LocalHold(o, id) => LocalStepsKeep(t, step);
    case LocalDrop(o, id) => LocalStepsKeep(t, step);
    case HoldStep(o, id, r) => HoldStepKeeps(t, o, id, r);
    case OpenStep(r, d, ss) => OpenStepKeeps(t, r, d, ss);
    case CloseStep(r, releaseDown, notify, order) => CloseStepKeeps(t, r, releaseDown, notify, order);
    case SubStep(o, s, hold) => SubStepKeeps(t, o, s, hold);
    case UnsubStep(o, s) => UnsubStepKeeps(t, t.relaySubs[(o, s)], s);
    case CallStep(o, id, hold, c) => CallStepKeeps(t, o, id, hold, c);
    case GoOn(c) => GoOnKeeps(t, c);
    case CancelStep(o, id) => CallStepsKeep(t, t.incoming[(o, id)], Failed);
    case ResultStep(d, id, outcome) => CallStepsKeep(t, t.relayedCalls[(d, id)], outcome);
  }

  lemma HoldStepKeeps(t: Tables, o: nat, id: nat, r: nat)
    requires Safe(t) && o in t.links && r !in t.relays && (o, id) !in t.served
    ensures Safe(HoldArrives(t, o, id, r))
  {
    HoldFlags(t, o, id, r);
    hide Inverse, Flags;
    HoldArrivesKeeps(t, o, id, r);
  }

  lemma CloseStepKeeps(t: Tables, r: nat, releaseDown: bool, notify: bool, order: Order)
    requires Safe(t) && Closable(t, r, order)
    ensures Safe(Close(t, r, releaseDown, notify, order))
  {
    hide Inverse, Flags, Shrinks, Emptied;
    if t.relays[r].closed {
      assert Close(t, r, releaseDown, notify, order) == t;
    } else {
      CloseFlags(t, r, releaseDown, notify, order);
      CloseKeepsInverse(t, r, releaseDown, notify, order);
    }
  }

  lemma GoOnKeeps(t: Tables, c: nat)
    requires Safe(t) && c in t.calls && t.calls[c].state.Ready?
    ensures t.calls[c].relay in t.relays && Safe(ForwardCall(t, c))
  {
    assert Found(t);
    hide Inverse, Flags;
    GoOnFlags(t, c);
    ForwardCallKeeps(t, c);
  }
}
