/** A relay whose origin went away, or was revoked, before its route was known never uses the route. */
module RelayRevocation {
  import opened Wrappers
  import opened Relays
  import opened RelayInvariant
  import opened RelayClosing
  import opened RelaySafety
  import opened RelayTheorems

  /** A relay is of the generation its origin had when the hold arrived. */
  ghost predicate GenerationsOk(t: Tables) {
    forall r | r in t.relays ::
      t.relays[r].origin in t.links && t.relays[r].generation <= t.links[t.relays[r].origin].generation
  }

  /** The relay waits for a route although its origin is gone, or its principal was revoked since. */
  predicate Revoked(t: Tables, r: nat) {
    && r in t.relays && t.relays[r].down.None? && t.relays[r].origin in t.links
    && (!t.links[t.relays[r].origin].open || t.links[t.relays[r].origin].generation > t.relays[r].generation)
  }

  /** Links close for good and their generations rise; a relay keeps its origin, and its route unless it is current. */
  ghost predicate Ages(t: Tables, t': Tables) { LinksAge(t, t') && RelaysAge(t, t') }

  predicate LinksAge(t: Tables, t': Tables) {
    forall x | x in t.links ::
      x in t'.links && t.links[x].generation <= t'.links[x].generation && (t'.links[x].open ==> t.links[x].open)
  }

  predicate RelaysAge(t: Tables, t': Tables) {
    forall r | r in t.relays ::
      && r in t'.relays && t'.relays[r].origin == t.relays[r].origin
      && t'.relays[r].generation == t.relays[r].generation
      && (t'.relays[r].down == t.relays[r].down || Current(t, r))
  }

  /** A relay that appears is of its origin's present generation. */
  predicate Newcomers(t: Tables, t': Tables) {
    forall r | r in t'.relays && r !in t.relays ::
      t'.relays[r].origin in t.links && t'.relays[r].generation == t.links[t'.relays[r].origin].generation
  }

  lemma StaysRevoked(t: Tables, t': Tables, r: nat)
    requires Ages(t, t') && Revoked(t, r)
    ensures Revoked(t', r)
  {
  }

  lemma ShrinksAges(t: Tables, t': Tables)
    requires Shrinks(t, t') && t'.links == t.links
    ensures Ages(t, t') && Newcomers(t, t')
  {
    assert forall r | r in t.relays :: RelayShrinks(t.relays[r], t'.relays[r]);
    hide Shrinks, CallShrinks;
  }

  lemma CloseAges(t: Tables, step: Step)
    requires Safe(t) && Legal(t, step) && Possible(t, step) && step.CloseStep?
    ensures Ages(t, Apply(t, step)) && Newcomers(t, Apply(t, step))
  {
    assert Inverse(t) && Closable(t, step.r, step.order);
    var t' := Close(t, step.r, step.releaseDown, step.notify, step.order);
    assert Apply(t, step) == t';
    hide Safe, Legal, Possible, Apply, Inverse, Closable;
    if !t.relays[step.r].closed {
      CloseKeepsInverse(t, step.r, step.releaseDown, step.notify, step.order);
      CloseDoors(t, step.r, step.releaseDown, step.notify, step.order);
      hide Close, Shrinks, Emptied;
      ShutAges(t, step.r);
      hide Shut, Current;
      ShrinksAges(Shut(t, step.r), t');
      AfterShut(t, Shut(t, step.r), t');
    } else {
      hide Current;
    }
  }

  lemma AfterShut(t: Tables, t0: Tables, t': Tables)
    requires t0.links == t.links && t0.relays.Keys == t.relays.Keys && Shrinks(t0, t') && t'.links == t0.links
    requires forall q | q in t.relays :: t0.relays[q] == t.relays[q].(closed := t0.relays[q].closed)
    ensures Ages(t, t') && Newcomers(t, t')
  {
    assert forall r | r in t0.relays :: RelayShrinks(t0.relays[r], t'.relays[r]);
    hide Shrinks, Current;
  }

  lemma ShutAges(t: Tables, r: nat)
    requires r in t.relays
    ensures Shut(t, r).links == t.links && Shut(t, r).relays.Keys == t.relays.Keys
    ensures forall q | q in t.relays :: Shut(t, r).relays[q] == t.relays[q].(closed := Shut(t, r).relays[q].closed)
  {
  }

  lemma CallsAge(t: Tables, c: nat, outcome: Outcome)
    requires c in t.calls && t.calls[c].relay in t.relays
    ensures Ages(t, Finish(t, c, outcome)) && Newcomers(t, Finish(t, c, outcome))
    ensures Ages(t, CancelArrives(t, c)) && Newcomers(t, CancelArrives(t, c))
  {
    FinishShrinks(t, c, outcome);
    FinishDoors(t, c, outcome);
    CancelShrinks(t, c, true);
    CancelDoors(t, c, true);
    FailShrinks(t, c);
    assert Fail(t, c).links == t.links;
    hide Shrinks, Finish, CancelCall, Fail, Ages, Newcomers;
    ShrinksAges(t, Finish(t, c, outcome));
    ShrinksAges(t, CancelArrives(t, c));
  }

  lemma {:induction false} ForwardAllAges(t: Tables, r: nat, ss: seq<nat>)
    requires r in t.relays && t.relays[r].down.Some?
    ensures LinksAge(t, ForwardAll(t, r, ss))
    ensures forall q | q in t.relays && q != r :: ForwardAll(t, r, ss).relays[q] == t.relays[q]
  {
    if ss != [] {
      ForwardAllAges(t, r, ss[..|ss| - 1]);
    }
  }

  lemma OpenAges(t: Tables, r: nat, d: nat, ss: seq<nat>)
    requires Current(t, r)
    ensures Ages(t, Open(t, r, d, ss)) && Newcomers(t, Open(t, r, d, ss))
  {
    var t1 := Route(t, r, d);
    ForwardAllAges(t1, r, ss);
    var t2 := ForwardAll(t1, r, ss);
    assert t1.relays.Keys == t.relays.Keys && forall q | q in t.relays && q != r :: t1.relays[q] == t.relays[q];
    assert LinksAge(t, t1);
    assert t1.relays[r].origin == t.relays[r].origin && t1.relays[r].generation == t.relays[r].generation;
    assert Open(t, r, d, ss).relays == t2.relays && Open(t, r, d, ss).links == t2.links;
    hide ForwardAll, Route, Wake, Open;
  }

  lemma SubAges(t: Tables, r: nat, s: nat)
    requires r in t.relays
    ensures Ages(t, Subscribe(t, r, s)) && Newcomers(t, Subscribe(t, r, s))
  {
    SubChanges(t, r, s);
    assert LinksAge(t, Subscribe(t, r, s));
    hide Subscribe, LinksAge, Current;
  }

  lemma UnsubAges(t: Tables, r: nat, s: nat)
    requires r in t.relays
    ensures Ages(t, Unsubscribe(t, r, s, true)) && Newcomers(t, Unsubscribe(t, r, s, true))
  {
    UnsubscribeShrinks(t, r, s, true);
    UnsubscribeDoors(t, r, s, true);
    hide Unsubscribe, Shrinks, Ages, Newcomers;
    ShrinksAges(t, Unsubscribe(t, r, s, true));
  }

  lemma GoOnAges(t: Tables, c: nat)
    requires c in t.calls && t.calls[c].relay in t.relays
    ensures Ages(t, ForwardCall(t, c)) && Newcomers(t, ForwardCall(t, c))
  {
    assert LinksAge(t, ForwardCall(t, c));
    if !t.relays[t.calls[c].relay].closed && t.relays[t.calls[c].relay].down.Some? {
      GoOnChanges(t, c);
      hide ForwardCall, LinksAge, Current;
    }
    hide LinksAge, Current;
  }

  lemma OtherStepsAge(t: Tables, step: Step)
    requires Legal(t, step) && Possible(t, step)
    requires step.Connect? || step.HoldStep? || step.LocalHold? || step.LocalDrop? || step.CallStep? || step.Reap?
             || step.Revoke? || step.LinkDown?
    ensures Ages(t, Apply(t, step)) && Newcomers(t, Apply(t, step))
  {
    hide Current, ListsQueue;
  }

  lemma StepAges(t: Tables, step: Step)
    requires Safe(t) && GenerationsOk(t) && Legal(t, step) && Possible(t, step)
    ensures GenerationsOk(Apply(t, step)) && Ages(t, Apply(t, step))
  {
    hide Safe, GenerationsOk, Current, ListsQueue, IsOpen, Unsettled, Visits, Apply;
    var t' := Apply(t, step);
    hide *;
    match step {
      case OpenStep(_, _, _) => OpenStepAges(t, step);
      case CloseStep(_, _, _, _) => CloseAges(t, step);
      case SubStep(_, _, _) => SubStepAges(t, step);
      case UnsubStep(_, _) => UnsubStepAges(t, step);
      case GoOn(_) => GoOnStepAges(t, step);
      case CancelStep(_, _) => CallStepAges(t, step);
      case ResultStep(_, _, _) => CallStepAges(t, step);
      case _ => OtherStepsAge(t, step);
    }
    GenerationsHold(t, t');
  }

  lemma OpenStepAges(t: Tables, step: Step)
    requires Legal(t, step) && Possible(t, step) && step.OpenStep?
    ensures Ages(t, Apply(t, step)) && Newcomers(t, Apply(t, step))
  {
    hide Open, Current, ListsQueue;
    assert Current(t, step.r) && Apply(t, step) == Open(t, step.r, step.d, step.ss);
    hide *;
    OpenAges(t, step.r, step.d, step.ss);
  }

  lemma SubStepAges(t: Tables, step: Step)
    requires Possible(t, step) && step.SubStep?
    ensures Ages(t, Apply(t, step)) && Newcomers(t, Apply(t, step))
  {
    hide Subscribe;
    var r := RelayServed(t, step.o, step.hold).value;
    assert r in t.relays && Apply(t, step) == Subscribe(t, r, step.s);
    hide *;
    SubAges(t, r, step.s);
  }

  lemma UnsubStepAges(t: Tables, step: Step)
    requires Possible(t, step) && step.UnsubStep?
    ensures Ages(t, Apply(t, step)) && Newcomers(t, Apply(t, step))
  {
    hide Unsubscribe;
    var r := t.relaySubs[(step.o, step.s)];
    assert r in t.relays && Apply(t, step) == Unsubscribe(t, r, step.s, true);
    hide *;
    UnsubAges(t, r, step.s);
  }

  lemma GoOnStepAges(t: Tables, step: Step)
    requires Possible(t, step) && step.GoOn?
    ensures Ages(t, Apply(t, step)) && Newcomers(t, Apply(t, step))
  {
    hide ForwardCall;
    assert step.c in t.calls && t.calls[step.c].relay in t.relays && Apply(t, step) == ForwardCall(t, step.c);
    hide *;
    GoOnAges(t, step.c);
  }

  lemma CallStepAges(t: Tables, step: Step)
    requires Possible(t, step) && (step.CancelStep? || step.ResultStep?)
    ensures Ages(t, Apply(t, step)) && Newcomers(t, Apply(t, step))
  {
    hide Finish, CancelArrives;
    var c := if step.CancelStep? then t.incoming[(step.o, step.id)] else t.relayedCalls[(step.d, step.id)];
    var outcome := if step.ResultStep? then step.outcome else Failed;
    assert c in t.calls && t.calls[c].relay in t.relays;
    assert Apply(t, step) == if step.CancelStep? then CancelArrives(t, c) else Finish(t, c, outcome);
    hide *;
    CallsAge(t, c, outcome);
  }

  lemma GenerationsHold(t: Tables, t': Tables)
    requires GenerationsOk(t) && Ages(t, t') && Newcomers(t, t')
    ensures GenerationsOk(t')
  {
    hide Current;
  }

  /**
   * A relay that still waits for its route when its origin goes away or its principal is revoked never gets one: its
   * hold goes nowhere, whatever comes later.
   */
  lemma {:induction false} RevokedRelaysGoNowhere(steps: seq<Step>, from: Tables, t: Tables, r: nat)
    requires RunsTo(steps, from, t) && Safe(from) && GenerationsOk(from) && Revoked(from, r)
    ensures GenerationsOk(t) && Revoked(t, r)
    decreases |steps|
  {
    hide Safe, Legal, Possible, Apply, GenerationsOk, Revoked, Ages;
    if steps == [] {
    } else {
      var t0 :| RunsTo(steps[..|steps| - 1], from, t0) && Follows(t0, steps[|steps| - 1], t);
      AlwaysSafe(steps[..|steps| - 1], from, t0);
      RevokedRelaysGoNowhere(steps[..|steps| - 1], from, t0, r);
      StepAges(t0, steps[|steps| - 1]);
      StaysRevoked(t0, t, r);
    }
  }

  lemma {:induction false} GenerationsAlwaysOk(steps: seq<Step>, t: Tables)
    requires RunsTo(steps, NoTables, t)
    ensures GenerationsOk(t)
    decreases |steps|
  {
    hide Safe, Legal, Possible, Apply, Ages;
    if steps == [] {
    } else {
      hide GenerationsOk;
      var t0 :| RunsTo(steps[..|steps| - 1], NoTables, t0) && Follows(t0, steps[|steps| - 1], t);
      GenerationsAlwaysOk(steps[..|steps| - 1], t0);
      HostsAreSafe(steps[..|steps| - 1], t0);
      StepAges(t0, steps[|steps| - 1]);
    }
  }

  /**
   * A revocation, and the end of its link, revoke exactly the origin's relays that wait; one that arrives is current.
   */
  lemma RevokesWaitingRelays(t: Tables, o: nat, id: nat, r: nat)
    requires GenerationsOk(t) && o in t.links
    ensures forall q | q in t.relays ::
              && (Revoked(Apply(t, Revoke(o)), q)
                  <==> Revoked(t, q) || (t.relays[q].down.None? && t.relays[q].origin == o))
              && (Revoked(Apply(t, LinkDown(o)), q)
                  <==> Revoked(t, q) || (t.relays[q].down.None? && t.relays[q].origin == o))
    ensures t.links[o].open && r !in t.relays ==>
              Current(HoldArrives(t, o, id, r), r) && !Revoked(HoldArrives(t, o, id, r), r)
  {
  }
}
