/**
 * Listener events of one subscription across upgrades, on the publication queue. A source's revision is delivered by a
 * task that, when it runs, queues the listener's task; a resource's own event queues the listener's task at once. When
 * the listener's task runs, the event is delivered, or set aside if the record's gate is up. Reopening the gate queues
 * the listener's tasks of what was set aside again.
 */
module GateQueue {
  import opened Wrappers

  datatype Task = FanOut(event: nat) | Listener(event: nat)

  /**
   * `direct`: the listener is on a resource, not on a source. `aside` is the gate's queue, if the gate is up; `held`
   * says that a commit holds publications; `lost` are events of gates that another reload replaced.
   */
  datatype Subscription = Subscription(
    direct: bool,
    published: seq<nat>,
    queue: seq<Task>,
    aside: Option<seq<nat>>,
    delivered: seq<nat>,
    lost: seq<nat>,
    held: bool)

  function NewSubscription(direct: bool): Subscription { Subscription(direct, [], [], None, [], [], false) }

  datatype Step = Publish(event: nat) | RunTask | CutGate | OpenGate | Hold | Release

  /** Code that is neither a task nor under a hold finds the queue empty (`Publications.RunInEnqueueOrder`). */
  predicate AtRest(s: Subscription) { s.queue == [] && !s.held }

  /** Reloads cut, roll back and begin their commit between awaits, at rest; a commit reopens gates under its hold. */
  predicate Legal(s: Subscription, step: Step) {
    match step
    case Publish(_) => true
    case RunTask => !s.held && s.queue != []
    case CutGate => AtRest(s)
    case OpenGate => AtRest(s) || s.held
    case Hold => AtRest(s)
    case Release => s.held
  }

  function Aside(s: Subscription): seq<nat> { if s.aside.Some? then s.aside.value else [] }

  function Listeners(events: seq<nat>): seq<Task> { seq(|events|, i requires 0 <= i < |events| => Listener(events[i])) }

  function Apply(s: Subscription, step: Step): Subscription
    requires Legal(s, step)
  {
    match step
    case Publish(event) =>
      s.(published := s.published + [event], queue := s.queue + [if s.direct then Listener(event) else FanOut(event)])
    case RunTask =>
      var task, rest := s.queue[0], s.queue[1..];
      if task.FanOut? then s.(queue := rest + [Listener(task.event)])
      else if s.aside.Some? then s.(queue := rest, aside := Some(s.aside.value + [task.event]))
      else s.(queue := rest, delivered := s.delivered + [task.event])
    case CutGate => s.(aside := Some([]), lost := s.lost + Aside(s))
    case OpenGate => s.(aside := None, queue := s.queue + Listeners(Aside(s)))
    case Hold => s.(held := true)
    case Release => s.(held := false)
  }

  ghost predicate RunsTo(steps: seq<Step>, from: Subscription, s: Subscription)
    decreases |steps|
  {
    if steps == [] then s == from
    else
      var rest, last := steps[..|steps| - 1], steps[|steps| - 1];
      exists s0 :: RunsTo(rest, from, s0) && Follows(s0, last, s)
  }

  predicate Follows(s0: Subscription, step: Step, s: Subscription) { Legal(s0, step) && s == Apply(s0, step) }

  // ---------------------------------------------------------------- the queue, by kind of task

  /** The events whose listener's task is queued, in order. */
  function Ready(queue: seq<Task>): seq<nat> {
    if queue == [] then []
    else Ready(queue[..|queue| - 1])
         + (if queue[|queue| - 1].Listener? then [queue[|queue| - 1].event] else [])
  }

  /** The events that are still to be fanned out, in order. */
  function Coming(queue: seq<Task>): seq<nat> {
    if queue == [] then []
    else Coming(queue[..|queue| - 1]) + (if queue[|queue| - 1].FanOut? then [queue[|queue| - 1].event] else [])
  }

  lemma QueueSnoc(queue: seq<Task>, task: Task)
    ensures Ready(queue + [task]) == Ready(queue) + (if task.Listener? then [task.event] else [])
    ensures Coming(queue + [task]) == Coming(queue) + (if task.FanOut? then [task.event] else [])
  {
    assert (queue + [task])[..|queue + [task]| - 1] == queue;
  }

  lemma {:induction false} QueueCons(queue: seq<Task>)
    requires queue != []
    ensures Ready(queue) == (if queue[0].Listener? then [queue[0].event] else []) + Ready(queue[1..])
    ensures Coming(queue) == (if queue[0].FanOut? then [queue[0].event] else []) + Coming(queue[1..])
    decreases |queue|
  {
    var rest, last := queue[..|queue| - 1], queue[|queue| - 1];
    if rest == [] {
      assert queue == [] + [last];
      QueueSnoc([], last);
    } else {
      QueueCons(rest);
      assert queue[1..] == rest[1..] + [last];
      QueueSnoc(rest[1..], last);
      assert queue == rest + [last];
      QueueSnoc(rest, last);
    }
  }

  lemma ListenersSnoc(events: seq<nat>)
    requires events != []
    ensures Listeners(events) == Listeners(events[..|events| - 1]) + [Listener(events[|events| - 1])]
  {
  }

  lemma {:induction false} QueueListeners(queue: seq<Task>, events: seq<nat>)
    ensures Ready(queue + Listeners(events)) == Ready(queue) + events
    ensures Coming(queue + Listeners(events)) == Coming(queue)
    decreases |events|
  {
    if events == [] {
      assert queue + Listeners(events) == queue;
    } else {
      var rest, last := events[..|events| - 1], events[|events| - 1];
      ListenersSnoc(events);
      hide Ready, Coming, Listeners;
      QueueListeners(queue, rest);
      assert queue + Listeners(events) == queue + Listeners(rest) + [Listener(last)];
      QueueSnoc(queue + Listeners(rest), Listener(last));
      assert events == rest + [last];
    }
  }

  /** A fan-out moves its event to the end of those that are ready; a listener's task takes the first of them away. */
  lemma RunMoves(s: Subscription)
    requires Legal(s, RunTask)
    ensures var task, s' := s.queue[0], Apply(s, RunTask);
            && s'.lost == s.lost
            && s'.delivered + Aside(s') == s.delivered + Aside(s) + (if task.Listener? then [task.event] else [])
            && if task.FanOut?
            then Ready(s'.queue) == Ready(s.queue) + [task.event] && Coming(s.queue) == [task.event] + Coming(s'.queue)
            else Ready(s.queue) == [task.event] + Ready(s'.queue) && Coming(s'.queue) == Coming(s.queue)
  {
    QueueCons(s.queue);
    QueueSnoc(s.queue[1..], Listener(s.queue[0].event));
    hide Ready, Coming;
    assert s.aside.Some? ==>
             s.delivered + (Aside(s) + [s.queue[0].event]) == s.delivered + Aside(s) + [s.queue[0].event];
  }

  // ---------------------------------------------------------------- nothing is lost or doubled

  function Count(events: seq<nat>, event: nat): nat { multiset(events)[event] }

  /** How often an event is anywhere. */
  function Present(s: Subscription, event: nat): nat {
    Count(s.delivered, event) + Count(Aside(s), event) + Count(Ready(s.queue), event) + Count(Coming(s.queue), event)
    + Count(s.lost, event)
  }

  /** Every event is somewhere, as often as it was published. */
  ghost predicate Accounted(s: Subscription) { forall event :: Present(s, event) == Count(s.published, event) }

  lemma CountSum(a: seq<nat>, b: seq<nat>, event: nat)
    ensures Count(a + b, event) == Count(a, event) + Count(b, event)
  {
    assert multiset(a + b) == multiset(a) + multiset(b);
  }

  lemma StepAccounts(s: Subscription, step: Step)
    requires Accounted(s) && Legal(s, step)
    ensures Accounted(Apply(s, step))
  {
    var s' := Apply(s, step);
    forall event ensures Present(s', event) == Count(s'.published, event) {
      assert Present(s, event) == Count(s.published, event);
      match step
      case Publish(e) => PublishCounts(s, e, event);
      case RunTask => RunCounts(s, event);
      case CutGate => CountSum(s.lost, Aside(s), event);
      case OpenGate =>
        QueueListeners(s.queue, Aside(s));
        CountSum(Ready(s.queue), Aside(s), event);
      case _ =>
    }
  }

  lemma PublishCounts(s: Subscription, e: nat, event: nat)
    ensures Present(Apply(s, Publish(e)), event) == Present(s, event) + Count([e], event)
    ensures Count(s.published + [e], event) == Count(s.published, event) + Count([e], event)
  {
    QueueSnoc(s.queue, if s.direct then Listener(e) else FanOut(e));
    hide Ready, Coming;
    CountSum(s.published, [e], event);
    CountSum(Ready(s.queue), [e], event);
    CountSum(Coming(s.queue), [e], event);
  }

  lemma RunCounts(s: Subscription, event: nat)
    requires Legal(s, RunTask)
    ensures Present(Apply(s, RunTask), event) == Present(s, event)
  {
    RunMoves(s);
    hide Ready, Coming, Count, Apply, Aside;
    var task, s' := s.queue[0], Apply(s, RunTask);
    var one := if task.Listener? then [task.event] else [];
    CountSum(s'.delivered, Aside(s'), event);
    CountSum(s.delivered, Aside(s), event);
    CountSum(s.delivered + Aside(s), one, event);
    if task.FanOut? {
      CountNone(event);
      CountSum(Ready(s.queue), [task.event], event);
      CountSum([task.event], Coming(s'.queue), event);
    } else {
      CountSum([task.event], Ready(s'.queue), event);
    }
  }

  lemma CountNone(event: nat)
    ensures Count([], event) == 0
  {
  }

  /** A step loses events exactly if it cuts a gate while another reload's gate has events set aside. */
  lemma StepLosesIff(s: Subscription, step: Step)
    requires Legal(s, step)
    ensures s.lost <= Apply(s, step).lost
    ensures Apply(s, step).lost != s.lost <==> step.CutGate? && Aside(s) != []
  {
  }

  /**
   * In every run every event is delivered, set aside, on its way or lost, and counted once; and when nothing waits,
   * every event was delivered exactly once if and only if no gate was cut over another that had events set aside.
   */
  lemma {:induction false} DeliveredExactlyOnceIff(steps: seq<Step>, direct: bool, s: Subscription)
    requires RunsTo(steps, NewSubscription(direct), s)
    ensures Accounted(s)
    ensures AtRest(s) && s.aside.None? ==> (multiset(s.delivered) == multiset(s.published) <==> s.lost == [])
    decreases |steps|
  {
    if steps == [] {
    } else {
      var rest, last := steps[..|steps| - 1], steps[|steps| - 1];
      var s0 :| RunsTo(rest, NewSubscription(direct), s0) && Follows(s0, last, s);
      DeliveredExactlyOnceIff(rest, direct, s0);
      StepAccounts(s0, last);
    }
    RestIff(s);
  }

  lemma RestIff(s: Subscription)
    requires Accounted(s)
    ensures AtRest(s) && s.aside.None? ==> (multiset(s.delivered) == multiset(s.published) <==> s.lost == [])
  {
    if AtRest(s) && s.aside.None? {
      assert forall event :: Present(s, event) == Count(s.delivered, event) + Count(s.lost, event);
      if s.lost == [] {
        assert forall event :: Present(s, event) == multiset(s.delivered)[event] == multiset(s.published)[event];
      } else {
        assert s.lost[0] in multiset(s.lost);
        assert Present(s, s.lost[0]) > multiset(s.delivered)[s.lost[0]];
      }
    }
  }

  /** Two reloads overlap: the second cuts the gate before the first one's rollback reopened it, and event 1 is lost. */
  lemma OverlapLosesEvents() returns (steps: seq<Step>, s: Subscription)
    ensures RunsTo(steps, NewSubscription(true), s) && AtRest(s) && s.aside.None? && s.published == [1]
            && s.delivered == []
  {
    var s0 := NewSubscription(true);
    var s1 := s0.(aside := Some([]));
    var s2 := s1.(published := [1], queue := [Listener(1)]);
    var s3 := s2.(queue := [], aside := Some([1]));
    var s4 := s3.(aside := Some([]), lost := [1]);
    s := s4.(aside := None);
    steps := [];
    steps := Then(steps, s0, s0, CutGate, s1);
    steps := Then(steps, s0, s1, Publish(1), s2);
    steps := Then(steps, s0, s2, RunTask, s3);
    steps := Then(steps, s0, s3, CutGate, s4);
    steps := Then(steps, s0, s4, OpenGate, s);
  }

  lemma Then(steps: seq<Step>, from: Subscription, s: Subscription, step: Step, s': Subscription)
    returns (all: seq<Step>)
    requires RunsTo(steps, from, s) && Follows(s, step, s')
    ensures all == steps + [step] && RunsTo(all, from, s')
  {
    all := steps + [step];
    assert all[..|all| - 1] == steps;
    assert Follows(s, step, s');
  }

  // ---------------------------------------------------------------- order

  /** Delivered, set aside, queued and coming, in that order, are the events in the order they were published. */
  predicate InOrder(s: Subscription) { s.published == s.delivered + Aside(s) + Ready(s.queue) + Coming(s.queue) }

  /**
   * Reopening a gate keeps the order exactly if no listener's task is queued behind which what was set aside would go.
   */
  lemma ReopeningKeepsOrderIff(s: Subscription)
    requires InOrder(s) && Legal(s, OpenGate)
    requires forall i, j | 0 <= i < j < |s.published| :: s.published[i] != s.published[j]
    ensures InOrder(Apply(s, OpenGate)) <==> Ready(s.queue) == [] || Aside(s) == []
  {
    QueueListeners(s.queue, Aside(s));
    hide Ready, Coming, Listeners;
    SwapIff(s.published, s.delivered, Aside(s), Ready(s.queue), Coming(s.queue));
    assert s.delivered + [] == s.delivered;
    assert s.delivered + (Ready(s.queue) + Aside(s)) + Coming(s.queue)
        == s.delivered + Ready(s.queue) + Aside(s) + Coming(s.queue);
  }

  lemma SwapIff(all: seq<nat>, front: seq<nat>, a: seq<nat>, b: seq<nat>, rest: seq<nat>)
    requires all == front + a + b + rest
    requires forall i, j | 0 <= i < j < |all| :: all[i] != all[j]
    ensures all == front + b + a + rest <==> a == [] || b == []
  {
    if a == [] || b == [] {
      assert a + b == b + a;
      assert front + a + b == front + (a + b) && front + b + a == front + (b + a);
    } else {
      var n := |front|;
      assert (front + b + a + rest)[n] == b[0];
      assert all[n] == a[0] && all[n + |a|] == b[0];
    }
  }

  /** On a source: no listener's task is queued while a commit holds publications and the gate is up. */
  predicate SourceOk(s: Subscription) {
    && (s.direct ==> Coming(s.queue) == [])
    && (!s.direct && s.held && s.aside.Some? ==> Ready(s.queue) == [])
  }

  lemma StepKeepsSource(s: Subscription, step: Step)
    requires SourceOk(s) && Legal(s, step)
    ensures SourceOk(Apply(s, step))
  {
    match step
    case Publish(event) => QueueSnoc(s.queue, if s.direct then Listener(event) else FanOut(event));
    case RunTask =>
      QueueCons(s.queue);
      QueueSnoc(s.queue[1..], Listener(s.queue[0].event));
    case OpenGate => QueueListeners(s.queue, Aside(s));
    case _ =>
  }

  lemma StepKeepsOrder(s: Subscription, step: Step)
    requires InOrder(s) && SourceOk(s) && Legal(s, step) && Apply(s, step).lost == s.lost
    requires step.OpenGate? ==> Ready(s.queue) == [] || Aside(s) == []
    ensures InOrder(Apply(s, step))
  {
    match step
    case Publish(event) => PublishKeepsOrder(s, event);
    case RunTask => RunKeepsOrder(s);
    case OpenGate => OpenKeepsOrder(s);
    case _ =>
  }

  lemma PublishKeepsOrder(s: Subscription, event: nat)
    requires InOrder(s) && SourceOk(s)
    ensures InOrder(Apply(s, Publish(event)))
  {
    QueueSnoc(s.queue, if s.direct then Listener(event) else FanOut(event));
    hide Ready, Coming;
    var front := s.delivered + Aside(s);
    assert front + (Ready(s.queue) + [event]) + [] == front + Ready(s.queue) + [] + [event];
    assert front + Ready(s.queue) + (Coming(s.queue) + [event]) == front + Ready(s.queue) + Coming(s.queue) + [event];
  }

  lemma RunKeepsOrder(s: Subscription)
    requires InOrder(s) && Legal(s, RunTask)
    ensures InOrder(Apply(s, RunTask))
  {
    RunMoves(s);
    hide Ready, Coming;
    var task, s' := s.queue[0], Apply(s, RunTask);
    assert s'.published == s.published;
    hide Apply, Aside;
    var front, front' := s.delivered + Aside(s), s'.delivered + Aside(s');
    if task.FanOut? {
      assert front' == front;
      assert front + Ready(s.queue) + ([task.event] + Coming(s'.queue))
          == front + (Ready(s.queue) + [task.event]) + Coming(s'.queue);
    } else {
      assert front + ([task.event] + Ready(s'.queue)) == front + [task.event] + Ready(s'.queue);
    }
  }

  lemma OpenKeepsOrder(s: Subscription)
    requires InOrder(s) && Legal(s, OpenGate) && (Ready(s.queue) == [] || Aside(s) == [])
    ensures InOrder(Apply(s, OpenGate))
  {
    QueueListeners(s.queue, Aside(s));
    hide Ready, Coming;
    assert Ready(s.queue) + Aside(s) == Aside(s) + Ready(s.queue);
    assert s.delivered + [] + (Aside(s) + Ready(s.queue)) == s.delivered + Aside(s) + Ready(s.queue);
  }

  /**
   * A listener on a source hears its revisions in the order they were published, across any number of reloads that do
   * not replace each other's gates: the queue alone sees to it, for a commit reopens gates before anything it held
   * runs.
   */
  lemma {:induction false} DeliveredInOrder(steps: seq<Step>, s: Subscription)
    requires RunsTo(steps, NewSubscription(false), s) && s.lost == []
    ensures InOrder(s) && SourceOk(s) && !s.direct && s.delivered <= s.published
    decreases |steps|
  {
    if steps == [] {
    } else {
      var rest, last := steps[..|steps| - 1], steps[|steps| - 1];
      var s0 :| RunsTo(rest, NewSubscription(false), s0) && Follows(s0, last, s);
      StepLosesIff(s0, last);
      DeliveredInOrder(rest, s0);
      StepKeepsSource(s0, last);
      assert last.OpenGate? ==> Ready(s0.queue) == [] || Aside(s0) == [];
      StepKeepsOrder(s0, last);
    }
  }

  /** A resource that emits while a commit runs, before its gate reopens, is heard out of order. */
  lemma DirectEventsOvertake() returns (steps: seq<Step>, s: Subscription)
    ensures RunsTo(steps, NewSubscription(true), s) && AtRest(s) && s.published == [1, 2] && s.delivered == [2, 1]
  {
    var s0, s3 := NewSubscription(true), Emitted([1], [], Some([1]), [], false);
    var s1, s2 := Emitted([], [], Some([]), [], false), Emitted([1], [Listener(1)], Some([]), [], false);
    Overtakes();
    SetsAside();
    steps := [];
    assert RunsTo(steps, s0, s0);
    hide Follows, RunsTo;
    steps := Then(steps, s0, s0, CutGate, s1);
    steps := Then(steps, s0, s1, Publish(1), s2);
    steps := Then(steps, s0, s2, RunTask, s3);
    steps := Then(steps, s0, s3, Hold, Emitted([1], [], Some([1]), [], true));
    steps := Then(steps, s0, Emitted([1], [], Some([1]), [], true), Publish(2),
                  Emitted([1, 2], [Listener(2)], Some([1]), [], true));
    steps := Then(steps, s0, Emitted([1, 2], [Listener(2)], Some([1]), [], true), OpenGate,
                  Emitted([1, 2], [Listener(2), Listener(1)], None, [], true));
    steps := Then(steps, s0, Emitted([1, 2], [Listener(2), Listener(1)], None, [], true), Release,
                  Emitted([1, 2], [Listener(2), Listener(1)], None, [], false));
    steps := Then(steps, s0, Emitted([1, 2], [Listener(2), Listener(1)], None, [], false), RunTask,
                  Emitted([1, 2], [Listener(1)], None, [2], false));
    s := Emitted([1, 2], [], None, [2, 1], false);
    steps := Then(steps, s0, Emitted([1, 2], [Listener(1)], None, [2], false), RunTask, s);
  }

  function Emitted(published: seq<nat>, queue: seq<Task>, aside: Option<seq<nat>>, delivered: seq<nat>, held: bool)
    : Subscription
  {
    Subscription(true, published, queue, aside, delivered, [], held)
  }

  lemma SetsAside()
    ensures Follows(NewSubscription(true), CutGate, Emitted([], [], Some([]), [], false))
    ensures Follows(Emitted([], [], Some([]), [], false), Publish(1), Emitted([1], [Listener(1)], Some([]), [], false))
    ensures Follows(Emitted([1], [Listener(1)], Some([]), [], false), RunTask, Emitted([1], [], Some([1]), [], false))
  {
    assert [Listener(1)][1..] == [] && [] + [1] == [1];
  }

  lemma Overtakes()
    ensures Follows(Emitted([1], [], Some([1]), [], false), Hold, Emitted([1], [], Some([1]), [], true))
    ensures Follows(Emitted([1], [], Some([1]), [], true), Publish(2),
                    Emitted([1, 2], [Listener(2)], Some([1]), [], true))
    ensures Follows(Emitted([1, 2], [Listener(2)], Some([1]), [], true), OpenGate,
                    Emitted([1, 2], [Listener(2), Listener(1)], None, [], true))
    ensures Follows(Emitted([1, 2], [Listener(2), Listener(1)], None, [], true), Release,
                    Emitted([1, 2], [Listener(2), Listener(1)], None, [], false))
    ensures Follows(Emitted([1, 2], [Listener(2), Listener(1)], None, [], false), RunTask,
                    Emitted([1, 2], [Listener(1)], None, [2], false))
    ensures Follows(Emitted([1, 2], [Listener(1)], None, [2], false), RunTask, Emitted([1, 2], [], None, [2, 1], false))
  {
    assert Listeners([1]) == [Listener(1)];
  }
}
