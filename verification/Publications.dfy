/**
 * The publication queue: one FIFO of notifications for every observer, re-entrant, with a hold.
 *
 * What code does to the queue is data here: it enqueues tasks, holds delivery around more code, and sends frames at
 * once. A task is such code itself, for a notification may publish again.
 */
module Publications {

  /** `frame` numbers the frames that are sent. */
  datatype Act = Enqueue(id: nat, acts: seq<Act>) | Hold(body: seq<Act>) | Send(frame: nat)

  datatype Task = Task(id: nat, acts: seq<Act>)

  /** The tasks some code enqueues, in order. */
  function Pushes(acts: seq<Act>): seq<Task> {
    if acts == [] then []
    else
      (match acts[0]
       case Enqueue(id, more) => [Task(id, more)]
       case Hold(body) => Pushes(body)
       case Send(_) => []) + Pushes(acts[1..])
  }

  /** The frames some code sends itself, in order, not counting those its tasks send. */
  function Sends(acts: seq<Act>): seq<nat> {
    if acts == [] then []
    else
      (match acts[0]
       case Enqueue(_, _) => []
       case Hold(body) => Sends(body)
       case Send(frame) => [frame]) + Sends(acts[1..])
  }

  function ActsWeight(acts: seq<Act>): nat {
    if acts == [] then 0
    else
      (match acts[0]
       case Enqueue(_, more) => 1 + ActsWeight(more)
       case Hold(body) => 1 + ActsWeight(body)
       case Send(_) => 0) + ActsWeight(acts[1..])
  }

  function Weight(task: Task): nat { 1 + ActsWeight(task.acts) }

  function QueueWeight(queue: seq<Task>): nat { if queue == [] then 0 else Weight(queue[0]) + QueueWeight(queue[1..]) }

  lemma {:induction false} QueueWeightSum(a: seq<Task>, b: seq<Task>)
    ensures QueueWeight(a + b) == QueueWeight(a) + QueueWeight(b)
  {
    if a == [] {
      assert a + b == b;
    } else {
      QueueWeightSum(a[1..], b);
      assert (a + b)[1..] == a[1..] + b;
    }
  }

  lemma {:induction false} PushesWeigh(acts: seq<Act>)
    ensures QueueWeight(Pushes(acts)) <= ActsWeight(acts)
  {
    if acts == [] {
    } else {
      PushesWeigh(acts[1..]);
      match acts[0]
      case Enqueue(id, more) =>
        QueueWeightSum([Task(id, more)], Pushes(acts[1..]));
      case Hold(body) =>
        PushesWeigh(body);
        QueueWeightSum(Pushes(body), Pushes(acts[1..]));
      case Send(_) =>
        assert Pushes(acts) == Pushes(acts[1..]);
    }
  }

  /** Delivery of a queue, first in first out: what a task enqueues goes to the end. */
  function Delivery(queue: seq<Task>): seq<nat>
    decreases QueueWeight(queue)
  {
    if queue == [] then []
    else
      PushesWeigh(queue[0].acts);
      QueueWeightSum(queue[1..], Pushes(queue[0].acts));
      [queue[0].id] + Delivery(queue[1..] + Pushes(queue[0].acts))
  }

  /** The frames sent by a delivery, in order. */
  function DeliverySends(queue: seq<Task>): seq<nat>
    decreases QueueWeight(queue)
  {
    if queue == [] then []
    else
      PushesWeigh(queue[0].acts);
      QueueWeightSum(queue[1..], Pushes(queue[0].acts));
      Sends(queue[0].acts) + DeliverySends(queue[1..] + Pushes(queue[0].acts))
  }

  /** What code that runs while nothing is delivered or held makes run, in order. */
  function Runs(acts: seq<Act>): seq<nat> {
    if acts == [] then []
    else
      (match acts[0]
       case Enqueue(id, more) => Delivery([Task(id, more)])
       case Hold(body) => Delivery(Pushes(body))
       case Send(_) => []) + Runs(acts[1..])
  }

  /** The frames such code sends, in order: a hold sends its own first, then its deliveries send theirs. */
  function RunsSend(acts: seq<Act>): seq<nat> {
    if acts == [] then []
    else
      (match acts[0]
       case Enqueue(id, more) => DeliverySends([Task(id, more)])
       case Hold(body) => Sends(body) + DeliverySends(Pushes(body))
       case Send(frame) => [frame]) + RunsSend(acts[1..])
  }

  lemma PushesSplit(acts: seq<Act>)
    requires acts != []
    ensures Pushes(acts) == Pushes([acts[0]]) + Pushes(acts[1..])
  {
    assert [acts[0]][1..] == [];
  }

  lemma RunsSplit(acts: seq<Act>)
    requires acts != []
    ensures Runs(acts) == Runs([acts[0]]) + Runs(acts[1..])
    ensures RunsSend(acts) == RunsSend([acts[0]]) + RunsSend(acts[1..])
    ensures Sends(acts) == Sends([acts[0]]) + Sends(acts[1..])
  {
    assert [acts[0]][1..] == [];
  }

  lemma WeightSplit(acts: seq<Act>)
    requires acts != []
    ensures ActsWeight(acts) == ActsWeight([acts[0]]) + ActsWeight(acts[1..])
  {
    assert [acts[0]][1..] == [];
  }

  lemma DeliverOne(queue: seq<Task>)
    requires queue != []
    ensures var rest, pushed := queue[1..], Pushes(queue[0].acts);
            && QueueWeight(rest) + ActsWeight(queue[0].acts) < QueueWeight(queue)
            && QueueWeight(rest + pushed) < QueueWeight(queue)
            && Delivery(queue) == [queue[0].id] + Delivery(rest + pushed)
            && DeliverySends(queue) == Sends(queue[0].acts) + DeliverySends(rest + pushed)
            && Ids(queue) == [queue[0].id] + Ids(rest)
  {
    PushesWeigh(queue[0].acts);
    QueueWeightSum(queue[1..], Pushes(queue[0].acts));
  }

  /** What ran and what was sent so far. */
  datatype Log = Log(ran: seq<nat>, sent: seq<nat>)

  /**
   * What running `acts` from a queue `q` and log `r` leaves: under a delivery or a hold (`busy`) its tasks are queued,
   * otherwise they have run and the queue is empty.
   */
  predicate Effect(busy: bool, acts: seq<Act>, q: seq<Task>, r: Log, queue: seq<Task>, log: Log) {
    if busy then queue == q + Pushes(acts) && log.ran == r.ran && log.sent == r.sent + Sends(acts)
    else queue == [] && log.ran == r.ran + Runs(acts) && log.sent == r.sent + RunsSend(acts)
  }

  lemma OneAct(act: Act)
    ensures act.Enqueue? ==>
              var task := Task(act.id, act.acts);
              && Pushes([act]) == [task] && Sends([act]) == []
              && Runs([act]) == Delivery([task]) && RunsSend([act]) == DeliverySends([task])
    ensures act.Hold? ==>
              && Pushes([act]) == Pushes(act.body) && Sends([act]) == Sends(act.body)
              && Runs([act]) == Delivery(Pushes(act.body))
              && RunsSend([act]) == Sends(act.body) + DeliverySends(Pushes(act.body))
    ensures act.Send? ==>
              Pushes([act]) == [] && Sends([act]) == [act.frame] && Runs([act]) == [] && RunsSend([act]) == [act.frame]
  {
    assert [act][1..] == [];
    hide Delivery, DeliverySends;
  }

  /** What there is in the end, once the queue is delivered. */
  function Outcome(queue: seq<Task>, log: Log): Log {
    Log(log.ran + Delivery(queue), log.sent + DeliverySends(queue))
  }

  lemma OutcomeStays(queue: seq<Task>, log: Log)
    requires queue != []
    ensures Outcome(queue[1..] + Pushes(queue[0].acts), Log(log.ran + [queue[0].id], log.sent + Sends(queue[0].acts)))
            == Outcome(queue, log)
  {
    DeliverOne(queue);
    var rest := queue[1..] + Pushes(queue[0].acts);
    hide Delivery, DeliverySends, Sends, Pushes;
    Joined(log.ran, [queue[0].id], Delivery(rest));
    Joined(log.sent, Sends(queue[0].acts), DeliverySends(rest));
  }

  lemma NothingToDeliver(log: Log)
    ensures Outcome([], log) == log
  {
  }

  lemma EffectsWeigh(busy: bool, acts: seq<Act>, q: seq<Task>, r: Log, q1: seq<Task>, r1: Log)
    requires acts != [] && Effect(busy, [acts[0]], q, r, q1, r1)
    ensures QueueWeight(q1) + ActsWeight(acts[1..]) <= QueueWeight(q) + ActsWeight(acts)
  {
    assert QueueWeight([]) == 0;
    WeightSplit(acts);
    PushesWeigh([acts[0]]);
    QueueWeightSum(q, Pushes([acts[0]]));
    hide Pushes, Runs, ActsWeight, QueueWeight, Sends, RunsSend;
  }

  lemma EffectsCompose(busy: bool, acts: seq<Act>, q: seq<Task>, r: Log, q1: seq<Task>, r1: Log, q2: seq<Task>, r2: Log)
    requires acts != [] && Effect(busy, [acts[0]], q, r, q1, r1) && Effect(busy, acts[1..], q1, r1, q2, r2)
    ensures Effect(busy, acts, q, r, q2, r2)
  {
    PushesSplit(acts);
    RunsSplit(acts);
    hide Pushes, Runs, Sends, RunsSend;
    if busy {
      Joined(q, Pushes([acts[0]]), Pushes(acts[1..]));
      Joined(r.sent, Sends([acts[0]]), Sends(acts[1..]));
    } else {
      Joined(r.ran, Runs([acts[0]]), Runs(acts[1..]));
      Joined(r.sent, RunsSend([acts[0]]), RunsSend(acts[1..]));
    }
  }

  lemma Joined<T>(a: seq<T>, b: seq<T>, c: seq<T>)
    ensures (a + b) + c == a + (b + c)
  {
  }

  class PublicationQueue {
    var queue: seq<Task>
    var held: nat
    var draining: bool
    /** The tasks that ran, and all that were ever enqueued; and the frames sent. */
    var ran: seq<nat>
    var sent: seq<nat>
    ghost var enqueued: seq<nat>

    predicate Busy()
      reads this
    {
      draining || held > 0
    }

    ghost predicate Valid()
      reads this
    {
      && enqueued == ran + Ids(queue)
      && (!Busy() ==> queue == [])
    }

    constructor ()
      ensures Valid() && !Busy() && ran == [] && sent == []
    {
      queue, held, draining, ran, sent, enqueued := [], 0, false, [], [], [];
    }

    /** Runs code. Under a delivery or a hold it only queues; otherwise everything it enqueues has run at the end. */
    method Execute(acts: seq<Act>)
      requires Valid()
      modifies this
      ensures Valid() && held == old(held) && draining == old(draining)
      ensures Effect(old(Busy()), acts, old(queue), Log(old(ran), old(sent)), queue, Log(ran, sent))
      decreases QueueWeight(queue) + ActsWeight(acts), 3, |acts|
    {
      if acts == [] {
        return;
      }
      ghost var q, r := queue, Log(ran, sent);
      WeightSplit(acts);
      hide Effect, Pushes, Runs, ActsWeight, QueueWeight, Ids, Sends, RunsSend;
      ExecuteOne(acts[0]);
      ghost var q1, r1 := queue, Log(ran, sent);
      EffectsWeigh(old(Busy()), acts, q, r, q1, r1);
      Execute(acts[1..]);
      EffectsCompose(old(Busy()), acts, q, r, q1, r1, queue, Log(ran, sent));
    }

    method ExecuteOne(act: Act)
      requires Valid()
      modifies this
      ensures Valid() && held == old(held) && draining == old(draining)
      ensures Effect(old(Busy()), [act], old(queue), Log(old(ran), old(sent)), queue, Log(ran, sent))
      decreases QueueWeight(queue) + ActsWeight([act]), 3, 0
    {
      OneAct(act);
      hide Delivery, DeliverySends, Ids, Pushes, Sends, Runs, RunsSend;
      match act {
        case Enqueue(id, more) => EnqueueTask(Task(id, more));
        case Hold(body) => HoldPublications(body);
        case Send(frame) => sent := sent + [frame];
      }
    }

    method EnqueueTask(task: Task)
      requires Valid()
      modifies this
      ensures Valid() && held == old(held) && draining == old(draining)
      ensures old(Busy()) ==> queue == old(queue) + [task] && ran == old(ran) && sent == old(sent)
      ensures !old(Busy()) ==>
              queue == [] && ran == old(ran) + Delivery([task]) && sent == old(sent) + DeliverySends([task])
      decreases QueueWeight(queue) + Weight(task), 2
    {
      QueueWeightSum(queue, [task]);
      queue, enqueued := queue + [task], enqueued + [task.id];
      assert Ids(queue) == Ids(old(queue)) + [task.id];
      Drain();
    }

    method HoldPublications(body: seq<Act>)
      requires Valid()
      modifies this
      ensures Valid() && held == old(held) && draining == old(draining)
      ensures old(Busy()) ==> queue == old(queue) + Pushes(body) && ran == old(ran) && sent == old(sent) + Sends(body)
      ensures !old(Busy()) ==>
                queue == [] && ran == old(ran) + Delivery(Pushes(body))
                && sent == old(sent) + (Sends(body) + DeliverySends(Pushes(body)))
      decreases QueueWeight(queue) + 1 + ActsWeight(body), 2
    {
      PushesWeigh(body);
      QueueWeightSum(queue, Pushes(body));
      hide Delivery, DeliverySends, Pushes, Sends, Runs, RunsSend, Ids;
      held := held + 1;
      Execute(body);
      assert [] + Pushes(body) == Pushes(body);
      held := held - 1;
      Drain();
      Joined(old(sent), Sends(body), DeliverySends(Pushes(body)));
    }

    /** Delivers the queue, unless a delivery or a hold is already under way. No task runs inside another or a hold. */
    method Drain()
      requires enqueued == ran + Ids(queue)
      modifies this
      ensures Valid() && held == old(held) && draining == old(draining)
      ensures old(Busy()) ==> queue == old(queue) && ran == old(ran) && sent == old(sent)
      ensures !old(Busy()) ==>
                queue == [] && ran == old(ran) + Delivery(old(queue)) && sent == old(sent) + DeliverySends(old(queue))
      decreases QueueWeight(queue), 1
    {
      if draining || held > 0 {
        return;
      }
      ghost var total := Outcome(queue, Log(ran, sent));
      hide Outcome, Pushes, Runs, RunsSend, Sends, ActsWeight, QueueWeight, Ids;
      draining := true;
      while queue != []
        invariant held == 0 && draining && enqueued == ran + Ids(queue)
        invariant QueueWeight(queue) <= old(QueueWeight(queue))
        invariant Outcome(queue, Log(ran, sent)) == total
        decreases QueueWeight(queue)
      {
        var task := queue[0];
        DeliverOne(queue);
        OutcomeStays(queue, Log(ran, sent));
        hide Delivery, DeliverySends;
        ran, queue := ran + [task.id], queue[1..];
        assert ran + Ids(queue) == enqueued;
        Execute(task.acts);
      }
      draining := false;
      NothingToDeliver(Log(ran, sent));
      OutcomeIs(old(queue), Log(old(ran), old(sent)));
    }
  }

  lemma OutcomeIs(queue: seq<Task>, log: Log)
    ensures Outcome(queue, log).ran == log.ran + Delivery(queue)
    ensures Outcome(queue, log).sent == log.sent + DeliverySends(queue)
  {
  }

  function Ids(queue: seq<Task>): seq<nat> { seq(|queue|, i requires 0 <= i < |queue| => queue[i].id) }

  /**
   * Notifications run once each, in the order they were enqueued, whatever they publish in turn: at every moment the
   * tasks that ran are the first that were enqueued, and when nothing is delivered or held they are all of them.
   */
  lemma RunInEnqueueOrder(q: PublicationQueue)
    requires q.Valid()
    ensures q.ran <= q.enqueued
    ensures !q.Busy() ==> q.ran == q.enqueued
  {
  }

  // ---------------------------------------------------------------- what order that is

  /** All tasks that code will ever lead to, as a multiset. */
  function ActsTree(acts: seq<Act>): multiset<nat> {
    if acts == [] then multiset{}
    else
      (match acts[0]
       case Enqueue(id, more) => multiset{id} + ActsTree(more)
       case Hold(body) => ActsTree(body)
       case Send(_) => multiset{}) + ActsTree(acts[1..])
  }

  function Tree(task: Task): multiset<nat> { multiset{task.id} + ActsTree(task.acts) }

  function QueueTree(queue: seq<Task>): multiset<nat> {
    if queue == [] then multiset{} else Tree(queue[0]) + QueueTree(queue[1..])
  }

  lemma {:induction false} QueueTreeSum(a: seq<Task>, b: seq<Task>)
    ensures QueueTree(a + b) == QueueTree(a) + QueueTree(b)
  {
    hide Tree;
    if a == [] {
      assert a + b == b;
    } else {
      QueueTreeSum(a[1..], b);
      assert (a + b)[1..] == a[1..] + b;
    }
  }

  lemma {:induction false} PushesTree(acts: seq<Act>)
    ensures QueueTree(Pushes(acts)) == ActsTree(acts)
  {
    if acts == [] {
    } else {
      PushesTree(acts[1..]);
      match acts[0]
      case Enqueue(id, more) => QueueTreeSum([Task(id, more)], Pushes(acts[1..]));
      case Hold(body) =>
        PushesTree(body);
        QueueTreeSum(Pushes(body), Pushes(acts[1..]));
      case Send(_) => assert Pushes(acts) == Pushes(acts[1..]);
    }
  }

  /** A delivery runs every task of the queue and every task those lead to, each exactly as often as it was enqueued. */
  lemma {:induction false} DeliveryIsComplete(queue: seq<Task>)
    ensures multiset(Delivery(queue)) == QueueTree(queue)
    decreases QueueWeight(queue)
  {
    if queue == [] {
    } else {
      var task := queue[0];
      PushesWeigh(task.acts);
      QueueWeightSum(queue[1..], Pushes(task.acts));
      DeliveryIsComplete(queue[1..] + Pushes(task.acts));
      QueueTreeSum(queue[1..], Pushes(task.acts));
      PushesTree(task.acts);
      assert Delivery(queue) == [task.id] + Delivery(queue[1..] + Pushes(task.acts));
    }
  }

  /** The tasks waiting in a queue run before anything any of them enqueues. */
  lemma {:induction false} WaitingRunFirst(a: seq<Task>, b: seq<Task>)
    ensures Ids(a) <= Delivery(a + b)
    decreases |a|
  {
    if a == [] {
    } else {
      var queue := a + b;
      PushesWeigh(queue[0].acts);
      QueueWeightSum(queue[1..], Pushes(queue[0].acts));
      assert queue[1..] + Pushes(queue[0].acts) == a[1..] + (b + Pushes(queue[0].acts));
      WaitingRunFirst(a[1..], b + Pushes(queue[0].acts));
      assert Ids(a) == [a[0].id] + Ids(a[1..]);
    }
  }
}
