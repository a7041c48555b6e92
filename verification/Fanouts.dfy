/**
 * Fan-out of one source's revisions: a listener gets a snapshot when it subscribes, then every later revision, in
 * adoption order. Revisions are numbered; a publication adopts one and queues its delivery to the listeners of that
 * moment.
 */
module Fanouts {

  datatype Event = Snap(revision: nat) | Ops(revision: nat)

  /** A queued delivery: the revision and the listeners subscribed when it was published. */
  datatype Delivery = Delivery(revision: nat, listeners: set<nat>)

  datatype Fanout = Fanout(revision: nat, active: set<nat>, queue: seq<Delivery>, seen: map<nat, seq<Event>>)

  const NewFanout: Fanout := Fanout(0, {}, [], map[])

  function Emit(f: Fanout): Fanout {
    f.(revision := f.revision + 1, queue := f.queue + [Delivery(f.revision + 1, f.active)])
  }

  function Heard(seen: map<nat, seq<Event>>, l: nat): seq<Event> { if l in seen then seen[l] else [] }

  function Subscribe(f: Fanout, l: nat): Fanout {
    f.(active := f.active + {l}, seen := f.seen[l := Heard(f.seen, l) + [Snap(f.revision)]])
  }

  function Unsubscribe(f: Fanout, l: nat): Fanout { f.(active := f.active - {l}) }

  /** Delivers the first queued revision to the listeners of its publication that are still subscribed. */
  function Deliver(f: Fanout): Fanout
    requires f.queue != []
  {
    var d := f.queue[0];
    f.(queue := f.queue[1..],
       seen := map l | l in f.seen ::
         if l in d.listeners && l in f.active then f.seen[l] + [Ops(d.revision)] else f.seen[l])
  }

  datatype Step = EmitStep | SubscribeStep(l: nat) | UnsubscribeStep(l: nat) | DeliverStep

  function Apply(f: Fanout, step: Step): Fanout
    requires step.DeliverStep? ==> f.queue != []
  {
    match step
    case EmitStep => Emit(f)
    case SubscribeStep(l) => Subscribe(f, l)
    case UnsubscribeStep(l) => Unsubscribe(f, l)
    case DeliverStep => Deliver(f)
  }

  /** Every subscription is made with a listener of its own. */
  predicate Legal(f: Fanout, step: Step) {
    (step.DeliverStep? ==> f.queue != []) && (step.SubscribeStep? ==> step.l !in f.seen)
  }

  // ---------------------------------------------------------------- what a listener hears

  /** A snapshot of some revision and exactly the revisions after it, without gap or overlap. */
  predicate Contiguous(events: seq<Event>) {
    && events != [] && events[0].Snap?
    && forall i | 0 < i < |events| :: events[i] == Ops(events[0].revision + i)
  }

  /** The revision the last event brought. */
  function Last(events: seq<Event>): int
    requires events != []
  {
    events[0].revision + |events| - 1
  }

  /** Deliveries are queued for consecutive revisions, up to the last one adopted. */
  ghost predicate QueueOk(f: Fanout) {
    && |f.queue| <= f.revision
    && (forall i | 0 <= i < |f.queue| :: f.queue[i].revision == f.revision - |f.queue| + 1 + i)
  }

  /** A queued delivery lists the listener exactly if it brings a revision after `last`. */
  ghost predicate Awaits(f: Fanout, l: nat, last: int) {
    forall i | 0 <= i < |f.queue| :: (l in f.queue[i].listeners) == (f.queue[i].revision > last)
  }

  /** What an active listener still has to hear is queued for it, and only that. */
  ghost predicate ListenerOk(f: Fanout, l: nat)
    requires l in f.seen
  {
    && Contiguous(f.seen[l])
    && (l in f.active ==>
          f.revision - |f.queue| <= Last(f.seen[l]) <= f.revision && Awaits(f, l, Last(f.seen[l])))
  }

  ghost predicate Inv(f: Fanout) {
    && f.active <= f.seen.Keys && QueueOk(f)
    && (forall d, l | d in f.queue && l in d.listeners :: l in f.seen)
    && (forall l | l in f.seen :: ListenerOk(f, l))
  }

  lemma SubscribeKeeps(f: Fanout, l: nat)
    requires Inv(f) && l !in f.seen
    ensures Inv(Subscribe(f, l))
  {
    var f' := Subscribe(f, l);
    assert f'.seen[l] == [Snap(f.revision)];
    forall i | 0 <= i < |f'.queue| ensures l !in f'.queue[i].listeners {
      assert f.queue[i] in f.queue;
    }
    forall k | k in f'.seen ensures ListenerOk(f', k) {
      assert k != l ==>
             ListenerOk(f, k) && f'.seen[k] == f.seen[k]
               && Awaits(f, k, Last(f.seen[k])) == Awaits(f', k, Last(f.seen[k]));
    }
  }

  lemma EmitKeeps(f: Fanout)
    requires Inv(f)
    ensures Inv(Emit(f))
  {
    var f' := Emit(f);
    forall l | l in f'.seen ensures ListenerOk(f', l) {
      assert ListenerOk(f, l);
    }
  }

  lemma UnsubscribeKeeps(f: Fanout, l: nat)
    requires Inv(f)
    ensures Inv(Unsubscribe(f, l))
  {
    var f' := Unsubscribe(f, l);
    forall k | k in f'.seen ensures ListenerOk(f', k) {
      assert ListenerOk(f, k);
      assert k in f'.active ==> Awaits(f, k, Last(f.seen[k])) && Awaits(f', k, Last(f.seen[k]));
    }
  }

  lemma DeliverKeeps(f: Fanout)
    requires Inv(f) && f.queue != []
    ensures Inv(Deliver(f))
  {
    var f', d := Deliver(f), f.queue[0];
    assert d.revision == f.revision - |f.queue| + 1;
    forall l | l in f'.seen ensures ListenerOk(f', l) {
      assert ListenerOk(f, l);
      if l in f.active {
        assert (l in d.listeners) == (d.revision > Last(f.seen[l]));
        forall i | 0 <= i < |f'.queue|
          ensures (l in f'.queue[i].listeners) == (f'.queue[i].revision > Last(f'.seen[l]))
        {
          assert f'.queue[i] == f.queue[i + 1];
        }
      }
    }
    forall e, l | e in f'.queue && l in e.listeners ensures l in f'.seen {
      assert e in f.queue;
    }
  }

  // ---------------------------------------------------------------- every run

  ghost predicate RunsTo(steps: seq<Step>, f: Fanout)
    decreases |steps|
  {
    if steps == [] then f == NewFanout
    else
      var rest, last := steps[..|steps| - 1], steps[|steps| - 1];
      exists f0 :: RunsTo(rest, f0) && Follows(f0, last, f)
  }

  predicate Follows(f0: Fanout, step: Step, f: Fanout) { Legal(f0, step) && f == Apply(f0, step) }

  lemma {:induction false} AlwaysInv(steps: seq<Step>, f: Fanout)
    requires RunsTo(steps, f)
    ensures Inv(f)
    decreases |steps|
  {
    if steps == [] {
    } else {
      var rest, last := steps[..|steps| - 1], steps[|steps| - 1];
      var f0 :| RunsTo(rest, f0) && Follows(f0, last, f);
      AlwaysInv(rest, f0);
      match last
      case EmitStep => EmitKeeps(f0);
      case SubscribeStep(l) => SubscribeKeeps(f0, l);
      case UnsubscribeStep(l) => UnsubscribeKeeps(f0, l);
      case DeliverStep => DeliverKeeps(f0);
    }
  }

  /**
   * In every run a listener hears a snapshot and exactly the revisions after it, in adoption order; once everything is
   * delivered, up to the last one.
   */
  lemma ListenersMissNothing(steps: seq<Step>, f: Fanout, l: nat)
    requires RunsTo(steps, f) && l in f.seen
    ensures Contiguous(f.seen[l])
    ensures l in f.active && f.queue == [] ==> Last(f.seen[l]) == f.revision
    ensures l in f.active && l !in Emit(f).queue[0].listeners ==> Last(f.seen[l]) >= Emit(f).queue[0].revision
  {
    AlwaysInv(steps, f);
    assert ListenerOk(f, l);
    EmitKeeps(f);
    assert ListenerOk(Emit(f), l);
  }

  /** A listener that is not subscribed hears nothing. */
  lemma SilentStep(f: Fanout, step: Step, l: nat)
    requires Legal(f, step) && l in f.seen && l !in f.active
    ensures var f' := Apply(f, step);
            l in f'.seen && f'.seen[l] == f.seen[l] && l !in f'.active
  {
  }

  /** Once unsubscribed a listener hears nothing more, not even what was queued for it. */
  lemma {:induction false} UnsubscribedHearsNothing(steps: seq<Step>, f: Fanout, l: nat, i: nat) returns (f0: Fanout)
    requires RunsTo(steps, f) && i < |steps| && steps[i] == UnsubscribeStep(l)
    ensures RunsTo(steps[..i], f0)
    ensures l in f0.seen ==> l in f.seen && f.seen[l] == f0.seen[l] && l !in f.active
    decreases |steps|
  {
    var rest, last := steps[..|steps| - 1], steps[|steps| - 1];
    var before :| RunsTo(rest, before) && Follows(before, last, f);
    if i == |rest| {
      f0 := before;
    } else {
      assert rest[..i] == steps[..i];
      f0 := UnsubscribedHearsNothing(rest, before, l, i);
      if l in f0.seen {
        SilentStep(before, last, l);
      }
    }
  }

  // ---------------------------------------------------------------- a listener used twice

  /** The source when everything queued is delivered. */
  function DeliverAll(f: Fanout): Fanout
    decreases |f.queue|
  {
    if f.queue == [] then f else DeliverAll(Deliver(f))
  }

  /** What the queue still brings a listener. */
  function Queued(queue: seq<Delivery>, l: nat): seq<Event> {
    if queue == [] then []
    else (if l in queue[0].listeners then [Ops(queue[0].revision)] else []) + Queued(queue[1..], l)
  }

  lemma {:induction false} DeliverAllBrings(f: Fanout, l: nat)
    requires l in f.seen && l in f.active
    ensures l in DeliverAll(f).seen && DeliverAll(f).seen[l] == f.seen[l] + Queued(f.queue, l)
    decreases |f.queue|
  {
    if f.queue == [] {
      assert f.seen[l] + [] == f.seen[l];
    } else {
      DeliverAllBrings(Deliver(f), l);
    }
  }

  lemma {:induction false} QueuedNothing(queue: seq<Delivery>, l: nat)
    ensures Queued(queue, l) == [] <==> forall d | d in queue :: l !in d.listeners
    ensures Queued(queue, l) != [] ==> exists d :: d in queue && Queued(queue, l)[0] == Ops(d.revision)
  {
    if queue != [] {
      QueuedNothing(queue[1..], l);
      assert queue == [queue[0]] + queue[1..];
    }
  }

  lemma {:induction false} QueuedSnoc(queue: seq<Delivery>, d: Delivery, l: nat)
    ensures Queued(queue + [d], l) == Queued(queue, l) + (if l in d.listeners then [Ops(d.revision)] else [])
  {
    if queue == [] {
      assert [d][1..] == [];
    } else {
      QueuedSnoc(queue[1..], d, l);
      assert (queue + [d])[1..] == queue[1..] + [d];
    }
  }

  /**
   * The same listener subscribed again hears a snapshot and each revision after it once, and nothing else, exactly if
   * no delivery still queued lists it from its earlier subscription.
   */
  lemma ResubscriptionIsCleanIff(f: Fanout, l: nat)
    requires Inv(f) && l in f.seen && l !in f.active
    ensures var f' := Subscribe(f.(seen := f.seen - {l}), l);
            l in DeliverAll(f').seen &&
            (Contiguous(DeliverAll(f').seen[l]) <==> forall d | d in f.queue :: l !in d.listeners)
  {
    var f' := Subscribe(f.(seen := f.seen - {l}), l);
    var heard := f'.seen[l] + Queued(f.queue, l);
    assert f'.seen[l] == [Snap(f.revision)];
    DeliverAllBrings(f', l);
    QueuedNothing(f.queue, l);
    if Queued(f.queue, l) != [] {
      var d :| d in f.queue && Queued(f.queue, l)[0] == Ops(d.revision);
      assert d.revision <= f.revision;
      assert heard[1] == Ops(d.revision);
    }
  }

  /** Otherwise the snapshot it gets and the delivery still queued overlap. */
  lemma ResubscriptionOverlaps()
    ensures var f := Unsubscribe(Emit(Subscribe(NewFanout, 7)), 7);
            Deliver(Subscribe(f, 7)).seen[7] == [Snap(0), Snap(1), Ops(1)]
  {
    var f := Unsubscribe(Emit(Subscribe(NewFanout, 7)), 7);
    assert f.queue[0].listeners == {7};
    assert Subscribe(f, 7).seen[7] == [Snap(0)] + [Snap(1)];
  }

  // ---------------------------------------------------------------- in place

  class SourceFanout {
    var revision: nat
    var active: set<nat>
    var queue: seq<Delivery>
    var seen: map<nat, seq<Event>>

    ghost function Model(): Fanout
      reads this
    {
      Fanout(revision, active, queue, seen)
    }

    constructor ()
      ensures Model() == NewFanout
    {
      revision, active, queue, seen := 0, {}, [], map[];
    }

    /** The listener hears the present revision at once, and is due every later one; the others hear nothing of it. */
    method Events(l: nat)
      modifies this
      ensures Model() == Subscribe(old(Model()), l)
      ensures seen.Keys == old(seen).Keys + {l} && forall k | k in old(seen) && k != l :: seen[k] == old(seen)[k]
      ensures Inv(old(Model())) && l !in old(seen) ==>
                Inv(Model()) && seen[l] == [Snap(old(revision))] && forall d | d in queue :: l !in d.listeners
    {
      if Inv(Model()) && l !in seen {
        SubscribeKeeps(Model(), l);
      }
      active := active + {l};
      Call(l, Snap(revision));
    }

    method Call(l: nat, event: Event)
      modifies this`seen
      ensures seen == old(seen)[l := Heard(old(seen), l) + [event]]
    {
      var heard := if l in seen then seen[l] else [];
      seen := seen[l := heard + [event]];
    }

    /**
     * Nobody hears the new revision yet; it is due to those subscribed now, and to them only, after what was due
     * before.
     */
    method Publish()
      modifies this`revision, this`queue
      ensures Model() == Emit(old(Model()))
      ensures seen == old(seen) && old(queue) <= queue && |queue| == |old(queue)| + 1
      ensures forall l :: Queued(queue, l) == old(Queued(queue, l)) + (if l in active then [Ops(revision)] else [])
      ensures Inv(old(Model())) ==> Inv(Model()) && forall k | k in old(queue) :: k.revision < revision
    {
      if Inv(Model()) {
        EmitKeeps(Model());
      }
      forall l ensures Queued(queue + [Delivery(revision + 1, active)], l)
                       == Queued(queue, l) + (if l in active then [Ops(revision + 1)] else [])
      {
        QueuedSnoc(queue, Delivery(revision + 1, active), l);
      }
      revision := revision + 1;
      queue := queue + [Delivery(revision, active)];
    }

    /** The queued task: the listeners of its publication, each if it is still subscribed. */
    method RunDelivery()
      requires queue != [] && active <= seen.Keys
      modifies this`queue, this`seen
      ensures Model() == Deliver(old(Model()))
    {
      var d := queue[0];
      queue := queue[1..];
      var todo := d.listeners;
      ghost var before := seen;
      while todo != {}
        invariant todo <= d.listeners && seen.Keys == before.Keys
        invariant forall l | l in seen :: seen[l] == if l in d.listeners && l !in todo && l in active
                                                     then before[l] + [Ops(d.revision)] else before[l]
        decreases todo
        modifies this`seen
      {
        var l :| l in todo;
        todo := todo - {l};
        if l in active {
          Call(l, Ops(d.revision));
        }
      }
    }
  }
}
