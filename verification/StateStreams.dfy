/**
 * A replicated state's publications and its subscribers. A publisher numbers revisions and offers each to its
 * subscribers; a subscriber runs one callback at a time, however slow, and keeps a bounded number of revisions waiting.
 * Every point where a callback may run or return is a step boundary, so a callback may publish, subscribe and close.
 */
module StateStreams {
  import opened Wrappers

  const MAX_PENDING: nat := 100

  // ---------------------------------------------------------------- one subscriber

  datatype Frame = Hydrate(sequence: nat, value: int) | Update(sequence: nat, value: int)

  /** `begun` are the frames whose callback began, `running` whether the last of them still runs. */
  datatype Subscriber = Subscriber(
    hydrated: nat,
    pending: seq<Frame>,
    begun: seq<Frame>,
    running: bool,
    closed: bool)

  function NewSubscriber(sequence: nat, value: int): Subscriber {
    Subscriber(sequence, [Hydrate(sequence, value)], [], false, false)
  }

  /** Queues a frame. A full queue drops what waits, except a hydration that has not begun. */
  function Push(s: Subscriber, frame: Frame): Subscriber {
    if s.closed then s
    else if |s.pending| == MAX_PENDING then
      s.(pending := (if s.begun == [] then [s.pending[0]] else []) + [frame])
    else s.(pending := s.pending + [frame])
  }

  predicate CanBegin(s: Subscriber) { !s.running && !s.closed && s.pending != [] }

  function Begin(s: Subscriber): Subscriber
    requires CanBegin(s)
  {
    s.(running := true, begun := s.begun + [s.pending[0]], pending := s.pending[1..])
  }

  function End(s: Subscriber): Subscriber { s.(running := false) }

  function Close(s: Subscriber): Subscriber { s.(closed := true, pending := []) }

  // ---------------------------------------------------------------- the publisher

  /** `history` holds the initial value and every published one; `queue` the publications not yet offered. */
  datatype Publisher = Publisher(
    history: seq<int>,
    queue: seq<nat>,
    current: Option<(nat, set<nat>)>,
    subscribers: map<nat, Subscriber>)

  function NewPublisher(initial: int): Publisher { Publisher([initial], [], None, map[]) }

  function Sequence(p: Publisher): int { |p.history| - 1 }

  function Publish(p: Publisher, value: int): Publisher {
    p.(history := p.history + [value], queue := p.queue + [|p.history|])
  }

  function Subscribe(p: Publisher, s: nat): Publisher
    requires p.history != []
  {
    p.(subscribers := p.subscribers[s := NewSubscriber(Sequence(p), p.history[Sequence(p)])])
  }

  /** Takes the next publication and the subscribers of this moment. */
  function Take(p: Publisher): Publisher
    requires p.queue != []
  {
    p.(queue := p.queue[1..], current := Some((p.queue[0], set s | s in p.subscribers && !p.subscribers[s].closed)))
  }

  /** Offers the publication in hand to one of them; its hydration may already cover it. */
  function Offer(p: Publisher, s: nat): Publisher
    requires p.current.Some? && s in p.subscribers && p.current.value.0 < |p.history|
  {
    var sequence := p.current.value.0;
    var subscriber := p.subscribers[s];
    p.(current := Some((sequence, p.current.value.1 - {s})),
       subscribers := p.subscribers[s := if sequence <= subscriber.hydrated then subscriber
                                         else Push(subscriber, Update(sequence, p.history[sequence]))])
  }

  datatype Step =
    | PublishStep(value: int)
    | SubscribeStep(s: nat)
    | CloseStep(s: nat)
    | TakeStep
    | OfferStep(s: nat)
    | DoneStep
    | BeginStep(s: nat)
    | EndStep(s: nat)

  predicate Legal(p: Publisher, step: Step) {
    match step
    case PublishStep(_) => true
    case SubscribeStep(s) => s !in p.subscribers && p.history != []
    case CloseStep(s) => s in p.subscribers
    case TakeStep => p.current.None? && p.queue != []
    case OfferStep(s) =>
      p.current.Some? && s in p.current.value.1 && s in p.subscribers && p.current.value.0 < |p.history|
    case DoneStep => p.current.Some? && p.current.value.1 == {}
    case BeginStep(s) => s in p.subscribers && CanBegin(p.subscribers[s])
    case EndStep(s) => s in p.subscribers && p.subscribers[s].running
  }

  function Apply(p: Publisher, step: Step): Publisher
    requires Legal(p, step)
  {
    match step
    case PublishStep(value) => Publish(p, value)
    case SubscribeStep(s) => Subscribe(p, s)
    case CloseStep(s) => p.(subscribers := p.subscribers[s := Close(p.subscribers[s])])
    case TakeStep => Take(p)
    case OfferStep(s) => Offer(p, s)
    case DoneStep => p.(current := None)
    case BeginStep(s) => p.(subscribers := p.subscribers[s := Begin(p.subscribers[s])])
    case EndStep(s) => p.(subscribers := p.subscribers[s := End(p.subscribers[s])])
  }

  // ---------------------------------------------------------------- what a subscriber gets

  /** The hydration first, then later revisions in order (some may be dropped), each with its value. */
  ghost predicate WellOrdered(history: seq<int>, hydrated: nat, frames: seq<Frame>) {
    && (frames != [] ==> frames[0].Hydrate? && frames[0].sequence == hydrated)
    && (forall i | 0 < i < |frames| :: frames[i].Update?)
    && (forall i | 0 <= i < |frames| ::
        frames[i].sequence < |history| && frames[i].value == history[frames[i].sequence])
    && (forall i, j | 0 <= i < j < |frames| :: frames[i].sequence < frames[j].sequence)
  }

  /** The frames a subscriber began, then those that wait. */
  function Line(s: Subscriber): seq<Frame> { s.begun + s.pending }

  ghost predicate SubscriberOk(history: seq<int>, s: Subscriber) {
    && |s.pending| <= MAX_PENDING
    && WellOrdered(history, s.hydrated, Line(s))
    && (!s.closed ==> Line(s) != [])
    && (s.running ==> s.begun != [])
  }

  /** The last revision a subscriber that is up to date with the publications taken so far has got or will get. */
  function Due(p: Publisher, s: nat): int
    requires s in p.subscribers
  {
    var taken := Sequence(p) - |p.queue|;
    var offered := if p.current.Some? && s in p.current.value.1 then taken - 1 else taken;
    if p.subscribers[s].hydrated > offered then p.subscribers[s].hydrated else offered
  }

  ghost predicate QueueOk(p: Publisher) {
    && |p.queue| < |p.history|
    && (forall i | 0 <= i < |p.queue| :: p.queue[i] == |p.history| - |p.queue| + i)
    && (p.current.Some? ==> p.current.value.0 == |p.history| - 1 - |p.queue| && p.current.value.0 > 0
                            && p.current.value.1 <= p.subscribers.Keys)
  }

  ghost predicate UpToDate(p: Publisher, s: nat)
    requires s in p.subscribers
  {
    var subscriber := p.subscribers[s];
    && SubscriberOk(p.history, subscriber)
    && subscriber.hydrated < |p.history|
    && (!subscriber.closed ==> Line(subscriber)[|Line(subscriber)| - 1].sequence == Due(p, s))
  }

  ghost predicate Inv(p: Publisher) { QueueOk(p) && forall s | s in p.subscribers :: UpToDate(p, s) }

  lemma PushKeeps(history: seq<int>, s: Subscriber, sequence: nat)
    requires SubscriberOk(history, s) && sequence < |history|
    requires !s.closed ==> Line(s)[|Line(s)| - 1].sequence < sequence
    ensures SubscriberOk(history, Push(s, Update(sequence, history[sequence])))
    ensures !s.closed ==> var line := Line(Push(s, Update(sequence, history[sequence])));
                          line != [] && line[|line| - 1].sequence == sequence
  {
    if !s.closed {
      var frame := Update(sequence, history[sequence]);
      var kept := if |s.pending| < MAX_PENDING then s.pending else if s.begun == [] then [s.pending[0]] else [];
      var s' := Push(s, frame);
      assert Line(s') == (s.begun + kept) + [frame];
      assert forall i | 0 <= i < |s.begun + kept| :: (s.begun + kept)[i] == Line(s)[i];
      assert s.begun + kept != [];
      ExtendsLine(history, s.hydrated, Line(s), s.begun + kept, frame);
      hide WellOrdered;
    }
  }

  /** A later frame after the beginning of a well-ordered line. */
  lemma ExtendsLine(history: seq<int>, hydrated: nat, line: seq<Frame>, kept: seq<Frame>, frame: Frame)
    requires WellOrdered(history, hydrated, line) && kept != [] && |kept| <= |line| && frame.Update?
    requires forall i | 0 <= i < |kept| :: kept[i] == line[i]
    requires frame.sequence < |history| && frame.value == history[frame.sequence]
    requires line[|line| - 1].sequence < frame.sequence
    ensures WellOrdered(history, hydrated, kept + [frame])
  {
  }

  lemma BeginKeeps(history: seq<int>, s: Subscriber)
    requires SubscriberOk(history, s) && CanBegin(s)
    ensures SubscriberOk(history, Begin(s)) && Line(Begin(s)) == Line(s)
  {
    assert Line(Begin(s)) == Line(s);
  }

  lemma SameQueue(p: Publisher, p': Publisher)
    requires QueueOk(p) && p'.history == p.history && p'.queue == p.queue && p'.current == p.current
    requires p.subscribers.Keys <= p'.subscribers.Keys
    ensures QueueOk(p')
  {
  }

  lemma OneChanges(p: Publisher, s: nat, subscriber: Subscriber)
    requires Inv(p) && s in p.subscribers && SubscriberOk(p.history, subscriber)
    requires subscriber.hydrated == p.subscribers[s].hydrated
    requires !subscriber.closed ==> !p.subscribers[s].closed && Line(subscriber) == Line(p.subscribers[s])
    ensures Inv(p.(subscribers := p.subscribers[s := subscriber]))
  {
    hide SubscriberOk, QueueOk;
    var p' := p.(subscribers := p.subscribers[s := subscriber]);
    assert QueueOk(p') by { SameQueue(p, p'); }
    forall q | q in p'.subscribers ensures UpToDate(p', q) {
      assert UpToDate(p, q);
      assert Due(p', q) == Due(p, q);
    }
  }

  lemma HistoryGrows(history: seq<int>, value: int, s: Subscriber)
    requires SubscriberOk(history, s)
    ensures SubscriberOk(history + [value], s)
  {
  }

  lemma PublishKeeps(p: Publisher, value: int)
    requires Inv(p)
    ensures Inv(Publish(p, value))
  {
    var p' := Publish(p, value);
    forall s | s in p'.subscribers ensures UpToDate(p', s) {
      assert UpToDate(p, s);
      HistoryGrows(p.history, value, p.subscribers[s]);
    }
  }

  lemma SubscribeKeeps(p: Publisher, s: nat)
    requires Inv(p) && s !in p.subscribers
    ensures Inv(Subscribe(p, s))
  {
    var p' := Subscribe(p, s);
    forall q | q in p'.subscribers ensures UpToDate(p', q) {
      if q != s {
        assert UpToDate(p, q);
      } else {
        assert Line(p'.subscribers[s]) == [Hydrate(Sequence(p), p.history[Sequence(p)])];
      }
    }
  }

  lemma TakeKeeps(p: Publisher)
    requires Inv(p) && p.queue != [] && p.current.None?
    ensures Inv(Take(p))
  {
    var p' := Take(p);
    forall s | s in p'.subscribers ensures UpToDate(p', s) {
      assert UpToDate(p, s);
    }
  }

  lemma OfferKeeps(p: Publisher, s: nat)
    requires Inv(p) && Legal(p, OfferStep(s))
    ensures Inv(Offer(p, s))
  {
    var p' := Offer(p, s);
    OfferedOne(p, s);
    hide Offer, SubscriberOk;
    forall q | q in p'.subscribers ensures UpToDate(p', q) {
      if q != s {
        assert UpToDate(p, q) && Due(p', q) == Due(p, q);
      }
    }
  }

  /** The subscriber that is offered the publication is up to date with it; nothing changes for the others. */
  lemma OfferedOne(p: Publisher, s: nat)
    requires QueueOk(p) && Legal(p, OfferStep(s)) && UpToDate(p, s)
    ensures QueueOk(Offer(p, s)) && s in Offer(p, s).subscribers && UpToDate(Offer(p, s), s)
    ensures Offer(p, s).history == p.history && Offer(p, s).queue == p.queue
    ensures Offer(p, s).current == Some((p.current.value.0, p.current.value.1 - {s}))
    ensures Offer(p, s).subscribers == p.subscribers[s := Offer(p, s).subscribers[s]]
  {
    var sequence, subscriber := p.current.value.0, p.subscribers[s];
    if sequence > subscriber.hydrated {
      PushKeeps(p.history, subscriber, sequence);
      assert Push(subscriber, Update(sequence, p.history[sequence])).hydrated == subscriber.hydrated;
      assert Push(subscriber, Update(sequence, p.history[sequence])).closed == subscriber.closed;
    }
    hide SubscriberOk, Push;
  }

  lemma StepKeepsInv(p: Publisher, step: Step)
    requires Inv(p) && Legal(p, step)
    ensures Inv(Apply(p, step))
  {
    match step
    case PublishStep(value) => PublishKeeps(p, value);
    case SubscribeStep(s) => SubscribeKeeps(p, s);
    case CloseStep(s) =>
      assert UpToDate(p, s);
      CloseKeeps(p.history, p.subscribers[s]);
      OneChanges(p, s, Close(p.subscribers[s]));
    case TakeStep => TakeKeeps(p);
    case OfferStep(s) => OfferKeeps(p, s);
    case DoneStep =>
      forall s | s in p.subscribers ensures UpToDate(p.(current := None), s) {
        assert UpToDate(p, s);
      }
    case BeginStep(s) =>
      assert UpToDate(p, s);
      BeginKeeps(p.history, p.subscribers[s]);
      OneChanges(p, s, Begin(p.subscribers[s]));
    case EndStep(s) =>
      assert UpToDate(p, s);
      OneChanges(p, s, End(p.subscribers[s]));
  }

  lemma CloseKeeps(history: seq<int>, s: Subscriber)
    requires SubscriberOk(history, s)
    ensures SubscriberOk(history, Close(s))
  {
    assert Line(Close(s)) == s.begun;
    assert forall i | 0 <= i < |s.begun| :: s.begun[i] == Line(s)[i];
  }

  // ---------------------------------------------------------------- every run

  ghost predicate RunsTo(initial: int, steps: seq<Step>, p: Publisher)
    decreases |steps|
  {
    if steps == [] then p == NewPublisher(initial)
    else
      var rest, last := steps[..|steps| - 1], steps[|steps| - 1];
      exists p0 :: RunsTo(initial, rest, p0) && Follows(p0, last, p)
  }

  predicate Follows(p0: Publisher, step: Step, p: Publisher) { Legal(p0, step) && p == Apply(p0, step) }

  lemma {:induction false} AlwaysInv(initial: int, steps: seq<Step>, p: Publisher)
    requires RunsTo(initial, steps, p)
    ensures Inv(p)
    decreases |steps|
  {
    if steps == [] {
    } else {
      var rest, last := steps[..|steps| - 1], steps[|steps| - 1];
      var p0 :| RunsTo(initial, rest, p0) && Follows(p0, last, p);
      AlwaysInv(initial, rest, p0);
      StepKeepsInv(p0, last);
    }
  }

  /**
   * Whatever is published, subscribed and closed from callbacks, however slow they are: a subscriber's callbacks begin
   * with the hydration and get strictly later revisions with their values; at most 100 wait; and when nothing is left
   * to deliver, the last callback of an open subscriber got the newest revision.
   */
  lemma SubscribersEndOnTheNewest(initial: int, steps: seq<Step>, p: Publisher, s: nat)
    requires RunsTo(initial, steps, p) && s in p.subscribers
    ensures var subscriber := p.subscribers[s];
            && WellOrdered(p.history, subscriber.hydrated, subscriber.begun)
            && |subscriber.pending| <= MAX_PENDING
            && (p.queue == [] && p.current.None? && !subscriber.closed && subscriber.pending == [] ==>
                  && subscriber.begun != []
                  && subscriber.begun[|subscriber.begun| - 1].sequence == Sequence(p))
  {
    hide Follows, RunsTo, NewPublisher;
    AlwaysInv(initial, steps, p);
    assert UpToDate(p, s);
    var subscriber := p.subscribers[s];
    assert forall i | 0 <= i < |subscriber.begun| :: subscriber.begun[i] == Line(subscriber)[i];
  }

  // ---------------------------------------------------------------- what is dropped

  /** The step offers subscriber `s` a publication and finds its queue full. */
  predicate Overflows(p: Publisher, step: Step, s: nat) {
    && step == OfferStep(s) && Legal(p, step)
    && !p.subscribers[s].closed && p.current.value.0 > p.subscribers[s].hydrated && |p.subscribers[s].pending| == 100
  }

  /** Somewhere in the run a publication finds the queue of `s` full. */
  ghost predicate Overflowed(initial: int, steps: seq<Step>, s: nat)
    decreases |steps|
  {
    steps != [] &&
    var rest, last := steps[..|steps| - 1], steps[|steps| - 1];
    Overflowed(initial, rest, s) || exists p :: RunsTo(initial, rest, p) && Overflows(p, last, s)
  }

  /** Every revision since the hydration, without a gap. */
  predicate Gapless(s: Subscriber) {
    forall i | 0 <= i < |Line(s)| :: Line(s)[i].sequence == s.hydrated + i
  }

  /** A gap: two neighbouring frames with a revision between them that neither has. */
  predicate HasGap(s: Subscriber) {
    exists i :: 0 < i < |Line(s)| && Line(s)[i].sequence > Line(s)[i - 1].sequence + 1
  }

  lemma {:induction false} RunsAreOne(initial: int, steps: seq<Step>, p: Publisher, q: Publisher)
    requires RunsTo(initial, steps, p) && RunsTo(initial, steps, q)
    ensures p == q
    decreases |steps|
  {
    if steps == [] {
    } else {
      var rest, last := steps[..|steps| - 1], steps[|steps| - 1];
      var p0 :| RunsTo(initial, rest, p0) && Follows(p0, last, p);
      var q0 :| RunsTo(initial, rest, q0) && Follows(q0, last, q);
      RunsAreOne(initial, rest, p0, q0);
    }
  }

  /** A push loses nothing unless the queue is full; then it leaves a gap, for at least 99 revisions were waiting. */
  lemma PushGaps(history: seq<int>, s: Subscriber, sequence: nat)
    requires SubscriberOk(history, s) && !s.closed && sequence < |history|
    requires Line(s)[|Line(s)| - 1].sequence + 1 == sequence
    ensures var s' := Push(s, Update(sequence, history[sequence]));
            && (|s.pending| < 100 ==> Line(s') == Line(s) + [Update(sequence, history[sequence])])
            && (|s.pending| == 100 ==> HasGap(s'))
  {
    var frame := Update(sequence, history[sequence]);
    var s' := Push(s, frame);
    if |s.pending| < 100 {
      assert s.begun + (s.pending + [frame]) == (s.begun + s.pending) + [frame];
    } else {
      var i := |Line(s')| - 1;
      assert Line(s')[i] == frame;
      assert Line(s')[i - 1] == Line(s)[i - 1] && i - 1 < |Line(s)| - 1;
      assert Line(s)[i - 1].sequence < Line(s)[|Line(s)| - 1].sequence;
    }
  }

  /** What one step does to a line that is gapless, or has a gap. */
  lemma StepGaps(p: Publisher, step: Step, s: nat)
    requires Inv(p) && Legal(p, step) && s in p.subscribers
    ensures s in Apply(p, step).subscribers
    ensures var before, after := p.subscribers[s], Apply(p, step).subscribers[s];
            && (Gapless(before) && !Overflows(p, step, s) ==> Gapless(after))
            && (!after.closed ==> !before.closed)
            && (!after.closed && Overflows(p, step, s) ==> HasGap(after))
            && (!after.closed && HasGap(before) ==> HasGap(after))
  {
    assert UpToDate(p, s);
    var before, after := p.subscribers[s], Apply(p, step).subscribers[s];
    if step == OfferStep(s) {
      OfferGaps(p, s);
    } else if step == BeginStep(s) {
      BeginKeeps(p.history, before);
      SameLine(before, after);
    } else if step == CloseStep(s) {
      assert forall i | 0 <= i < |Line(after)| :: Line(after)[i] == Line(before)[i];
    } else {
      SameLine(before, after);
    }
  }

  lemma SameLine(s: Subscriber, s': Subscriber)
    requires Line(s') == Line(s) && s'.hydrated == s.hydrated
    ensures Gapless(s') <==> Gapless(s)
    ensures HasGap(s') <==> HasGap(s)
  {
  }

  lemma OfferGaps(p: Publisher, s: nat)
    requires Inv(p) && Legal(p, OfferStep(s))
    ensures var before, after := p.subscribers[s], Offer(p, s).subscribers[s];
            && (Gapless(before) && !Overflows(p, OfferStep(s), s) ==> Gapless(after))
            && (!after.closed && Overflows(p, OfferStep(s), s) ==> HasGap(after))
            && (!after.closed && HasGap(before) ==> HasGap(after))
            && after.closed == before.closed
  {
    var before, after, sequence := p.subscribers[s], Offer(p, s).subscribers[s], p.current.value.0;
    assert UpToDate(p, s) && QueueOk(p);
    if sequence > before.hydrated && !before.closed {
      PushGaps(p.history, before, sequence);
      if |before.pending| < 100 {
        Grows(before, after, Update(sequence, p.history[sequence]));
      }
    }
  }

  lemma Grows(s: Subscriber, s': Subscriber, frame: Frame)
    requires Line(s) != [] && Line(s') == Line(s) + [frame] && s'.hydrated == s.hydrated
    requires frame.sequence == Line(s)[|Line(s)| - 1].sequence + 1
    ensures (Gapless(s) ==> Gapless(s')) && (HasGap(s) ==> HasGap(s'))
  {
    if HasGap(s) {
      var i :| 0 < i < |Line(s)| && Line(s)[i].sequence > Line(s)[i - 1].sequence + 1;
      assert Line(s')[i] == Line(s)[i] && Line(s')[i - 1] == Line(s)[i - 1];
    }
  }

  /**
   * In every run: what an open subscriber has begun and what waits is every revision since its hydration, each once and
   * in order, if and only if no publication ever found a hundred of them waiting; and for any subscriber it is if none
   * did.
   */
  lemma {:induction false} NothingIsDroppedIff(initial: int, steps: seq<Step>, p: Publisher, s: nat)
    requires RunsTo(initial, steps, p) && s in p.subscribers
    ensures !Overflowed(initial, steps, s) ==> Gapless(p.subscribers[s])
    ensures !p.subscribers[s].closed && Overflowed(initial, steps, s) ==> HasGap(p.subscribers[s])
    ensures !p.subscribers[s].closed ==> (Gapless(p.subscribers[s]) <==> !Overflowed(initial, steps, s))
    decreases |steps|
  {
    if steps == [] {
    } else {
      var rest, last := steps[..|steps| - 1], steps[|steps| - 1];
      var p0 :| RunsTo(initial, rest, p0) && Follows(p0, last, p);
      AlwaysInv(initial, rest, p0);
      LastOverflow(initial, steps, p0, s);
      if s in p0.subscribers {
        NothingIsDroppedIff(initial, rest, p0, s);
        StepGaps(p0, last, s);
      } else {
        NotYet(initial, rest, p0, s);
        Hydrates(p0, last, s);
      }
      GapsAreGaps(p.subscribers[s]);
    }
  }

  lemma GapsAreGaps(s: Subscriber)
    ensures HasGap(s) ==> !Gapless(s)
  {
  }

  lemma LastOverflow(initial: int, steps: seq<Step>, p: Publisher, s: nat)
    requires steps != [] && RunsTo(initial, steps[..|steps| - 1], p)
    ensures Overflowed(initial, steps, s)
            <==> Overflowed(initial, steps[..|steps| - 1], s) || Overflows(p, steps[|steps| - 1], s)
  {
    hide RunsTo, Overflows;
    var rest := steps[..|steps| - 1];
    forall q | RunsTo(initial, rest, q) ensures q == p {
      RunsAreOne(initial, rest, p, q);
    }
  }

  lemma {:induction false} NotYet(initial: int, steps: seq<Step>, p: Publisher, s: nat)
    requires RunsTo(initial, steps, p) && s !in p.subscribers
    ensures !Overflowed(initial, steps, s)
    decreases |steps|
  {
    if steps == [] {
    } else {
      var rest, last := steps[..|steps| - 1], steps[|steps| - 1];
      var p0 :| RunsTo(initial, rest, p0) && Follows(p0, last, p);
      NotYet(initial, rest, p0, s);
      LastOverflow(initial, steps, p0, s);
    }
  }

  lemma Hydrates(p: Publisher, step: Step, s: nat)
    requires Legal(p, step) && s !in p.subscribers && s in Apply(p, step).subscribers
    ensures Gapless(Apply(p, step).subscribers[s]) && !Overflows(p, step, s)
  {
  }

  // ---------------------------------------------------------------- one callback at a time

  lemma StepRuns(p: Publisher, step: Step, s: nat)
    requires Legal(p, step) && s in p.subscribers && p.subscribers[s].running && step != EndStep(s)
    ensures s in Apply(p, step).subscribers && Apply(p, step).subscribers[s].running
  {
  }

  lemma {:induction false} RunsOn(initial: int, steps: seq<Step>, p: Publisher, s: nat, i: nat)
    requires RunsTo(initial, steps, p) && i < |steps| && steps[i] == BeginStep(s)
    requires forall k | i < k < |steps| :: steps[k] != EndStep(s)
    ensures s in p.subscribers && p.subscribers[s].running
    decreases |steps|
  {
    var rest, last := steps[..|steps| - 1], steps[|steps| - 1];
    var p0 :| RunsTo(initial, rest, p0) && Follows(p0, last, p);
    if i < |rest| {
      RunsOn(initial, rest, p0, s, i);
      StepRuns(p0, last, s);
    }
  }

  /** In every run a subscriber's next callback begins only after the one before has returned. */
  lemma {:induction false} OneCallbackAtATime(initial: int, steps: seq<Step>, p: Publisher, s: nat, i: nat, j: nat)
    requires RunsTo(initial, steps, p) && i < j < |steps| && steps[i] == steps[j] == BeginStep(s)
    ensures exists k | i < k < j :: steps[k] == EndStep(s)
    decreases |steps|
  {
    var rest, last := steps[..|steps| - 1], steps[|steps| - 1];
    var p0 :| RunsTo(initial, rest, p0) && Follows(p0, last, p);
    if j < |rest| {
      OneCallbackAtATime(initial, rest, p0, s, i, j);
      var k :| i < k < j && rest[k] == EndStep(s);
      assert steps[k] == EndStep(s);
    } else if forall k | i < k < |rest| :: rest[k] != EndStep(s) {
      RunsOn(initial, rest, p0, s, i);
      assert false;
    } else {
      var k :| i < k < |rest| && rest[k] == EndStep(s);
      assert steps[k] == EndStep(s);
    }
  }

  // ---------------------------------------------------------------- an attached source

  /** A replica of a source's revisions: `base` is the cursor of its snapshot. */
  datatype Attached = Attached(base: nat, cursor: nat, disposed: bool, publisher: Publisher)

  function Attach(cursor: nat, value: int): Attached { Attached(cursor, cursor, false, NewPublisher(value)) }

  /** A frame with any cursor but the next one ends the attachment. */
  function Receive(a: Attached, cursor: int, value: int): Attached {
    if a.disposed then a
    else if cursor != a.cursor + 1 then a.(disposed := true)
    else a.(cursor := cursor, publisher := Publish(a.publisher, value))
  }

  function ReceiveAll(a: Attached, frames: seq<(int, int)>): Attached
    decreases |frames|
  {
    if frames == [] then a
    else
      var (cursor, value) := frames[|frames| - 1];
      Receive(ReceiveAll(a, frames[..|frames| - 1]), cursor, value)
  }

  /** The frames before the first gap. */
  function Consecutive(cursor: int, frames: seq<(int, int)>): seq<(int, int)>
    decreases |frames|
  {
    if frames == [] || frames[0].0 != cursor + 1 then [] else [frames[0]] + Consecutive(cursor + 1, frames[1..])
  }

  lemma {:induction false} ReceiveFirst(a: Attached, frames: seq<(int, int)>)
    requires frames != []
    ensures ReceiveAll(a, frames) == ReceiveAll(Receive(a, frames[0].0, frames[0].1), frames[1..])
    decreases |frames|
  {
    if |frames| == 1 {
    } else {
      ReceiveFirst(a, frames[..|frames| - 1]);
      assert frames[..|frames| - 1][1..] == frames[1..][..|frames[1..]| - 1];
    }
  }

  /**
   * An attached source publishes exactly the frames before the first gap, in order, and nothing after it; its sequence
   * is the distance of its cursor from the snapshot.
   */
  lemma {:induction false} AttachedFollowsTheSource(a: Attached, frames: seq<(int, int)>)
    requires !a.disposed && a.publisher.history != [] && Sequence(a.publisher) == a.cursor - a.base
    ensures var a', good := ReceiveAll(a, frames), Consecutive(a.cursor, frames);
            && |a'.publisher.history| == |a.publisher.history| + |good|
            && (forall i | 0 <= i < |good| :: a'.publisher.history[|a.publisher.history| + i] == good[i].1)
            && a.publisher.history <= a'.publisher.history
            && Sequence(a'.publisher) == a'.cursor - a'.base && a'.base == a.base
            && (a'.disposed <==> |good| < |frames|)
    decreases |frames|
  {
    if frames == [] {
    } else {
      ReceiveFirst(a, frames);
      var next := Receive(a, frames[0].0, frames[0].1);
      if next.disposed {
        DisposedStays(next, frames[1..]);
      } else {
        AttachedFollowsTheSource(next, frames[1..]);
      }
    }
  }

  lemma {:induction false} DisposedStays(a: Attached, frames: seq<(int, int)>)
    requires a.disposed
    ensures ReceiveAll(a, frames) == a
    decreases |frames|
  {
    if frames != [] {
      DisposedStays(a, frames[..|frames| - 1]);
    }
  }

  // ---------------------------------------------------------------- in place

  /** One public subscription. `Deliver` is one turn of its loop: it begins a callback, which later ends. */
  class StateSubscriber {
    var hydrated: nat
    var pending: seq<Frame>
    var begun: seq<Frame>
    var running: bool
    var closed: bool

    ghost function Model(): Subscriber
      reads this
    {
      Subscriber(hydrated, pending, begun, running, closed)
    }

    constructor (sequence: nat, value: int)
      ensures Model() == NewSubscriber(sequence, value)
    {
      hydrated, pending, begun, running, closed := sequence, [Hydrate(sequence, value)], [], false, false;
    }

    method PushFrame(frame: Frame)
      requires |pending| <= MAX_PENDING
      modifies this`pending
      ensures Model() == Push(old(Model()), frame) && |pending| <= MAX_PENDING
      ensures old(closed) ==> pending == old(pending)
      ensures !old(closed) && |old(pending)| < 100 ==> pending == old(pending) + [frame]
      ensures !old(closed) && |old(pending)| == 100 ==>
                pending == (if begun == [] then [old(pending)[0], frame] else [frame])
    {
      if closed {
        return;
      }
      if |pending| == MAX_PENDING {
        var hydration := if begun == [] then [pending[0]] else [];
        pending := hydration;
      }
      pending := pending + [frame];
    }

    method Deliver() returns (began: bool)
      modifies this`running, this`pending, this`begun
      ensures began <==> CanBegin(old(Model()))
      ensures Model() == if began then Begin(old(Model())) else old(Model())
      ensures began ==> running && begun == old(begun) + [old(pending)[0]] && pending == old(pending)[1..]
    {
      if running || closed || pending == [] {
        return false;
      }
      running := true;
      begun, pending := begun + [pending[0]], pending[1..];
      return true;
    }

    /**
     * The drain of a subscriber whose callbacks return at once: everything that waits is delivered, in order, one
     * callback at a time.
     */
    method DrainAll()
      modifies this`running, this`pending, this`begun
      ensures old(running) || old(closed) ==> Model() == old(Model())
      ensures !old(running) && !old(closed) ==>
                pending == [] && !running && begun == old(begun) + old(pending)
    {
      if running || closed {
        return;
      }
      while pending != []
        invariant !running && begun + pending == old(begun) + old(pending)
        decreases |pending|
      {
        assert pending == [pending[0]] + pending[1..];
        var _ := Deliver();
        running := false;
      }
    }
  }
}
