/** The events of an agent run, what an agent's transcript makes of them, and when they are properly bracketed. */
module AgentEvents {
  import opened ToolDeclarations

  datatype Event =
    | AgentStart
    | TurnStart
    | MessageStart(message: Message)
    | MessageUpdate(message: Message)
    | MessageEnd(message: Message)
    | ToolStart(call: nat)
    | ToolEnd(call: nat)
    | TurnEnd(message: Message, results: seq<Message>)
    | AgentEnd(messages: seq<Message>)

  /** The messages that ended, in order: what the agent's own transcript appends. */
  function Ended(events: seq<Event>): seq<Message> {
    if events == [] then []
    else
      var last := events[|events| - 1];
      Ended(events[..|events| - 1]) + (if last.MessageEnd? then [last.message] else [])
  }

  /** Where a run is: `Turn` with the tool calls that began and have not ended. */
  datatype Place = Before | Idle | Turn(open: multiset<nat>) | Speaking | After | Broken

  function Next(place: Place, event: Event): Place {
    match event
    case AgentStart => if place.Before? then Idle else Broken
    case TurnStart => if place.Idle? then Turn(multiset{}) else Broken
    case MessageStart(_) => if place == Turn(multiset{}) then Speaking else Broken
    case MessageUpdate(_) => if place.Speaking? then Speaking else Broken
    case MessageEnd(_) => if place.Speaking? then Turn(multiset{}) else Broken
    case ToolStart(call) => if place.Turn? then Turn(place.open + multiset{call}) else Broken
    case ToolEnd(call) => if place.Turn? && call in place.open then Turn(place.open - multiset{call}) else Broken
    case TurnEnd(_, _) => if place == Turn(multiset{}) then Idle else Broken
    case AgentEnd(_) => if place.Idle? then After else Broken
  }

  /** Reads a run from its beginning. */
  function Read(events: seq<Event>): Place {
    if events == [] then Before else Next(Read(events[..|events| - 1]), events[|events| - 1])
  }

  /** The turns that ended, in order, with their results. */
  function TurnsEnded(events: seq<Event>): seq<(Message, seq<Message>)> {
    if events == [] then []
    else
      var last := events[|events| - 1];
      TurnsEnded(events[..|events| - 1]) + (if last.TurnEnd? then [(last.message, last.results)] else [])
  }

  /** What is heard of a run, in order: everything but the ends of tools, which may come in any order. */
  function Heard(events: seq<Event>): seq<Event> {
    if events == [] then []
    else
      var last := events[|events| - 1];
      Heard(events[..|events| - 1]) + (if last.ToolEnd? then [] else [last])
  }

  /** Each message begins and ends. */
  function Says(messages: seq<Message>): seq<Event> {
    if messages == [] then []
    else
      var last := messages[|messages| - 1];
      Says(messages[..|messages| - 1]) + [MessageStart(last), MessageEnd(last)]
  }

  /** What the agent keeps of running tools: a set of call ids, reduced from the events. */
  function Running(events: seq<Event>): set<nat> {
    if events == [] then {} else RunningAfter(Running(events[..|events| - 1]), events[|events| - 1])
  }

  function RunningAfter(running: set<nat>, event: Event): set<nat> {
    match event
    case ToolStart(call) => running + {call}
    case ToolEnd(call) => running - {call}
    case _ => running
  }

  /** No call id starts while it runs. */
  predicate StartsOnce(events: seq<Event>)
    decreases |events|
  {
    events == []
    || (var before, last := events[..|events| - 1], events[|events| - 1];
        StartsOnce(before) && (last.ToolStart? && Read(before).Turn? ==> last.call !in Read(before).open))
  }

  /** The tools that run are among those that began and have not ended; with `once`, they are all of those. */
  predicate RunsOpen(running: set<nat>, place: Place, once: bool) {
    && (place.Turn? ==> forall c | c in running :: c in place.open)
    && (!place.Turn? ==> running == {})
    && (once && place.Turn? ==> forall c | c in place.open :: c in running && place.open[c] == 1)
  }

  lemma RunsOpenStep(running: set<nat>, place: Place, once: bool, event: Event)
    requires RunsOpen(running, place, once) && !Next(place, event).Broken?
    ensures RunsOpen(RunningAfter(running, event), Next(place, event),
                     once && (event.ToolStart? && place.Turn? ==> event.call !in place.open))
  {
    if event.ToolStart? {
      assert forall c | c != event.call :: (place.open + multiset{event.call})[c] == place.open[c];
    } else if event.ToolEnd? {
      assert forall c | c != event.call :: (place.open - multiset{event.call})[c] == place.open[c];
    }
  }

  /** Outside a batch no tool runs; within one, none that has ended, and all that have not if ids are not used twice. */
  lemma {:induction false} RunningIsOpen(events: seq<Event>)
    requires !Read(events).Broken?
    ensures RunsOpen(Running(events), Read(events), StartsOnce(events))
    decreases |events|
  {
    hide RunsOpen;
    if events == [] {
      assert RunsOpen({}, Before, true) by {
        Nothing();
      }
    } else {
      var before, last := events[..|events| - 1], events[|events| - 1];
      RunningIsOpen(before);
      RunsOpenStep(Running(before), Read(before), StartsOnce(before), last);
    }
  }

  lemma Nothing()
    ensures RunsOpen({}, Before, true)
  {
  }

  /** The results of a turn answer its tool calls, in their order, without leaving one out. */
  predicate Answers(results: seq<Message>, calls: seq<nat>) {
    |results| <= |calls| && forall i | 0 <= i < |results| :: results[i].ToolResult? && results[i].call == calls[i]
  }

  lemma Snoc(events: seq<Event>, event: Event)
    ensures Read(events + [event]) == Next(Read(events), event)
    ensures Ended(events + [event]) == Ended(events) + (if event.MessageEnd? then [event.message] else [])
    ensures TurnsEnded(events + [event])
            == TurnsEnded(events) + (if event.TurnEnd? then [(event.message, event.results)] else [])
    ensures Running(events + [event]) == RunningAfter(Running(events), event)
    ensures Heard(events + [event]) == Heard(events) + (if event.ToolEnd? then [] else [event])
  {
    assert (events + [event])[..|events + [event]| - 1] == events;
  }

  // ---------------------------------------------------------------- streaming

  /** What a provider streams before its final message. */
  datatype StreamEvent = Start(partial: Message) | Delta(partial: Message)

  function Starts(stream: seq<StreamEvent>): nat {
    if stream == [] then 0
    else Starts(stream[..|stream| - 1]) + (if stream[|stream| - 1].Start? then 1 else 0)
  }

  /** The context while a response streams: each start appends, each later update replaces the last entry. */
  function Streamed(context: seq<Message>, stream: seq<StreamEvent>): seq<Message> {
    if stream == [] then context
    else
      var before, last := Streamed(context, stream[..|stream| - 1]), stream[|stream| - 1];
      if last.Start? then before + [last.partial]
      else if Starts(stream) > 0 && before != [] then before[..|before| - 1] + [last.partial]
      else before
  }

  /** What is heard while a response streams: its start, and what is updated once it has started. */
  function Told(stream: seq<StreamEvent>): seq<Event> {
    if stream == [] then []
    else
      var before, last := stream[..|stream| - 1], stream[|stream| - 1];
      Told(before)
      + if last.Start? then [MessageStart(last.partial)]
        else if Starts(before) > 0 then [MessageUpdate(last.partial)] else []
  }

  function Finished(context: seq<Message>, stream: seq<StreamEvent>, final: Message): seq<Message> {
    var c := Streamed(context, stream);
    if Starts(stream) > 0 && c != [] then c[..|c| - 1] + [final] else c + [final]
  }

  lemma {:induction false} StreamedLength(context: seq<Message>, stream: seq<StreamEvent>)
    ensures |Streamed(context, stream)| == |context| + Starts(stream) && context <= Streamed(context, stream)
  {
    if stream == [] {
    } else {
      StreamedLength(context, stream[..|stream| - 1]);
    }
  }

  /** A response adds exactly its final message to the context if and only if the provider starts it at most once. */
  lemma OneStartOneMessage(context: seq<Message>, stream: seq<StreamEvent>, final: Message)
    ensures Finished(context, stream, final) == context + [final] <==> Starts(stream) <= 1
  {
    StreamedLength(context, stream);
    var c := Streamed(context, stream);
    if Starts(stream) == 1 {
      assert c[..|c| - 1] == context;
    }
  }

  /** A provider that starts twice leaves a partial message in the context. */
  lemma TwoStartsLeaveAPartial(partial: Message, final: Message)
    ensures Finished([], [Start(partial), Start(partial)], final) == [partial, final]
  {
    var stream := [Start(partial), Start(partial)];
    assert stream[..1] == [Start(partial)] && stream[..1][..0] == [];
    assert Streamed([], stream[..1]) == [partial];
    assert Starts(stream[..1]) == 1;
  }
}
