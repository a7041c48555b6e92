/**
 * The agent loop: requests, tool batches, queues, and the agent that follows the loop's events. What the provider, the
 * tools, the hooks and the user do in each turn is a script; a script that has run out makes the provider fail.
 */
module AgentLoops {
  import opened Wrappers
  import opened ToolDeclarations
  import opened AgentEvents

  datatype Decision = NoDecision | EndRun | ContinueRun

  /**
   * One turn: the messages the user steers while the turn is prepared (`early`) and while it runs (`late`), follow-ups
   * queued until they are polled (`follow`), what preparation adds, the response, how its tools run, which of them
   * settle without running and which ask to stop, the tool after which an abort is seen, and what the turn hook
   * decides. `lastSteer` and `lastFollow` are queued after the polls of a turn that found nothing to steer with: too
   * late for them.
   */
  datatype TurnScript = TurnScript(
    early: seq<Message>,
    prepared: seq<Message>,
    stream: seq<StreamEvent>,
    response: Message,
    sequential: bool,
    immediate: set<nat>,
    terminates: set<nat>,
    abortAfter: Option<nat>,
    decision: Decision,
    late: seq<Message>,
    follow: seq<Message>,
    lastSteer: seq<Message>,
    lastFollow: seq<Message>)

  const FAILURE: TurnScript :=
    TurnScript([], [], [], Assistant(0, [], Error), false, {}, {}, None, NoDecision, [], [], [], [])

  predicate Playable(t: TurnScript) { t.response.Assistant? && Starts(t.stream) <= 1 }

  /** How many of `n` calls get a result if an abort is seen after one of them. */
  function Completed(n: nat, abortAfter: Option<nat>): nat {
    if abortAfter.Some? && abortAfter.value < n then abortAfter.value + 1 else n
  }

  datatype Queue = Steering | FollowUps

  /**
   * One request: its turn of the script, the queued messages that went before it and the queue they came from, what was
   * declared before it, the tool results after it, and why the run goes on. `atEnd` is what the agent's transcript and
   * the loop's context were when the turn ended.
   */
  datatype Request = Request(
    turn: TurnScript,
    polled: seq<Message>,
    from: Queue,
    before: seq<Message>,
    results: seq<Message>,
    atEnd: (seq<Message>, seq<Message>),
    moreTools: bool,
    steered: bool,
    followed: bool)

  predicate Fails(t: TurnScript) { t.response.Assistant? && (t.response.stop.Error? || t.response.stop.Aborted?) }

  predicate AsksForMore(r: Request) {
    !Fails(r.turn) && !r.turn.decision.EndRun?
    && (r.moreTools || r.steered || r.followed || r.turn.decision.ContinueRun?)
  }

  /**
   * Every call has its result, in call order; only an abort cuts a batch short, and a failed response has none. A
   * result asks to stop exactly if its tool ran and did.
   */
  predicate ResultsOk(t: TurnScript, results: seq<Message>) {
    && t.response.Assistant? && Answers(results, t.response.calls)
    && |results| == (if Fails(t) then 0
                     else if t.response.stop.Length? then |t.response.calls|
                     else Completed(|t.response.calls|, t.abortAfter))
    && forall i | 0 <= i < |results| :: results[i].terminate <==> !t.response.stop.Length? && i in t.terminates
  }

  /** A turn with tools wants another request if it was truncated, or if a tool that completed does not ask to stop. */
  predicate WantsTools(t: TurnScript) {
    && t.response.Assistant? && !Fails(t) && t.response.calls != []
    && (t.response.stop.Length? || exists i ::
        0 <= i < Completed(|t.response.calls|, t.abortAfter) && i !in t.terminates)
  }

  // ---------------------------------------------------------------- what is heard of a turn

  function StreamTold(stream: seq<StreamEvent>, final: Message): seq<Event> {
    Told(stream) + (if Starts(stream) > 0 then [] else [MessageStart(final)]) + [MessageEnd(final)]
  }

  /** One tool after the other: it starts, then its result is said. */
  function OneByOne(results: seq<Message>): seq<Event> {
    if results == [] then []
    else
      var last := results[|results| - 1];
      OneByOne(results[..|results| - 1])
      + (if last.ToolResult? then [ToolStart(last.call)] else []) + [MessageStart(last), MessageEnd(last)]
  }

  function Begins(calls: seq<nat>): seq<Event> {
    if calls == [] then [] else Begins(calls[..|calls| - 1]) + [ToolStart(calls[|calls| - 1])]
  }

  /** A batch: tool by tool, or all of them and then their results. */
  function BatchTold(t: TurnScript, results: seq<Message>): seq<Event>
    requires t.response.Assistant? && |results| <= |t.response.calls|
  {
    if t.response.stop.Length? || t.sequential then OneByOne(results)
    else Begins(t.response.calls[..|results|]) + Says(results)
  }

  function TurnTold(t: TurnScript, before: seq<Message>, results: seq<Message>, first: bool): seq<Event>
    requires t.response.Assistant? && |results| <= |t.response.calls|
  {
    (if first then [] else [TurnStart]) + Says(before) + StreamTold(t.stream, t.response)
    + (if Fails(t) then [] else BatchTold(t, results)) + [TurnEnd(t.response, results)]
  }

  /** All that is heard of the requests of a run. */
  function AllTold(log: seq<Request>): seq<Event> {
    if log == [] then []
    else
      var r := log[|log| - 1];
      AllTold(log[..|log| - 1])
      + if r.turn.response.Assistant? && |r.results| <= |r.turn.response.calls|
        then TurnTold(r.turn, r.before, r.results, |log| == 1) else []
  }

  /** What a turn adds to the transcript. */
  function Exchange(r: Request): seq<Message> { Joined(r.before, r.turn.response, r.results) }

  function Joined(before: seq<Message>, response: Message, results: seq<Message>): seq<Message> {
    before + [response] + results
  }

  function Flatten(log: seq<Request>): seq<Message> {
    if log == [] then [] else Flatten(log[..|log| - 1]) + Exchange(log[|log| - 1])
  }

  /** At most one queued message goes before a request. */
  predicate OneEach(log: seq<Request>) { forall i | 0 <= i < |log| :: |log[i].polled| <= 1 }

  /** What went from one queue before the requests. */
  function Polled(log: seq<Request>, queue: Queue): seq<Message> {
    if log == [] then []
    else Polled(log[..|log| - 1], queue) + (if log[|log| - 1].from == queue then log[|log| - 1].polled else [])
  }

  function Turns(log: seq<Request>): seq<(Message, seq<Message>)> {
    if log == [] then [] else Turns(log[..|log| - 1]) + [(log[|log| - 1].turn.response, log[|log| - 1].results)]
  }

  lemma LogSnoc(log: seq<Request>, r: Request, queue: Queue)
    ensures Flatten(log + [r]) == Flatten(log) + Exchange(r)
    ensures Polled(log + [r], queue) == Polled(log, queue) + (if r.from == queue then r.polled else [])
    ensures Turns(log + [r]) == Turns(log) + [(r.turn.response, r.results)]
    ensures r.turn.response.Assistant? && |r.results| <= |r.turn.response.calls| ==>
              AllTold(log + [r]) == AllTold(log) + TurnTold(r.turn, r.before, r.results, log == [])
  {
    assert (log + [r])[..|log + [r]| - 1] == log;
  }

  function TurnAt(script: seq<TurnScript>, i: nat): TurnScript { if i < |script| then script[i] else FAILURE }

  /** Request `i` of a run that began with `base` plays its turn of the script on what the requests before it left. */
  predicate RequestOk(script: seq<TurnScript>, base: seq<Message>, tools: Tools, log: seq<Request>, i: nat)
    requires i < |log|
  {
    var r, transcript := log[i], base + Flatten(log[..i]);
    && r.turn == TurnAt(script, i) && ResultsOk(r.turn, r.results) && r.moreTools == WantsTools(r.turn)
    && r.before == Declare(transcript, tools, (if i == 0 then [] else r.turn.prepared) + r.polled)
    && r.atEnd == (transcript + Exchange(r), transcript + Exchange(r))
  }

  predicate LogOk(script: seq<TurnScript>, base: seq<Message>, tools: Tools, log: seq<Request>) {
    forall i | 0 <= i < |log| :: RequestOk(script, base, tools, log, i)
  }

  /** A turn that was steered, or followed up, leads to a request with what was queued. */
  predicate LeadsOn(log: seq<Request>) {
    forall i | 0 <= i < |log| - 1 ::
      && AsksForMore(log[i])
      && (log[i].steered ==> log[i + 1].polled != [] && log[i + 1].from.Steering?)
      && (log[i].followed ==> log[i + 1].polled != [] && log[i + 1].from.FollowUps?)
  }

  lemma LogGrows(script: seq<TurnScript>, base: seq<Message>, tools: Tools, log: seq<Request>, r: Request)
    requires LogOk(script, base, tools, log)
    requires RequestOk(script, base, tools, log + [r], |log|)
    ensures LogOk(script, base, tools, log + [r])
  {
    forall i | 0 <= i < |log + [r]| ensures RequestOk(script, base, tools, log + [r], i) {
      if i < |log| {
        assert RequestOk(script, base, tools, log, i);
        assert (log + [r])[..i] == log[..i];
      }
    }
  }

  /** The follow-ups are noted on the last request. */
  function Note(log: seq<Request>, followed: bool): seq<Request>
    requires log != []
  {
    log[..|log| - 1] + [log[|log| - 1].(followed := followed)]
  }

  lemma NoteKeeps(script: seq<TurnScript>, base: seq<Message>, tools: Tools, log: seq<Request>, followed: bool,
                  queue: Queue)
    requires log != [] && LogOk(script, base, tools, log)
    ensures LogOk(script, base, tools, Note(log, followed))
    ensures Flatten(Note(log, followed)) == Flatten(log) && Turns(Note(log, followed)) == Turns(log)
    ensures AllTold(Note(log, followed)) == AllTold(log)
    ensures Polled(Note(log, followed), queue) == Polled(log, queue)
  {
    hide Declare, Turns, Flatten, TurnAt;
    var rest, last := log[..|log| - 1], log[|log| - 1];
    var last' := last.(followed := followed);
    LogSnoc(rest, last, queue);
    LogSnoc(rest, last', queue);
    assert log == rest + [last];
    forall i | 0 <= i < |log| ensures RequestOk(script, base, tools, Note(log, followed), i) {
      assert RequestOk(script, base, tools, log, i);
      assert Note(log, followed)[..i] == log[..i];
    }
  }

  /** What there is when a loop begins: the transcript, and what was heard of the run. */
  datatype Beginning = Beginning(transcript: seq<Message>, heard: seq<Event>)

  class AgentRun {
    const tools: Tools
    const oneSteering: bool
    const oneFollowUp: bool
    /** The prompts are themselves drained steering, so the run does not begin with a poll. */
    const skipsFirst: bool
    var context: seq<Message>
    var newMessages: seq<Message>
    var events: seq<Event>
    /** The agent's own state, reduced from the events. */
    var transcript: seq<Message>
    var pendingCalls: set<nat>
    var steering: seq<Message>
    var followUps: seq<Message>
    /** Whether a turn has completed. */
    var lastCompleted: bool
    ghost const initial: seq<Message>
    /** All that was ever queued. */
    ghost var queuedSteering: seq<Message>
    ghost var queuedFollowUps: seq<Message>
    ghost var log: seq<Request>

    constructor (messages: seq<Message>, tools: Tools, oneSteering: bool, oneFollowUp: bool, skipsFirst: bool,
                 steering: seq<Message>, followUps: seq<Message>)
      ensures context == transcript == initial == messages && newMessages == [] && events == [] && log == []
      ensures this.steering == queuedSteering == steering && this.followUps == queuedFollowUps == followUps
      ensures !lastCompleted && pendingCalls == {}
      ensures this.tools == tools && this.oneSteering == oneSteering && this.oneFollowUp == oneFollowUp
      ensures this.skipsFirst == skipsFirst
    {
      this.tools, this.oneSteering, this.oneFollowUp, this.skipsFirst := tools, oneSteering, oneFollowUp, skipsFirst;
      this.steering, this.followUps, lastCompleted := steering, followUps, false;
      context, transcript, initial, newMessages, events, pendingCalls := messages, messages, messages, [], [], {};
      queuedSteering, queuedFollowUps, log := steering, followUps, [];
    }

    /** The agent's transcript is what ended, and its running tools are those the events say. */
    ghost predicate Follows()
      reads `transcript, `events, `pendingCalls
    {
      transcript == initial + Ended(events) && pendingCalls == Running(events)
    }

    /** The loop's context and its list of new messages are the same. */
    ghost predicate Synced()
      reads `transcript, `events, `pendingCalls, `context, `newMessages
    {
      Follows() && context == transcript && newMessages == Ended(events)
    }

    /** Emits an event; the agent reduces it. */
    method Emit(event: Event)
      requires Follows()
      modifies this`events, this`transcript, this`pendingCalls
      ensures events == old(events) + [event] && Read(events) == Next(old(Read(events)), event)
      ensures Follows() && pendingCalls == RunningAfter(old(pendingCalls), event)
      ensures TurnsEnded(events)
              == old(TurnsEnded(events)) + (if event.TurnEnd? then [(event.message, event.results)] else [])
      ensures Heard(events) == old(Heard(events)) + (if event.ToolEnd? then [] else [event])
      ensures !event.MessageEnd? ==> Ended(events) == old(Ended(events)) && transcript == old(transcript)
      ensures event.MessageEnd? ==>
                Ended(events) == old(Ended(events)) + [event.message] && transcript == old(transcript) + [event.message]
    {
      Snoc(events, event);
      events := events + [event];
      match event {
        case MessageEnd(message) => transcript := transcript + [message];
        case ToolStart(call) => pendingCalls := pendingCalls + {call};
        case ToolEnd(call) => pendingCalls := pendingCalls - {call};
        case _ =>
      }
    }

    method Say(message: Message)
      requires Follows() && Read(events) == Turn(multiset{})
      modifies this`events, this`transcript, this`pendingCalls
      ensures Follows() && Read(events) == Turn(multiset{}) && Ended(events) == old(Ended(events)) + [message]
      ensures transcript == old(transcript) + [message] && TurnsEnded(events) == old(TurnsEnded(events))
      ensures Heard(events) == old(Heard(events)) + [MessageStart(message), MessageEnd(message)]
    {
      Emit(MessageStart(message));
      Emit(MessageEnd(message));
    }

    /** Messages that enter the transcript before a request. */
    method AddMessages(messages: seq<Message>)
      requires Synced() && Read(events) == Turn(multiset{})
      modifies this`events, this`transcript, this`pendingCalls, this`context, this`newMessages
      ensures Synced() && Read(events) == Turn(multiset{}) && transcript == old(transcript) + messages
      ensures TurnsEnded(events) == old(TurnsEnded(events)) && Heard(events) == old(Heard(events)) + Says(messages)
    {
      hide Read, Ended, TurnsEnded, Running, Heard;
      var i := 0;
      while i < |messages|
        invariant 0 <= i <= |messages| && Synced() && Read(events) == Turn(multiset{})
        invariant transcript == old(transcript) + messages[..i] && TurnsEnded(events) == old(TurnsEnded(events))
        invariant Heard(events) == old(Heard(events)) + Says(messages[..i])
      {
        Say(messages[i]);
        context := context + [messages[i]];
        newMessages := newMessages + [messages[i]];
        assert messages[..i + 1] == messages[..i] + [messages[i]];
        SaysSnoc(messages[..i], messages[i]);
        i := i + 1;
      }
      assert messages[..i] == messages;
    }

    /** Where a run is after a provider started a response so often. */
    static function StreamPlace(starts: nat): Place {
      if starts == 0 then Turn(multiset{}) else if starts == 1 then Speaking else Broken
    }

    /**
     * Streams a response. Whatever the provider sends, the transcript gets the final message once; the events stay
     * bracketed and the context agrees with the transcript if and only if the provider starts the response at most
     * once.
     */
    method StreamResponse(stream: seq<StreamEvent>, final: Message)
      requires Synced() && Read(events) == Turn(multiset{})
      modifies this`events, this`transcript, this`pendingCalls, this`context
      ensures Follows() && newMessages == old(newMessages)
      ensures transcript == old(transcript) + [final] && Ended(events) == old(Ended(events)) + [final]
      ensures TurnsEnded(events) == old(TurnsEnded(events))
      ensures context == Finished(old(context), stream, final)
      ensures Read(events) == (if Starts(stream) <= 1 then Turn(multiset{}) else Broken)
      ensures context == transcript <==> Starts(stream) <= 1
      ensures Heard(events) == old(Heard(events)) + StreamTold(stream, final)
    {
      ghost var c := context;
      hide Follows, Read, Ended, TurnsEnded, Streamed, Starts, Told, Heard, Running, RunningAfter, Finished;
      var added := StreamAll(stream);
      StreamedLength(c, stream);
      OneStartOneMessage(c, stream, final);
      FinishedIs(c, stream, final);
      EndStream(final, added, Starts(stream));
    }

    /** What the provider sends goes into the context; nothing ends yet. */
    method StreamAll(stream: seq<StreamEvent>) returns (added: bool)
      requires Follows() && Read(events) == Turn(multiset{})
      modifies this`events, this`transcript, this`pendingCalls, this`context
      ensures Follows() && Ended(events) == old(Ended(events)) && transcript == old(transcript)
      ensures TurnsEnded(events) == old(TurnsEnded(events))
      ensures added == (Starts(stream) > 0) && Read(events) == StreamPlace(Starts(stream))
      ensures context == Streamed(old(context), stream) && Heard(events) == old(Heard(events)) + Told(stream)
    {
      ghost var c := context;
      var i := 0;
      added := false;
      NothingStreamed(c, stream);
      hide Follows, Read, Ended, TurnsEnded, Streamed, Starts, Told, Heard, Running, RunningAfter;
      while i < |stream|
        invariant 0 <= i <= |stream|
        invariant Follows() && Ended(events) == old(Ended(events)) && transcript == old(transcript)
        invariant TurnsEnded(events) == old(TurnsEnded(events))
        invariant added == (Starts(stream[..i]) > 0)
        invariant Read(events) == StreamPlace(Starts(stream[..i]))
        invariant context == Streamed(c, stream[..i]) && Heard(events) == old(Heard(events)) + Told(stream[..i])
      {
        added := StreamAt(c, stream, i, added);
        i := i + 1;
      }
      assert stream[..i] == stream;
    }

    method StreamAt(ghost before: seq<Message>, stream: seq<StreamEvent>, i: nat, started: bool) returns (added: bool)
      requires i < |stream| && Follows() && started == (Starts(stream[..i]) > 0)
      requires Read(events) == StreamPlace(Starts(stream[..i])) && context == Streamed(before, stream[..i])
      modifies this`events, this`transcript, this`pendingCalls, this`context
      ensures Follows() && Ended(events) == old(Ended(events)) && transcript == old(transcript)
      ensures TurnsEnded(events) == old(TurnsEnded(events)) && added == (Starts(stream[..i + 1]) > 0)
      ensures Read(events) == StreamPlace(Starts(stream[..i + 1])) && context == Streamed(before, stream[..i + 1])
      ensures Told(stream[..i]) <= Told(stream[..i + 1])
      ensures Heard(events) == old(Heard(events)) + Told(stream[..i + 1])[|Told(stream[..i])|..]
    {
      StreamedSnoc(before, stream, i);
      hide Follows, Read, Ended, TurnsEnded, Streamed, Starts, Told, Heard, Running, RunningAfter;
      added := StreamOne(stream[i], started, Starts(stream[..i]));
    }

    method StreamOne(event: StreamEvent, started: bool, ghost starts: nat) returns (added: bool)
      requires Follows() && Read(events) == StreamPlace(starts) && started == (starts > 0)
               && (started ==> context != [])
      modifies this`events, this`transcript, this`pendingCalls, this`context
      ensures Follows() && Ended(events) == old(Ended(events)) && transcript == old(transcript)
      ensures TurnsEnded(events) == old(TurnsEnded(events))
      ensures added == (started || event.Start?)
      ensures Read(events) == StreamPlace(starts + if event.Start? then 1 else 0)
      ensures context == if event.Start? then old(context) + [event.partial]
                         else if started then old(context)[..|old(context)| - 1] + [event.partial] else old(context)
      ensures Heard(events) == old(Heard(events)) + (if event.Start? then [MessageStart(event.partial)]
                                                     else if started then [MessageUpdate(event.partial)] else [])
    {
      added := started;
      match event {
        case Start(partial) =>
          context := context + [partial];
          added := true;
          Emit(MessageStart(partial));
        case Delta(partial) =>
          if added {
            context := context[..|context| - 1] + [partial];
            Emit(MessageUpdate(partial));
          }
      }
    }

    method EndStream(final: Message, added: bool, ghost starts: nat)
      requires Follows() && Read(events) == StreamPlace(starts) && added == (starts > 0) && (added ==> context != [])
      modifies this`events, this`transcript, this`pendingCalls, this`context
      ensures Follows() && Read(events) == (if starts <= 1 then Turn(multiset{}) else Broken)
      ensures transcript == old(transcript) + [final] && Ended(events) == old(Ended(events)) + [final]
      ensures TurnsEnded(events) == old(TurnsEnded(events))
      ensures context == (if added then old(context)[..|old(context)| - 1] else old(context)) + [final]
      ensures Heard(events) == old(Heard(events)) + (if added then [] else [MessageStart(final)]) + [MessageEnd(final)]
    {
      if added {
        context := context[..|context| - 1] + [final];
      } else {
        context := context + [final];
        Emit(MessageStart(final));
      }
      Emit(MessageEnd(final));
    }

    // -------------------------------------------------------------- tools

    /** A tool starts and ends, and its result is said. */
    method OneTool(call: nat, terminate: bool) returns (result: Message)
      requires Follows() && Read(events) == Turn(multiset{})
      modifies this`events, this`transcript, this`pendingCalls
      ensures Follows() && Read(events) == Turn(multiset{}) && result == ToolResult(call, terminate)
      ensures transcript == old(transcript) + [result] && Ended(events) == old(Ended(events)) + [result]
      ensures TurnsEnded(events) == old(TurnsEnded(events))
      ensures Heard(events) == old(Heard(events)) + [ToolStart(call)] + [MessageStart(result), MessageEnd(result)]
    {
      hide Follows, Ended, TurnsEnded, Running, RunningAfter, Heard;
      Emit(ToolStart(call));
      Emit(ToolEnd(call));
      result := ToolResult(call, terminate);
      Say(result);
    }

    /** One tool after the other; an abort seen after a tool leaves the rest out. */
    method ExecuteSequential(calls: seq<nat>, t: TurnScript) returns (results: seq<Message>)
      requires Follows() && Read(events) == Turn(multiset{})
      modifies this`events, this`transcript, this`pendingCalls
      ensures Follows() && Read(events) == Turn(multiset{})
      ensures transcript == old(transcript) + results && Ended(events) == old(Ended(events)) + results
      ensures TurnsEnded(events) == old(TurnsEnded(events))
      ensures Answers(results, calls) && |results| == Completed(|calls|, t.abortAfter)
      ensures t.abortAfter.None? || t.abortAfter.value >= |calls| ==> |results| == |calls|
      ensures t.abortAfter.Some? && t.abortAfter.value < |calls| ==> |results| == t.abortAfter.value + 1
      ensures forall i | 0 <= i < |results| :: results[i].terminate <==> i in t.terminates
      ensures Heard(events) == old(Heard(events)) + OneByOne(results)
    {
      hide Follows, Read, Ended, TurnsEnded, Running, RunningAfter, Heard;
      assert OneByOne([]) == [];
      hide OneByOne;
      results := [];
      var i, aborted := 0, false;
      while i < |calls| && !aborted
        invariant 0 <= i <= |calls| && |results| == i && Answers(results, calls)
        invariant forall j | 0 <= j < i :: results[j].terminate <==> j in t.terminates
        invariant Heard(events) == old(Heard(events)) + OneByOne(results)
        invariant aborted <==> t.abortAfter.Some? && i == t.abortAfter.value + 1
        invariant t.abortAfter.Some? ==> i <= t.abortAfter.value + 1
        invariant Follows() && Read(events) == Turn(multiset{})
        invariant transcript == old(transcript) + results && Ended(events) == old(Ended(events)) + results
        invariant TurnsEnded(events) == old(TurnsEnded(events))
        decreases |calls| - i
      {
        var result := OneTool(calls[i], i in t.terminates);
        OneMoreTool(results, result);
        results := results + [result];
        aborted := t.abortAfter == Some(i);
        i := i + 1;
      }
    }

    /** A response cut off by the token limit: every call fails, none runs. */
    method FailTruncated(calls: seq<nat>) returns (results: seq<Message>)
      requires Follows() && Read(events) == Turn(multiset{})
      modifies this`events, this`transcript, this`pendingCalls
      ensures Follows() && Read(events) == Turn(multiset{})
      ensures transcript == old(transcript) + results && Ended(events) == old(Ended(events)) + results
      ensures TurnsEnded(events) == old(TurnsEnded(events))
      ensures Answers(results, calls) && |results| == |calls|
      ensures forall i | 0 <= i < |results| :: !results[i].terminate
      ensures Heard(events) == old(Heard(events)) + OneByOne(results)
    {
      hide Follows, Read, Ended, TurnsEnded, Running, RunningAfter, Heard;
      assert OneByOne([]) == [];
      hide OneByOne;
      results := [];
      var i := 0;
      while i < |calls|
        invariant 0 <= i <= |calls| && |results| == i && Answers(results, calls)
        invariant forall j | 0 <= j < i :: !results[j].terminate
        invariant Heard(events) == old(Heard(events)) + OneByOne(results)
        invariant Follows() && Read(events) == Turn(multiset{})
        invariant transcript == old(transcript) + results && Ended(events) == old(Ended(events)) + results
        invariant TurnsEnded(events) == old(TurnsEnded(events))
      {
        var result := OneTool(calls[i], false);
        OneMoreTool(results, result);
        results := results + [result];
        i := i + 1;
      }
    }

    /** All tools at once: they end in any order, and their results are reported in the order of the calls. */
    method ExecuteParallel(calls: seq<nat>, t: TurnScript) returns (results: seq<Message>)
      requires Follows() && Read(events) == Turn(multiset{})
      modifies this`events, this`transcript, this`pendingCalls
      ensures Follows() && Read(events) == Turn(multiset{})
      ensures transcript == old(transcript) + results && Ended(events) == old(Ended(events)) + results
      ensures TurnsEnded(events) == old(TurnsEnded(events))
      ensures Answers(results, calls) && |results| == Completed(|calls|, t.abortAfter)
      ensures t.abortAfter.None? || t.abortAfter.value >= |calls| ==> |results| == |calls|
      ensures t.abortAfter.Some? && t.abortAfter.value < |calls| ==> |results| == t.abortAfter.value + 1
      ensures forall i | 0 <= i < |results| :: results[i].terminate <==> i in t.terminates
      ensures Heard(events) == old(Heard(events)) + (Begins(calls[..|results|]) + Says(results))
    {
      hide Follows, Read, Ended, TurnsEnded, Heard;
      var n, running := StartParallel(calls, t);
      EndParallel(running);
      results := ReportParallel(calls[..n], t);
    }

    method StartParallel(calls: seq<nat>, t: TurnScript) returns (n: nat, running: seq<nat>)
      requires Follows() && Read(events) == Turn(multiset{})
      modifies this`events, this`transcript, this`pendingCalls
      ensures Follows() && Read(events) == Turn(multiset(running))
      ensures transcript == old(transcript) && Ended(events) == old(Ended(events))
      ensures TurnsEnded(events) == old(TurnsEnded(events))
      ensures n == Completed(|calls|, t.abortAfter) && running == Slow(calls[..n], t.immediate)
      ensures Heard(events) == old(Heard(events)) + Begins(calls[..n])
    {
      assert Read(events) == Turn(multiset([]));
      hide Follows, Read, Ended, TurnsEnded, Running, RunningAfter, Heard;
      assert calls[..0] == [] && Begins([]) == [] && Slow([], t.immediate) == [];
      hide Begins, Slow;
      n, running := 0, [];
      var aborted := false;
      while n < |calls| && !aborted
        invariant 0 <= n <= |calls| && (aborted <==> t.abortAfter.Some? && n == t.abortAfter.value + 1)
        invariant t.abortAfter.Some? ==> n <= t.abortAfter.value + 1
        invariant Follows() && Read(events) == Turn(multiset(running))
        invariant transcript == old(transcript) && Ended(events) == old(Ended(events))
        invariant TurnsEnded(events) == old(TurnsEnded(events)) && running == Slow(calls[..n], t.immediate)
        invariant Heard(events) == old(Heard(events)) + Begins(calls[..n])
        decreases |calls| - n
      {
        BeginsSnoc(calls, n, t.immediate);
        running := StartOne(calls[n], n in t.immediate, running);
        aborted := t.abortAfter == Some(n);
        n := n + 1;
      }
    }

    method StartOne(call: nat, immediate: bool, before: seq<nat>) returns (running: seq<nat>)
      requires Follows() && Read(events) == Turn(multiset(before))
      modifies this`events, this`transcript, this`pendingCalls
      ensures Follows() && Read(events) == Turn(multiset(running))
      ensures transcript == old(transcript) && Ended(events) == old(Ended(events))
      ensures TurnsEnded(events) == old(TurnsEnded(events)) && Heard(events) == old(Heard(events)) + [ToolStart(call)]
      ensures running == if immediate then before else before + [call]
    {
      Emit(ToolStart(call));
      if immediate {
        Emit(ToolEnd(call));
        assert multiset(before) + multiset{call} - multiset{call} == multiset(before);
        running := before;
      } else {
        running := before + [call];
      }
    }

    method EndParallel(started: seq<nat>)
      requires Follows() && Read(events) == Turn(multiset(started))
      modifies this`events, this`transcript, this`pendingCalls
      ensures Follows() && Read(events) == Turn(multiset{})
      ensures transcript == old(transcript) && Ended(events) == old(Ended(events))
      ensures TurnsEnded(events) == old(TurnsEnded(events)) && Heard(events) == old(Heard(events))
    {
      hide Follows, Read, Ended, TurnsEnded, Running, RunningAfter, Heard;
      var running := started;
      while running != []
        invariant Follows() && Read(events) == Turn(multiset(running))
        invariant transcript == old(transcript) && Ended(events) == old(Ended(events))
        invariant TurnsEnded(events) == old(TurnsEnded(events)) && Heard(events) == old(Heard(events))
        decreases |running|
      {
        var i: nat :| i < |running|;
        RemoveAt(running, i);
        Emit(ToolEnd(running[i]));
        running := running[..i] + running[i + 1..];
      }
    }

    method ReportParallel(calls: seq<nat>, t: TurnScript) returns (results: seq<Message>)
      requires Follows() && Read(events) == Turn(multiset{})
      modifies this`events, this`transcript, this`pendingCalls
      ensures Follows() && Read(events) == Turn(multiset{})
      ensures transcript == old(transcript) + results && Ended(events) == old(Ended(events)) + results
      ensures TurnsEnded(events) == old(TurnsEnded(events))
      ensures Answers(results, calls) && |results| == |calls|
      ensures forall i | 0 <= i < |results| :: results[i].terminate <==> i in t.terminates
      ensures Heard(events) == old(Heard(events)) + Says(results)
    {
      hide Follows, Read, Ended, TurnsEnded, Running, RunningAfter, Heard;
      results := [];
      var i := 0;
      while i < |calls|
        invariant 0 <= i <= |calls| && |results| == i && Answers(results, calls)
        invariant forall j | 0 <= j < i :: results[j].terminate <==> j in t.terminates
        invariant Heard(events) == old(Heard(events)) + Says(results)
        invariant Follows() && Read(events) == Turn(multiset{})
        invariant transcript == old(transcript) + results && Ended(events) == old(Ended(events)) + results
        invariant TurnsEnded(events) == old(TurnsEnded(events))
      {
        var result := ToolResult(calls[i], i in t.terminates);
        Say(result);
        SaysSnoc(results, result);
        results := results + [result];
        i := i + 1;
      }
    }

    method ExecuteTools(t: TurnScript) returns (results: seq<Message>, terminate: bool)
      requires Follows() && Read(events) == Turn(multiset{}) && t.response.Assistant?
      modifies this`events, this`transcript, this`pendingCalls
      ensures Follows() && Read(events) == Turn(multiset{})
      ensures transcript == old(transcript) + results && Ended(events) == old(Ended(events)) + results
      ensures TurnsEnded(events) == old(TurnsEnded(events))
      ensures Answers(results, t.response.calls)
      ensures |results| == if t.response.stop.Length? then |t.response.calls|
                           else Completed(|t.response.calls|, t.abortAfter)
      ensures forall i | 0 <= i < |results| :: results[i].terminate <==> !t.response.stop.Length? && i in t.terminates
      ensures terminate
              <==> !t.response.stop.Length? && results != [] && forall i | 0 <= i < |results| :: i in t.terminates
      ensures Heard(events) == old(Heard(events)) + BatchTold(t, results)
    {
      hide Follows, Read, Ended, TurnsEnded, Heard, OneByOne, Begins, Says;
      if t.response.stop.Length? {
        results := FailTruncated(t.response.calls);
        terminate := false;
      } else {
        if t.sequential {
          results := ExecuteSequential(t.response.calls, t);
        } else {
          results := ExecuteParallel(t.response.calls, t);
        }
        terminate := results != [] && forall i | 0 <= i < |results| :: results[i].terminate;
      }
    }

    // -------------------------------------------------------------- queues

    /** What the user does meanwhile. */
    method UserQueues(steer: seq<Message>, follow: seq<Message>)
      modifies this`steering, this`followUps, this`queuedSteering, this`queuedFollowUps
      ensures steering == old(steering) + steer && followUps == old(followUps) + follow
      ensures queuedSteering == old(queuedSteering) + steer && queuedFollowUps == old(queuedFollowUps) + follow
    {
      steering, followUps := steering + steer, followUps + follow;
      queuedSteering, queuedFollowUps := queuedSteering + steer, queuedFollowUps + follow;
    }

    method DrainSteering() returns (messages: seq<Message>)
      modifies this`steering
      ensures messages == (if oneSteering && old(steering) != [] then [old(steering)[0]] else old(steering))
      ensures messages + steering == old(steering)
      ensures messages == [] <==> old(steering) == []
    {
      messages := if oneSteering && steering != [] then [steering[0]] else steering;
      steering := steering[|messages|..];
    }

    method DrainFollowUps() returns (messages: seq<Message>)
      modifies this`followUps
      ensures messages == (if oneFollowUp && old(followUps) != [] then [old(followUps)[0]] else old(followUps))
      ensures messages + followUps == old(followUps)
      ensures messages == [] <==> old(followUps) == []
    {
      messages := if oneFollowUp && followUps != [] then [followUps[0]] else followUps;
      followUps := followUps[|messages|..];
    }

    ghost predicate QueuesOk(pending: seq<Message>, from: Queue)
      reads `steering, `followUps, `queuedSteering, `queuedFollowUps, `log
    {
      Queues(log, pending, from, steering, followUps, queuedSteering, queuedFollowUps)
      && (oneSteering && oneFollowUp ==> |pending| <= 1 && OneEach(log))
    }

    // -------------------------------------------------------------- one turn

    /** The messages before a request. */
    method BeginTurn(t: TurnScript, pending: seq<Message>, first: bool) returns (ghost before: seq<Message>)
      requires Synced() && Read(events) == (if first then Turn(multiset{}) else Idle)
      modifies this`events, this`transcript, this`pendingCalls, this`context, this`newMessages
      ensures Synced() && Read(events) == Turn(multiset{}) && TurnsEnded(events) == old(TurnsEnded(events))
      ensures before == Declare(old(transcript), tools, (if first then [] else t.prepared) + pending)
      ensures transcript == old(transcript) + before
      ensures Heard(events) == old(Heard(events)) + ((if first then [] else [TurnStart]) + Says(before))
    {
      hide Heard, Says, Ended, TurnsEnded, Running, Declare;
      if !first {
        Emit(TurnStart);
      }
      var declared := Declare(context, tools, (if first then [] else t.prepared) + pending);
      before := declared;
      AddMessages(declared);
    }

    /** The messages before a request, and the response. */
    method RequestResponse(t: TurnScript, pending: seq<Message>, first: bool) returns (ghost before: seq<Message>)
      requires Synced() && Read(events) == (if first then Turn(multiset{}) else Idle) && Playable(t)
      modifies this`events, this`transcript, this`pendingCalls, this`context, this`newMessages
      ensures Synced() && Read(events) == Turn(multiset{}) && TurnsEnded(events) == old(TurnsEnded(events))
      ensures before == Declare(old(transcript), tools, (if first then [] else t.prepared) + pending)
      ensures transcript == old(transcript) + before + [t.response]
      ensures Heard(events) == old(Heard(events)) + ((if first then [] else [TurnStart]) + Says(before)
                                                     + StreamTold(t.stream, t.response))
    {
      hide Heard, Says, StreamTold, TurnsEnded, Declare, Read, Running;
      before := BeginTurn(t, pending, first);
      StreamResponse(t.stream, t.response);
      newMessages := newMessages + [t.response];
    }

    /** The tools of a response, and the end of the turn. */
    method Answer(t: TurnScript) returns (more: bool, ghost results: seq<Message>)
      requires Synced() && Read(events) == Turn(multiset{}) && t.response.Assistant? && !Fails(t)
      modifies this`events, this`transcript, this`pendingCalls, this`context, this`newMessages
      ensures Synced() && Read(events) == Idle && transcript == old(transcript) + results
      ensures TurnsEnded(events) == old(TurnsEnded(events)) + [(t.response, results)]
      ensures events[|events| - 1] == TurnEnd(t.response, results)
      ensures ResultsOk(t, results) && more == WantsTools(t)
      ensures Heard(events) == old(Heard(events)) + (BatchTold(t, results) + [TurnEnd(t.response, results)])
    {
      NoTools(t);
      hide Heard, BatchTold;
      var answers: seq<Message> := [];
      more := false;
      if t.response.calls != [] {
        var terminate;
        answers, terminate := ExecuteTools(t);
        more := !terminate;
        context := context + answers;
        newMessages := newMessages + answers;
      }
      results := answers;
      Emit(TurnEnd(t.response, answers));
    }

    /**
     * One turn. A failed or aborted response ends it without tools. Nothing changes after its end was announced, so
     * transcript and context agree at the announcement.
     */
    method RunTurn(t: TurnScript, pending: seq<Message>, first: bool)
      returns (failed: bool, more: bool, ghost before: seq<Message>, ghost results: seq<Message>)
      requires Synced() && Read(events) == (if first then Turn(multiset{}) else Idle) && Playable(t)
      modifies this`events, this`transcript, this`pendingCalls, this`context, this`newMessages
      ensures Synced() && Read(events) == Idle && context == transcript
      ensures failed == Fails(t) && ResultsOk(t, results) && more == WantsTools(t)
      ensures t.response.Assistant? && |results| <= |t.response.calls|
      ensures before == Declare(old(transcript), tools, (if first then [] else t.prepared) + pending)
      ensures transcript == old(transcript) + Joined(before, t.response, results)
      ensures TurnsEnded(events) == old(TurnsEnded(events)) + [(t.response, results)]
      ensures events[|events| - 1] == TurnEnd(t.response, results)
      ensures Heard(events) == old(Heard(events)) + TurnTold(t, before, results, first)
    {
      hide Read, Ended, TurnsEnded, Follows, Heard, StreamTold, BatchTold, Says;
      before := RequestResponse(t, pending, first);
      failed, more, results := t.response.stop.Error? || t.response.stop.Aborted?, false, [];
      if failed {
        EndFailed(t);
      } else {
        more, results := Answer(t);
      }
    }

    method EndFailed(t: TurnScript)
      requires Synced() && Read(events) == Turn(multiset{}) && t.response.Assistant?
      modifies this`events, this`transcript, this`pendingCalls
      ensures Synced() && Read(events) == Idle && transcript == old(transcript)
      ensures TurnsEnded(events) == old(TurnsEnded(events)) + [(t.response, [])]
      ensures events[|events| - 1] == TurnEnd(t.response, [])
      ensures Heard(events) == old(Heard(events)) + [TurnEnd(t.response, [])]
    {
      Emit(TurnEnd(t.response, []));
    }

    // -------------------------------------------------------------- the loop

    /** The requests so far, and what they made of transcript, events and queues; `pending` goes before the next one. */
    ghost predicate InLoop(script: seq<TurnScript>, base: Beginning, pending: seq<Message>, from: Queue)
      reads this
    {
      && Synced() && Read(events) == (if lastCompleted then Idle else Turn(multiset{}))
      && (lastCompleted <==> log != [])
      && transcript == base.transcript + Flatten(log) && LogOk(script, base.transcript, tools, log)
      && TurnsEnded(events) == Turns(log)
      && Heard(events) == base.heard + AllTold(log) && QueuesOk(pending, from) && LeadsOn(log)
      && (skipsFirst ==> (if log == [] then pending else log[0].polled) == [])
    }

    /** What is pending is what the last request was steered or followed up with, if it was. */
    ghost predicate Promised(pending: seq<Message>, from: Queue)
      reads this
    {
      log != [] ==>
        && (log[|log| - 1].steered ==> pending != [] && from.Steering?)
        && (log[|log| - 1].followed ==> pending != [] && from.FollowUps?)
    }

    /** Nothing asks for another request: the last turn failed, or ended the run, or left nothing to do. */
    ghost predicate Over(script: seq<TurnScript>, base: Beginning)
      reads this
    {
      && InLoop(script, base, [], Steering) && log != [] && !AsksForMore(log[|log| - 1])
      && OnlyLast(log[|log| - 1].turn)
    }

    /** If nothing cut the run short, only what came too late for its last polls is still queued. */
    ghost predicate OnlyLast(t: TurnScript)
      reads `steering, `followUps
    {
      Fails(t) || t.decision.EndRun? || (steering == t.lastSteer && followUps == t.lastFollow)
    }

    ghost predicate GoesOn(script: seq<TurnScript>, base: Beginning, pending: seq<Message>, from: Queue)
      reads this
    {
      InLoop(script, base, pending, from) && Promised(pending, from) && (log != [] ==> AsksForMore(log[|log| - 1]))
    }

    /** The last request asks for nothing itself, but may have decided to continue (`explicit`). */
    ghost predicate Rests(script: seq<TurnScript>, base: Beginning, explicit: bool)
      reads this
    {
      && InLoop(script, base, [], Steering) && log != [] && steering == []
      && var r := log[|log| - 1];
         && !Fails(r.turn) && !r.turn.decision.EndRun? && !r.followed && !r.moreTools && !r.steered
         && explicit == r.turn.decision.ContinueRun?
    }

    lemma LastTurn(script: seq<TurnScript>, base: Beginning, explicit: bool)
      requires Rests(script, base, explicit)
      ensures log != [] && log[|log| - 1].turn == TurnAt(script, |log| - 1)
    {
      hide Synced, Read, Turns, TurnsEnded, Heard, AllTold, Flatten, LeadsOn, QueuesOk;
      assert RequestOk(script, base.transcript, tools, log, |log| - 1);
    }

    /** One pass of the inner loop. `explicit`: the turn decided to continue and nothing else asks for a request. */
    method Pass(ghost script: seq<TurnScript>, ghost base: Beginning, t: TurnScript, queued: seq<Message>,
                ghost from: Queue)
      returns (pending: seq<Message>, more: bool, done: bool, explicit: bool)
      requires GoesOn(script, base, queued, from) && Playable(t) && t == TurnAt(script, |log|)
      modifies this
      ensures |log| == old(|log|) + 1 && transcript == base.transcript + Flatten(log)
      ensures done <==> Fails(t) || t.decision.EndRun?
      ensures done ==> Over(script, base)
      ensures !done && (more || pending != []) ==> GoesOn(script, base, pending, Steering)
      ensures !done && !more && pending == [] ==> Rests(script, base, explicit)
    {
      hide Synced, Polled, Read, AsksForMore, LogOk, Turns, TurnsEnded, Heard, AllTold, Flatten;
      var polled;
      ghost var queue;
      polled, queue := PollEarly(script, base, t, queued, from);
      pending, more, done, explicit := PlayTurn(script, base, t, polled, queue);
    }

    /** Preparation may take long: steering queued meanwhile is picked up, unless something is pending already. */
    method PollEarly(ghost script: seq<TurnScript>, ghost base: Beginning, t: TurnScript, queued: seq<Message>,
                     ghost from: Queue)
      returns (polled: seq<Message>, ghost queue: Queue)
      requires GoesOn(script, base, queued, from)
      modifies this`steering, this`followUps, this`queuedSteering, this`queuedFollowUps
      ensures GoesOn(script, base, polled, queue)
      ensures queued != [] ==> polled == queued && queue == from
    {
      hide Synced, Read, AsksForMore, Polled, LogOk, Turns, TurnsEnded, Heard, AllTold, Flatten, LeadsOn, Queues,
        OneEach;
      polled, queue := queued, from;
      if lastCompleted {
        UserQueues(t.early, []);
        QueuesMore(log, queued, from, old(steering), old(followUps), old(queuedSteering), old(queuedFollowUps), t.early,
                   []);
        if polled == [] {
          ghost var waiting := steering;
          polled := DrainSteering();
          queue := Steering;
          QueuesPolled(log, from, waiting, followUps, queuedSteering, queuedFollowUps, polled, steering);
        }
      }
    }

    method PlayTurn(ghost script: seq<TurnScript>, ghost base: Beginning, t: TurnScript, polled: seq<Message>,
                    ghost from: Queue)
      returns (pending: seq<Message>, more: bool, done: bool, explicit: bool)
      requires GoesOn(script, base, polled, from) && Playable(t) && t == TurnAt(script, |log|)
      modifies this
      ensures |log| == old(|log|) + 1
      ensures done <==> Fails(t) || t.decision.EndRun?
      ensures done ==> Over(script, base)
      ensures !done && (more || pending != []) ==> GoesOn(script, base, pending, Steering)
      ensures !done && !more && pending == [] ==> Rests(script, base, explicit)
    {
      pending, more, done, explicit := TakeTurn(script, base, t, polled, from);
      hide InLoop;
    }

    method TakeTurn(ghost script: seq<TurnScript>, ghost base: Beginning, t: TurnScript, polled: seq<Message>,
                    ghost from: Queue)
      returns (pending: seq<Message>, more: bool, done: bool, explicit: bool)
      requires GoesOn(script, base, polled, from) && Playable(t) && t == TurnAt(script, |log|)
      modifies this
      ensures |log| == old(|log|) + 1 && InLoop(script, base, pending, Steering)
      ensures var r := log[|log| - 1];
              r.turn == t && r.moreTools == more && r.steered == (pending != []) && !r.followed
      ensures (done <==> Fails(t) || t.decision.EndRun?) && (done ==> pending == [])
      ensures !done ==>
              (pending == [] ==> steering == []) && explicit == (t.decision.ContinueRun? && !more && pending == [])
    {
      hide Synced, Read, Polled, LogOk, Turns, TurnsEnded, Heard, AllTold, Flatten, LeadsOn, ResultsOk, WantsTools,
        Queues, AsksForMore,
        Joined, Declare, Fails, TurnAt, TurnTold;
      var failed;
      ghost var before, results;
      failed, more, before, results := RunTurn(t, polled, !lastCompleted);
      lastCompleted := true;
      pending, done, explicit := Conclude(t, failed, more);
      ghost var r := Request(t, polled, from, before, results, (transcript, context), more, pending != [], false);
      LogSnoc(log, r, Steering);
      assert transcript == base.transcript + Flatten(log) + Exchange(r);
      assert r.turn.response.Assistant? && |r.results| <= |r.turn.response.calls|;
      assert Heard(events) == base.heard + (AllTold(log) + TurnTold(t, before, results, log == []));
      Appends(script, base.transcript, tools, log, r, transcript);
      QueuesAfterTurn(log, r, old(steering), old(followUps), old(queuedSteering), old(queuedFollowUps),
                      if done then [] else t.late, if done then [] else t.follow, pending, steering);
      log := log + [r];
      assert log[|log| - 1] == r;
    }

    /** After a turn: unless the run is over, what the user did meanwhile, and the next poll. */
    method Conclude(t: TurnScript, failed: bool, more: bool) returns (pending: seq<Message>, done: bool, explicit: bool)
      modifies this`steering, this`followUps, this`queuedSteering, this`queuedFollowUps
      ensures done == (failed || t.decision.EndRun?)
      ensures pending + steering == old(steering) + (if done then [] else t.late)
      ensures followUps == old(followUps) + (if done then [] else t.follow)
      ensures queuedSteering == old(queuedSteering) + (if done then [] else t.late)
      ensures queuedFollowUps == old(queuedFollowUps) + (if done then [] else t.follow)
      ensures done ==> pending == [] && !explicit
      ensures !done && pending == [] ==> steering == []
      ensures oneSteering ==> |pending| <= 1
      ensures !done ==> explicit == (t.decision.ContinueRun? && !more && pending == [])
    {
      pending, explicit := [], false;
      done := failed || t.decision.EndRun?;
      if !done {
        UserQueues(t.late, t.follow);
        pending := DrainSteering();
        explicit := t.decision.ContinueRun? && !more && pending == [];
      }
    }

    /** `runLoop`, the inner loop: passes until nothing but a follow-up or a decision asks for more. */
    method InnerLoop(script: seq<TurnScript>, ghost base: Beginning, start: nat, queued: seq<Message>,
                     ghost from: Queue)
      returns (i: nat, done: bool, explicit: bool)
      requires GoesOn(script, base, queued, from) && forall i | 0 <= i < |script| :: Playable(script[i])
      requires start == if |log| <= |script| then |log| else |script|
      requires |log| <= |script|
      modifies this
      ensures done ==> Over(script, base)
      ensures !done ==> Rests(script, base, explicit) && start < i == |log| <= |script|
    {
      hide Synced, Read, Polled, AsksForMore, LogOk, Turns, TurnsEnded, Heard, AllTold, Flatten, LeadsOn, GoesOn, Over,
        Rests;
      var pending, more := queued, true;
      ghost var queue := from;
      i, done, explicit := start, false, false;
      while !done && (more || pending != [])
        invariant done ==> Over(script, base)
        invariant !done ==> start <= i == |log| <= |script| && (i == start ==> more)
        invariant !done && (more || pending != []) ==> GoesOn(script, base, pending, queue)
        invariant !done && !more && pending == [] ==> Rests(script, base, explicit)
        decreases !done, |script| - i
      {
        var t := if i < |script| then script[i] else FAILURE;
        pending, more, done, explicit := Pass(script, base, t, pending, queue);
        queue := Steering;
        i := i + 1;
      }
    }

    /** The agent would stop: follow-ups come first, then a decision to continue. */
    method FollowUp(ghost script: seq<TurnScript>, ghost base: Beginning, t: TurnScript, explicit: bool)
      returns (pending: seq<Message>, done: bool)
      requires Rests(script, base, explicit) && t == log[|log| - 1].turn
      modifies this`steering, this`followUps, this`queuedSteering, this`queuedFollowUps, this`log
      ensures done ==> Over(script, base)
      ensures !done ==> GoesOn(script, base, pending, FollowUps) && |log| == old(|log|)
      ensures done <==> pending == [] && !explicit
    {
      pending := PollFollowUps(script, base, t, explicit);
      done := pending == [] && !explicit;
      hide Synced, Read, Polled, LogOk, Turns, TurnsEnded, Heard, AllTold, Flatten, LeadsOn;
      assert pending == [] ==> QueuesOk([], Steering) by {
        NothingPending(log, steering, followUps, queuedSteering, queuedFollowUps);
      }
    }

    method PollFollowUps(ghost script: seq<TurnScript>, ghost base: Beginning, t: TurnScript, ghost explicit: bool)
      returns (pending: seq<Message>)
      requires Rests(script, base, explicit) && t == log[|log| - 1].turn
      modifies this`steering, this`followUps, this`queuedSteering, this`queuedFollowUps, this`log
      ensures InLoop(script, base, pending, FollowUps) && log == Note(old(log), pending != [])
      ensures steering == t.lastSteer && (pending == [] ==> followUps == t.lastFollow)
    {
      pending := TakeFollowUps(script, base, explicit);
      hide Synced, Read, LogOk, Turns, TurnsEnded, Heard, AllTold, Flatten, Queues, LeadsOn, OneEach;
      QueuesMore(log, pending, FollowUps, steering, followUps, queuedSteering, queuedFollowUps, t.lastSteer,
                 t.lastFollow);
      UserQueues(t.lastSteer, t.lastFollow);
    }

    method TakeFollowUps(ghost script: seq<TurnScript>, ghost base: Beginning, ghost explicit: bool)
      returns (pending: seq<Message>)
      requires Rests(script, base, explicit)
      modifies this`followUps, this`log
      ensures InLoop(script, base, pending, FollowUps) && log == Note(old(log), pending != [])
      ensures steering == [] && (pending == [] ==> followUps == [])
    {
      hide Synced, Read, Polled, LogOk, Turns, TurnsEnded, Heard, AllTold, Flatten, Queues, LeadsOn;
      pending := DrainFollowUps();
      NoteKeeps(script, base.transcript, tools, log, pending != [], Steering);
      NoteLeads(log, pending != []);
      QueuesAfterFollowUps(log, Steering, steering, old(followUps), queuedSteering, queuedFollowUps, pending,
                           followUps);
      log := Note(log, pending != []);
    }

    method FirstPoll(ghost script: seq<TurnScript>) returns (pending: seq<Message>)
      requires Synced() && Read(events) == Turn(multiset{}) && log == [] && TurnsEnded(events) == [] && !lastCompleted
      requires queuedSteering == steering && queuedFollowUps == followUps
      modifies this`steering
      ensures GoesOn(script, Beginning(transcript, Heard(events)), pending, Steering)
    {
      hide Synced, Read, AsksForMore, TurnsEnded, Heard;
      pending := [];
      if !skipsFirst {
        pending := DrainSteering();
      }
      assert Queues(log, pending, Steering, steering, followUps, queuedSteering, queuedFollowUps);
    }

    method LoopTurns(script: seq<TurnScript>)
      requires Synced() && Read(events) == Turn(multiset{}) && log == [] && TurnsEnded(events) == [] && !lastCompleted
      requires queuedSteering == steering && queuedFollowUps == followUps
      requires forall i | 0 <= i < |script| :: Playable(script[i])
      modifies this
      ensures Over(script, old(Beginning(transcript, Heard(events))))
    {
      hide Synced, Read, TurnsEnded, Heard, GoesOn, Over, Rests;
      ghost var base, from := Beginning(transcript, Heard(events)), Steering;
      var pending := FirstPoll(script);
      var i, done := 0, false;
      while !done
        invariant done ==> Over(script, base)
        invariant !done ==> GoesOn(script, base, pending, from) && i == |log| <= |script|
        decreases !done, |script| - i
      {
        var explicit;
        i, done, explicit := InnerLoop(script, base, i, pending, from);
        if !done {
          LastTurn(script, base, explicit);
          pending, done := FollowUp(script, base, script[i - 1], explicit);
          from := FollowUps;
        }
      }
    }

    /** What a run of the loop that began with transcript `base` amounts to. */
    ghost predicate Played(script: seq<TurnScript>, base: Beginning)
      reads this
    {
      && LogOk(script, base.transcript, tools, log) && LeadsOn(log) && log != [] && !AsksForMore(log[|log| - 1])
      && transcript == context == base.transcript + Flatten(log) && TurnsEnded(events) == Turns(log)
      && Heard(events) == base.heard + AllTold(log) + [AgentEnd(Ended(events))] && QueuesOk([], Steering)
      && OnlyLast(log[|log| - 1].turn) && (skipsFirst ==> log[0].polled == [])
      && Read(events) == After && transcript == initial + Ended(events) && pendingCalls == {}
      && events != [] && events[|events| - 1] == AgentEnd(Ended(events))
    }

    /**
     * The loop. The transcript grows by exactly what each request adds: what was polled before it, in queue order and
     * once, its response, and a result for each of its tool calls unless an abort or a failure came between. A request
     * is made exactly as long as the turn before it asks for one, and transcript and context agree at every turn's end.
     */
    method RunLoop(script: seq<TurnScript>)
      requires Synced() && Read(events) == Turn(multiset{}) && log == [] && TurnsEnded(events) == [] && !lastCompleted
      requires queuedSteering == steering && queuedFollowUps == followUps
      requires forall i | 0 <= i < |script| :: Playable(script[i])
      modifies this
      ensures Played(script, old(Beginning(transcript, Heard(events))))
    {
      hide LogOk, LeadsOn, Flatten, Turns, AsksForMore, Queues, Read, Ended, TurnsEnded, Running, OnlyLast, Heard,
        AllTold;
      LoopTurns(script);
      EndRun();
    }

    method EndRun()
      requires Synced() && Read(events) == Idle
      modifies this`events, this`transcript, this`pendingCalls
      ensures Read(events) == After && transcript == old(transcript) == initial + Ended(events) && pendingCalls == {}
      ensures events != [] && events[|events| - 1] == AgentEnd(Ended(events))
      ensures TurnsEnded(events) == old(TurnsEnded(events))
      ensures Heard(events) == old(Heard(events)) + [AgentEnd(Ended(events))]
    {
      RunningIsOpen(events);
      Emit(AgentEnd(newMessages));
    }

    method Open(opening: seq<Message>)
      requires context == transcript == initial && newMessages == [] && events == [] && pendingCalls == {}
      modifies this`events, this`transcript, this`pendingCalls, this`context, this`newMessages
      ensures Synced() && Read(events) == Turn(multiset{}) && TurnsEnded(events) == []
      ensures transcript == initial + opening && Heard(events) == [AgentStart, TurnStart] + Says(opening)
    {
      Emit(AgentStart);
      Emit(TurnStart);
      assert Heard(events) == [AgentStart, TurnStart] && Read(events) == Turn(multiset{}) && TurnsEnded(events) == [];
      hide Says, Heard, Read, TurnsEnded;
      AddMessages(opening);
    }

    /** `runAgentLoop`: the prompts open the first turn. */
    method Run(prompts: seq<Message>, script: seq<TurnScript>)
      requires context == transcript == initial && newMessages == [] && events == [] && log == [] && pendingCalls == {}
      requires queuedSteering == steering && queuedFollowUps == followUps
      requires !lastCompleted && forall i | 0 <= i < |script| :: Playable(script[i])
      modifies this
      ensures Played(script, Beginning(initial + Declare(initial, tools, prompts),
                                       [AgentStart, TurnStart] + Says(Declare(initial, tools, prompts))))
    {
      var opening := Declare(context, tools, prompts);
      Open(opening);
      hide Played, Synced, Declare, Read, Heard, Says, TurnsEnded;
      RunLoop(script);
    }
  }

  lemma NoteLeads(log: seq<Request>, followed: bool)
    requires log != [] && LeadsOn(log)
    ensures LeadsOn(Note(log, followed))
    ensures Note(log, followed)[|log| - 1] == log[|log| - 1].(followed := followed) && |Note(log, followed)| == |log|
    ensures Note(log, followed)[0].polled == log[0].polled
    ensures OneEach(log) ==> OneEach(Note(log, followed))
  {
    hide AsksForMore;
  }

  /** Everything ever queued went before a request once, in order, or is `pending` for the next, or still waits. */
  predicate Queues(log: seq<Request>, pending: seq<Message>, from: Queue, steering: seq<Message>,
                   followUps: seq<Message>,
                   queuedSteering: seq<Message>, queuedFollowUps: seq<Message>) {
    && Polled(log, Steering) + (if from.Steering? then pending else []) + steering == queuedSteering
    && Polled(log, FollowUps) + (if from.FollowUps? then pending else []) + followUps == queuedFollowUps
  }

  /** What a poll takes from a queue is pending, and the rest still waits. */
  lemma PollMoves<T>(polled: seq<T>, queue: seq<T>, more: seq<T>, pending: seq<T>, left: seq<T>)
    requires pending + left == queue + more
    ensures polled + pending + left == polled + queue + more
  {
    assert polled + pending + left == polled + (pending + left);
    assert polled + queue + more == polled + (queue + more);
  }

  /** A turn uses what was pending; the user queues more, and the next poll takes from the steering queue. */
  lemma QueuesAfterTurn(log: seq<Request>, r: Request, steering: seq<Message>, followUps: seq<Message>,
                        queuedSteering: seq<Message>, queuedFollowUps: seq<Message>, late: seq<Message>,
                        follow: seq<Message>, pending: seq<Message>, steering': seq<Message>)
    requires Queues(log, r.polled, r.from, steering, followUps, queuedSteering, queuedFollowUps)
    requires pending + steering' == steering + late
    ensures Queues(log + [r], pending, Steering, steering', followUps + follow, queuedSteering + late,
                   queuedFollowUps + follow)
  {
    LogSnoc(log, r, Steering);
    LogSnoc(log, r, FollowUps);
    PollMoves(Polled(log + [r], Steering), steering, late, pending, steering');
    PollMoves(Polled(log + [r], FollowUps), followUps, follow, [], followUps + follow);
  }

  lemma QueuesMore(log: seq<Request>, pending: seq<Message>, from: Queue, steering: seq<Message>,
                   followUps: seq<Message>,
                   queuedSteering: seq<Message>, queuedFollowUps: seq<Message>, steer: seq<Message>,
                   follow: seq<Message>)
    requires Queues(log, pending, from, steering, followUps, queuedSteering, queuedFollowUps)
    ensures Queues(log, pending, from, steering + steer, followUps + follow, queuedSteering + steer,
                   queuedFollowUps + follow)
  {
    PollMoves(Polled(log, Steering) + (if from.Steering? then pending else []), steering, steer, [], steering + steer);
    PollMoves(Polled(log, FollowUps) + (if from.FollowUps? then pending else []), followUps, follow, [],
              followUps + follow);
  }

  lemma QueuesPolled(log: seq<Request>, from: Queue, steering: seq<Message>, followUps: seq<Message>,
                     queuedSteering: seq<Message>, queuedFollowUps: seq<Message>, pending: seq<Message>,
                     steering': seq<Message>)
    requires Queues(log, [], from, steering, followUps, queuedSteering, queuedFollowUps)
             && pending + steering' == steering
    ensures Queues(log, pending, Steering, steering', followUps, queuedSteering, queuedFollowUps)
  {
    PollMoves(Polled(log, Steering), steering, [], pending, steering');
  }

  lemma NothingPending(log: seq<Request>, steering: seq<Message>, followUps: seq<Message>, queuedSteering: seq<Message>,
                       queuedFollowUps: seq<Message>)
    ensures Queues(log, [], FollowUps, steering, followUps, queuedSteering, queuedFollowUps)
            == Queues(log, [], Steering, steering, followUps, queuedSteering, queuedFollowUps)
  {
  }

  /** With nothing pending, the follow-ups are polled. */
  lemma QueuesAfterFollowUps(log: seq<Request>, from: Queue, steering: seq<Message>, followUps: seq<Message>,
                             queuedSteering: seq<Message>, queuedFollowUps: seq<Message>, pending: seq<Message>,
                             followUps': seq<Message>)
    requires Queues(log, [], from, steering, followUps, queuedSteering, queuedFollowUps) && log != []
    requires pending + followUps' == followUps
    ensures Queues(Note(log, pending != []), pending, FollowUps, steering, followUps', queuedSteering, queuedFollowUps)
  {
    var rest, last := log[..|log| - 1], log[|log| - 1];
    assert log == rest + [last];
    LogSnoc(rest, last, Steering);
    LogSnoc(rest, last, FollowUps);
    LogSnoc(rest, last.(followed := pending != []), Steering);
    LogSnoc(rest, last.(followed := pending != []), FollowUps);
    PollMoves(Polled(log, FollowUps), followUps, [], pending, followUps');
  }

  /** One more request, played on the transcript that the others left. */
  lemma Appends(script: seq<TurnScript>, base: seq<Message>, tools: Tools, log: seq<Request>, r: Request,
                transcript: seq<Message>)
    requires LogOk(script, base, tools, log) && LeadsOn(log)
    requires log != [] ==>
               var last := log[|log| - 1];
               && AsksForMore(last)
               && (last.steered ==> r.polled != [] && r.from.Steering?)
               && (last.followed ==> r.polled != [] && r.from.FollowUps?)
    requires r.turn == TurnAt(script, |log|) && ResultsOk(r.turn, r.results)
             && r.moreTools == WantsTools(r.turn)
    requires r.before == Declare(base + Flatten(log), tools, (if log == [] then [] else r.turn.prepared) + r.polled)
    requires transcript == base + Flatten(log) + Exchange(r) && r.atEnd == (transcript, transcript)
    ensures LogOk(script, base, tools, log + [r]) && LeadsOn(log + [r])
    ensures transcript == base + Flatten(log + [r])
  {
    hide ResultsOk, WantsTools, AsksForMore, Polled, Turns, LogOk, LeadsOn, Flatten, Declare;
    NewRequestOk(script, base, tools, log, r);
    hide RequestOk;
    LeadsFurther(log, r);
    LogGrows(script, base, tools, log, r);
    LogSnoc(log, r, Steering);
    assert base + Flatten(log) + Exchange(r) == base + (Flatten(log) + Exchange(r));
  }

  lemma NewRequestOk(script: seq<TurnScript>, base: seq<Message>, tools: Tools, log: seq<Request>, r: Request)
    requires r.turn == TurnAt(script, |log|) && ResultsOk(r.turn, r.results)
             && r.moreTools == WantsTools(r.turn)
    requires r.before == Declare(base + Flatten(log), tools, (if log == [] then [] else r.turn.prepared) + r.polled)
    requires r.atEnd == (base + Flatten(log) + Exchange(r), base + Flatten(log) + Exchange(r))
    ensures RequestOk(script, base, tools, log + [r], |log|)
  {
    hide ResultsOk, WantsTools, Flatten, Declare, Exchange;
    assert (log + [r])[..|log|] == log && (log + [r])[|log|] == r;
  }

  lemma LeadsFurther(log: seq<Request>, r: Request)
    requires LeadsOn(log)
    requires log != [] ==>
               var last := log[|log| - 1];
               && AsksForMore(last)
               && (last.steered ==> r.polled != [] && r.from.Steering?)
               && (last.followed ==> r.polled != [] && r.from.FollowUps?)
    ensures LeadsOn(log + [r])
  {
    hide AsksForMore;
    var all := log + [r];
    forall i | 0 <= i < |all| - 1
      ensures AsksForMore(all[i]) && (all[i].steered ==> all[i + 1].polled != [] && all[i + 1].from.Steering?)
      ensures all[i].followed ==> all[i + 1].polled != [] && all[i + 1].from.FollowUps?
    {
      assert all[i] == log[i];
      if i < |log| - 1 {
        assert all[i + 1] == log[i + 1];
      }
    }
  }

  lemma SaysSnoc(messages: seq<Message>, message: Message)
    ensures Says(messages + [message]) == Says(messages) + [MessageStart(message), MessageEnd(message)]
  {
    assert (messages + [message])[..|messages|] == messages;
  }

  lemma NoTools(t: TurnScript)
    requires t.response.Assistant?
    ensures BatchTold(t, []) == []
  {
  }

  lemma OneMoreTool(results: seq<Message>, result: Message)
    requires result.ToolResult?
    ensures OneByOne(results + [result])
            == OneByOne(results) + [ToolStart(result.call)] + [MessageStart(result), MessageEnd(result)]
  {
    assert (results + [result])[..|results|] == results;
  }

  /** The calls whose tools run: those that do not settle at once. */
  function Slow(calls: seq<nat>, immediate: set<nat>): seq<nat> {
    if calls == [] then []
    else
      var last := |calls| - 1;
      Slow(calls[..last], immediate) + (if last in immediate then [] else [calls[last]])
  }

  lemma BeginsSnoc(calls: seq<nat>, n: nat, immediate: set<nat>)
    requires n < |calls|
    ensures Begins(calls[..n + 1]) == Begins(calls[..n]) + [ToolStart(calls[n])]
    ensures Slow(calls[..n + 1], immediate)
            == if n in immediate then Slow(calls[..n], immediate) else Slow(calls[..n], immediate) + [calls[n]]
  {
    assert calls[..n + 1][..n] == calls[..n];
  }

  lemma RemoveAt(s: seq<nat>, i: nat)
    requires i < |s|
    ensures s[i] in multiset(s) && multiset(s) - multiset{s[i]} == multiset(s[..i] + s[i + 1..])
  {
    assert s == s[..i] + [s[i]] + s[i + 1..];
  }

  lemma FinishedIs(context: seq<Message>, stream: seq<StreamEvent>, final: Message)
    ensures var c := Streamed(context, stream);
            Finished(context, stream, final) == (if Starts(stream) > 0 && c != [] then c[..|c| - 1] else c) + [final]
  {
  }

  lemma NothingStreamed(context: seq<Message>, stream: seq<StreamEvent>)
    ensures Starts(stream[..0]) == 0 && Streamed(context, stream[..0]) == context && Told(stream[..0]) == []
  {
  }

  lemma StreamedSnoc(context: seq<Message>, stream: seq<StreamEvent>, i: nat)
    requires i < |stream|
    ensures var before, event := Streamed(context, stream[..i]), stream[i];
            && Starts(stream[..i + 1]) == Starts(stream[..i]) + (if event.Start? then 1 else 0)
            && (Starts(stream[..i]) > 0 ==> before != [])
            && Streamed(context, stream[..i + 1])
               == if event.Start? then before + [event.partial]
                  else if Starts(stream[..i]) > 0 then before[..|before| - 1] + [event.partial] else before
    ensures Told(stream[..i + 1])
            == Told(stream[..i]) + if stream[i].Start? then [MessageStart(stream[i].partial)]
                                   else if Starts(stream[..i]) > 0 then [MessageUpdate(stream[i].partial)] else []
  {
    assert stream[..i + 1][..i] == stream[..i];
    StreamedLength(context, stream[..i]);
  }
}
