/**
 * Messages of an agent's transcript, and how it declares tools: system messages add and remove tools, and before each
 * request the difference to what the runtime can execute is declared.
 */
module ToolDeclarations {

  /** Tool definitions by name. */
  type Tools = map<nat, nat>

  datatype Stop = EndOfTurn | ToolUse | Length | Error | Aborted

  datatype Message =
    | User(id: nat)
    | System(id: nat, removed: set<nat>, added: Tools)
    | Assistant(id: nat, calls: seq<nat>, stop: Stop)
    | ToolResult(call: nat, terminate: bool)

  /** Replays every system message: removals first, then additions. */
  function CurrentTools(messages: seq<Message>): Tools {
    if messages == [] then map[]
    else
      var before, last := CurrentTools(messages[..|messages| - 1]), messages[|messages| - 1];
      if last.System? then (before - last.removed) + last.added else before
  }

  /** A changed definition is a removal followed by an addition. */
  function Removed(previous: Tools, current: Tools): set<nat> {
    set name | name in previous && (name !in current || current[name] != previous[name])
  }

  function Added(previous: Tools, current: Tools): Tools {
    map name | name in current && (name !in previous || previous[name] != current[name]) :: current[name]
  }

  /** The index of the last system message, or -1. */
  function LastSystem(messages: seq<Message>): (i: int)
    ensures -1 <= i < |messages|
    ensures i >= 0 ==> messages[i].System?
    ensures forall j | i < j < |messages| :: !messages[j].System?
  {
    if messages == [] then -1
    else if messages[|messages| - 1].System? then |messages| - 1
    else LastSystem(messages[..|messages| - 1])
  }

  function WithTools(message: Message, removed: set<nat>, added: Tools): Message
    requires message.System?
  {
    message.(removed := removed, added := added)
  }

  const UPDATE: Message := System(0, {}, map[])

  /** The pending messages, with the tool changes the model must hear of before the next request. */
  function Declare(transcript: seq<Message>, tools: Tools, pending: seq<Message>): seq<Message> {
    var i := LastSystem(pending);
    var baseline := if i < 0 then pending else pending[i := WithTools(pending[i], {}, map[])];
    var previous := CurrentTools(transcript + baseline);
    var removed, added := Removed(previous, tools), Added(previous, tools);
    if i >= 0 then
      if removed == {} && added == map[] && pending[i].removed == {} && pending[i].added == map[] then pending
      else baseline[i := WithTools(pending[i], removed, added)]
    else if removed == {} && added == map[] then pending
    else [WithTools(UPDATE, removed, added)] + pending
  }

  lemma ChangesReplay(previous: Tools, current: Tools)
    ensures (previous - Removed(previous, current)) + Added(previous, current) == current
    ensures Removed(previous, current) == {} && Added(previous, current) == map[] <==> previous == current
  {
    if Removed(previous, current) == {} && Added(previous, current) == map[] {
      assert forall name :: name in previous ==> name !in Removed(previous, current);
      assert forall name :: name in current ==> name !in Added(previous, current);
    }
  }

  /** Messages that declare nothing leave the tools as they are. */
  lemma {:induction false} QuietTail(a: seq<Message>, b: seq<Message>)
    requires forall m | m in b :: !m.System?
    ensures CurrentTools(a + b) == CurrentTools(a)
  {
    if b == [] {
      assert a + b == a;
    } else {
      var rest := b[..|b| - 1];
      QuietTail(a, rest);
      assert (a + b)[..|a + b| - 1] == a + rest;
    }
  }

  /** What the model may call after the declared messages is what the runtime can execute. */
  lemma DeclaringYieldsTheTools(transcript: seq<Message>, tools: Tools, pending: seq<Message>)
    ensures CurrentTools(transcript + Declare(transcript, tools, pending)) == tools
  {
    var i := LastSystem(pending);
    var baseline := if i < 0 then pending else pending[i := WithTools(pending[i], {}, map[])];
    var previous := CurrentTools(transcript + baseline);
    var removed, added := Removed(previous, tools), Added(previous, tools);
    ChangesReplay(previous, tools);
    if i >= 0 {
      var declared := baseline[i := WithTools(pending[i], removed, added)];
      SystemAt(transcript, baseline, i);
      SystemAt(transcript, declared, i);
      assert baseline[..i] == declared[..i] == pending[..i];
      assert (CurrentTools(transcript + pending[..i]) - {}) + map[] == CurrentTools(transcript + pending[..i]);
      if pending[i].removed == {} && pending[i].added == map[] {
        assert WithTools(pending[i], {}, map[]) == pending[i];
        assert pending == baseline;
      }
    } else if removed == {} && added == map[] {
    } else {
      QuietTail(transcript, pending);
      var update := WithTools(UPDATE, removed, added);
      assert transcript + ([update] + pending) == (transcript + [update]) + pending;
      QuietTail(transcript + [update], pending);
      assert (transcript + [update])[..|transcript|] == transcript;
    }
  }

  /** The change takes the names of one set of tools to another, and names nothing that stays as it is. */
  ghost predicate IsChange(previous: Tools, removed: set<nat>, added: Tools, tools: Tools) {
    && (forall name :: name in removed <==> name in previous && (name in tools ==> tools[name] != previous[name]))
    && (forall name :: name in added <==> name in tools && (name in previous ==> tools[name] != previous[name]))
    && (forall name | name in added :: added[name] == tools[name])
  }

  /**
   * Nothing is declared that the model knows already: without a system message there is an update exactly if its tools
   * differ, and the last system message declares exactly what changes from the messages before it.
   */
  lemma DeclaresOnlyChanges(transcript: seq<Message>, tools: Tools, pending: seq<Message>)
    ensures var declared, i := Declare(transcript, tools, pending), LastSystem(pending);
            && (i < 0 ==> (declared == pending <==> CurrentTools(transcript) == tools))
            && (i < 0 && declared != pending ==>
                  declared[0].System?
                    && IsChange(CurrentTools(transcript), declared[0].removed, declared[0].added, tools))
            && (i >= 0 ==> |declared| == |pending| && declared[i].System?
                           && IsChange(CurrentTools(transcript + pending[..i]), declared[i].removed, declared[i].added,
                                       tools))
  {
    var i := LastSystem(pending);
    var baseline := if i < 0 then pending else pending[i := WithTools(pending[i], {}, map[])];
    ChangesReplay(CurrentTools(transcript + baseline), tools);
    if i < 0 {
      QuietTail(transcript, pending);
      if Declare(transcript, tools, pending) == pending {
        assert |Declare(transcript, tools, pending)| == |pending|;
      }
    } else {
      SystemAt(transcript, baseline, i);
      assert baseline[..i] == pending[..i];
      var before := CurrentTools(transcript + pending[..i]);
      assert (before - {}) + map[] == before;
    }
  }

  lemma SystemAt(transcript: seq<Message>, messages: seq<Message>, i: nat)
    requires i < |messages| && messages[i].System? && forall j | i < j < |messages| :: !messages[j].System?
    ensures CurrentTools(transcript + messages)
            == (CurrentTools(transcript + messages[..i]) - messages[i].removed) + messages[i].added
  {
    var head := transcript + messages[..i + 1];
    assert transcript + messages == head + messages[i + 1..];
    QuietTail(head, messages[i + 1..]);
    assert head[..|head| - 1] == transcript + messages[..i];
  }

  /** A message without what it declares. */
  function Body(m: Message): Message { if m.System? then WithTools(m, {}, map[]) else m }

  function Bodies(ms: seq<Message>): seq<Message> { seq(|ms|, i requires 0 <= i < |ms| => Body(ms[i])) }

  /** Declaring keeps every message, in order; at most one update goes before them. */
  lemma DeclaringKeepsMessages(transcript: seq<Message>, tools: Tools, pending: seq<Message>)
    ensures var declared := Declare(transcript, tools, pending);
            Bodies(declared) == Bodies(pending) || (exists u: Message :: u.System? && declared == [u] + pending)
  {
    var i := LastSystem(pending);
    var declared := Declare(transcript, tools, pending);
    if i >= 0 {
      assert |declared| == |pending|;
      assert forall j | 0 <= j < |pending| :: Body(declared[j]) == Body(pending[j]);
    } else if declared != pending {
      assert declared == [declared[0]] + pending;
    }
  }
}
