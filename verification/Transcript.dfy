/** The agent's transcript: the tool loop that grows it and the truncation that keeps it short. */
module Transcript {
  import opened Base

  /** A JSON value. */
  datatype Json = Null | Bool(b: bool) | Number(digits: string) | String(s: string) | Array(items: seq<Json>)
                | Object(members: seq<(string, Json)>)

  datatype Role = User | Assistant

  datatype Block =
    | Text(text: string)
    | ToolUse(id: string, name: string, input: Json)
    | ToolResult(toolUseId: string, content: string, isError: Option<bool>)

  datatype Message = Message(role: Role, content: seq<Block>)

  datatype Event = TextEvent(text: string) | UseEvent(call: Call) | Stop | Error(error: string)

  datatype Call = Call(id: string, name: string, input: Json)

  /** What a tool yields: its output, or a failure whose text is reported as an error result. */
  datatype ToolOutcome = Output(content: string, isError: Option<bool>) | Failure(error: string)

  /** One round with the model: its reply, if the call succeeds, and what each tool it calls yields. */
  datatype Turn = Turn(reply: Option<seq<Event>>, outcome: nat -> ToolOutcome)

  const MAX_CONTEXT_MESSAGES := 100

  // ----- Truncation -----

  function Truncated(ms: seq<Message>): seq<Message>
    decreases |ms|
  {
    if |ms| > MAX_CONTEXT_MESSAGES then Truncated(ms[..1] + ms[Min(3, |ms|)..]) else ms
  }

  // ----- Reading a reply -----

  predicate HasError(events: seq<Event>) {
    exists i :: 0 <= i < |events| && events[i].Error?
  }

  function Texts(events: seq<Event>): seq<string> {
    if events == [] then []
    else Texts(events[..|events| - 1]) + (match events[|events| - 1] case TextEvent(t) => [t] case _ => [])
  }

  function Calls(events: seq<Event>): seq<Call> {
    if events == [] then []
    else Calls(events[..|events| - 1]) + (match events[|events| - 1] case UseEvent(c) => [c] case _ => [])
  }

  function Join(texts: seq<string>): string {
    if texts == [] then "" else Join(texts[..|texts| - 1]) + texts[|texts| - 1]
  }

  function UsesOf(calls: seq<Call>): (blocks: seq<Block>)
    ensures |blocks| == |calls|
    ensures forall i :: 0 <= i < |calls| ==> blocks[i] == ToolUse(calls[i].id, calls[i].name, calls[i].input)
  {
    seq(|calls|, i requires 0 <= i < |calls| => ToolUse(calls[i].id, calls[i].name, calls[i].input))
  }

  /** The assistant message of a reply: its text, if it has any text event, then its calls. */
  function AssistantMessage(texts: seq<string>, calls: seq<Call>): Message {
    Message(Assistant, (if texts == [] then [] else [Text(Join(texts))]) + UsesOf(calls))
  }

  function ResultOf(call: Call, outcome: ToolOutcome): Block {
    match outcome
    case Output(content, isError) => ToolResult(call.id, content, isError)
    case Failure(error) => ToolResult(call.id, "Error: " + error, Some(true))
  }

  function ResultsMessage(calls: seq<Call>, outcome: nat -> ToolOutcome): (m: Message)
    ensures m.role == User && |m.content| == |calls|
    ensures forall i :: 0 <= i < |calls| ==> m.content[i] == ResultOf(calls[i], outcome(i))
  {
    Message(User, seq(|calls|, i requires 0 <= i < |calls| => ResultOf(calls[i], outcome(i))))
  }

  function Prompt(text: string): Message { Message(User, [Text(text)]) }

  // ----- One run -----

  /** How a run ends: the model replied without calling a tool, a call failed or reported an error, or the limit on
      rounds was reached. */
  datatype End = Replied(text: string) | CallFailed | LlmError | Exhausted

  /** `seen` are the transcripts the model was called with. */
  datatype Outcome = Outcome(messages: seq<Message>, end: End, seen: seq<seq<Message>>)

  function After(seen: seq<Message>, rest: Outcome): Outcome {
    rest.(seen := [seen] + rest.seen)
  }

  /** The loop from its `i`-th round on. */
  function Loop(ms: seq<Message>, script: seq<Turn>, i: nat): Outcome
    requires i <= |script|
    decreases |script| - i
  {
    if i == |script| then Outcome(ms, Exhausted, [])
    else
      var view := Truncated(ms);
      var turn := script[i];
      if turn.reply.None? then Outcome(view, CallFailed, [view])
      else
        var events := turn.reply.value;
        if HasError(events) then Outcome(view, LlmError, [view])
        else
          var texts, calls := Texts(events), Calls(events);
          var replied := view + [AssistantMessage(texts, calls)];
          if calls == [] then Outcome(replied, Replied(Join(texts)), [view])
          else After(view, Loop(replied + [ResultsMessage(calls, turn.outcome)], script, i + 1))
  }

  /** A run of at most `|script|` rounds. */
  function Run(ms: seq<Message>, prompt: string, script: seq<Turn>): Outcome {
    Loop(ms + [Prompt(prompt)], script, 0)
  }

  /** The text returned; a reply without text is reported as if the limit had been reached. */
  function Returned(end: End): Option<string> {
    match end
    case Replied(text) => if text == "" then None else Some(text)
    case _ => None
  }

  class Agent {
    var messages: seq<Message>

    constructor ()
      ensures messages == []
    {
      messages := [];
    }

    method TruncateContext()
      modifies this
      ensures messages == Truncated(old(messages))
    {
      while |messages| > MAX_CONTEXT_MESSAGES
        invariant Truncated(messages) == Truncated(old(messages))
        decreases |messages|
      {
        var end := Min(3, |messages|);
        messages := messages[..1] + messages[end..];
      }
    }

    /** At most `|script|` rounds, one per turn. */
    method RunPrompt(prompt: string, script: seq<Turn>) returns (reply: Option<string>, ghost seen: seq<seq<Message>>)
      modifies this
      ensures var r := Run(old(messages), prompt, script);
        messages == r.messages && seen == r.seen && reply == Returned(r.end)
    {
      hide Truncated, AssistantMessage, ResultsMessage;
      messages := messages + [Prompt(prompt)];
      ghost var start := messages;
      seen := [];
      var finalText := "";
      var i := 0;
      while i < |script|
        invariant 0 <= i <= |script| && finalText == ""
        invariant Loop(start, script, 0) == Prepended(seen, Loop(messages, script, i))
      {
        ghost var before := messages;
        TruncateContext();
        LoopOnce(before, seen, script, i);
        seen := seen + [messages];
        if script[i].reply.None? {
          return None, seen;
        }
        var texts, calls, failed := ReadEvents(script[i].reply.value);
        if failed {
          return None, seen;
        }
        messages := messages + [AssistantMessage(texts, calls)];
        if calls == [] {
          finalText := Join(texts);
          break;
        }
        var results := ExecuteCalls(calls, script[i].outcome);
        messages := messages + [results];
        i := i + 1;
      }
      if finalText == "" {
        return None, seen;
      }
      return Some(finalText), seen;
    }
  }

  /** `seen` and then what `rest` saw. */
  ghost function Prepended(seen: seq<seq<Message>>, rest: Outcome): Outcome {
    rest.(seen := seen + rest.seen)
  }

  lemma LoopOnce(ms: seq<Message>, seen: seq<seq<Message>>, script: seq<Turn>, i: nat)
    requires i < |script|
    ensures var view, turn := Truncated(ms), script[i];
      Prepended(seen, Loop(ms, script, i)) ==
        if turn.reply.None? then Outcome(view, CallFailed, seen + [view])
        else if HasError(turn.reply.value) then Outcome(view, LlmError, seen + [view])
        else
          var texts, calls := Texts(turn.reply.value), Calls(turn.reply.value);
          var replied := view + [AssistantMessage(texts, calls)];
          if calls == [] then Outcome(replied, Replied(Join(texts)), seen + [view])
          else Prepended(seen + [view], Loop(replied + [ResultsMessage(calls, turn.outcome)], script, i + 1))
  {
    hide Truncated, AssistantMessage, ResultsMessage, HasError, Texts, Calls, Join;
    var view, turn := Truncated(ms), script[i];
    if turn.reply.Some? && !HasError(turn.reply.value) && Calls(turn.reply.value) != [] {
      var texts, calls := Texts(turn.reply.value), Calls(turn.reply.value);
      var rest := Loop(view + [AssistantMessage(texts, calls)] + [ResultsMessage(calls, turn.outcome)], script, i + 1);
      assert seen + ([view] + rest.seen) == (seen + [view]) + rest.seen;
    }
  }

  method ReadEvents(events: seq<Event>) returns (texts: seq<string>, calls: seq<Call>, failed: bool)
    ensures failed == HasError(events)
    ensures !failed ==> texts == Texts(events) && calls == Calls(events)
  {
    texts, calls, failed := [], [], false;
    for i := 0 to |events|
      invariant texts == Texts(events[..i]) && calls == Calls(events[..i])
      invariant forall k :: 0 <= k < i ==> !events[k].Error?
    {
      assert events[..i + 1][..i] == events[..i];
      match events[i]
      case TextEvent(t) => texts := texts + [t];
      case UseEvent(c) => calls := calls + [c];
      case Stop =>
      case Error(_) => failed := true; return;
    }
    assert events[..|events|] == events;
  }

  method ExecuteCalls(calls: seq<Call>, outcome: nat -> ToolOutcome) returns (m: Message)
    ensures m == ResultsMessage(calls, outcome)
  {
    var results: seq<Block> := [];
    for i := 0 to |calls|
      invariant |results| == i && forall k :: 0 <= k < i ==> results[k] == ResultOf(calls[k], outcome(k))
    {
      match outcome(i)
      case Output(content, isError) => results := results + [ToolResult(calls[i].id, content, isError)];
      case Failure(error) => results := results + [ToolResult(calls[i].id, "Error: " + error, Some(true))];
    }
    m := Message(User, results);
    assert m.content == ResultsMessage(calls, outcome).content;
  }
}
