/** The transcript as Chat Completions messages, and a Chat Completions reply as events. */
module ChatTranslation {
  import opened Base
  import opened Transcript
  import opened TranscriptProperties
  import opened TranscriptHistory

  /** How JSON values are written to and read from text. */
  datatype Codec = Codec(print_: Json -> string, parse: string -> Option<Json>) {
    ghost predicate Inverse() { forall j :: parse(print_(j)) == Some(j) }
  }

  /** A tool call on the wire. A field a reply leaves out is `None`. */
  datatype WireCall = WireCall(id: Option<string>, name: Option<string>, arguments: Option<string>)

  /** An assistant message on the wire; without calls it carries no `tool_calls`. */
  datatype WireMessage = WireMessage(content: Option<string>, toolCalls: seq<WireCall>)

  datatype ChatMessage =
    | System(system: string)
    | UserText(text: string)
    | Tool(toolCallId: string, result: string)
    | AssistantTurn(message: WireMessage)

  // ----- The transcript as chat messages -----

  function TextBlocks(content: seq<Block>): seq<string> {
    if content == [] then []
    else
      var b := content[|content| - 1];
      TextBlocks(content[..|content| - 1]) + (if b.Text? then [b.text] else [])
  }

  function ToolMessages(content: seq<Block>): seq<ChatMessage> {
    if content == [] then []
    else
      var b := content[|content| - 1];
      ToolMessages(content[..|content| - 1]) + (if b.ToolResult? then [Tool(b.toolUseId, b.content)] else [])
  }

  function WireCalls(content: seq<Block>, codec: Codec): seq<WireCall> {
    if content == [] then []
    else
      var b := content[|content| - 1];
      WireCalls(content[..|content| - 1], codec)
      + (if b.ToolUse? then [WireCall(Some(b.id), Some(b.name), Some(codec.print_(b.input)))] else [])
  }

  function Joined(texts: seq<string>): Option<string> { if texts == [] then None else Some(Join(texts)) }

  /** The chat messages of one message: tool results before text; nothing for an assistant message with neither text
      nor calls. */
  function ChatOf(m: Message, codec: Codec): seq<ChatMessage> {
    var text := Joined(TextBlocks(m.content));
    if m.role == User then ToolMessages(m.content) + (if text.Some? then [UserText(text.value)] else [])
    else
      var calls := WireCalls(m.content, codec);
      if text.None? && calls == [] then [] else [AssistantTurn(WireMessage(text, calls))]
  }

  function ChatOfAll(ms: seq<Message>, codec: Codec): seq<ChatMessage> {
    if ms == [] then [] else ChatOfAll(ms[..|ms| - 1], codec) + ChatOf(ms[|ms| - 1], codec)
  }

  function ChatMessages(system: string, ms: seq<Message>, codec: Codec): seq<ChatMessage> {
    [System(system)] + ChatOfAll(ms, codec)
  }

  method OpenAiChatMessages(system: string, ms: seq<Message>, codec: Codec) returns (out: seq<ChatMessage>)
    ensures out == ChatMessages(system, ms, codec)
  {
    hide ChatOf;
    out := [System(system)];
    for i := 0 to |ms|
      invariant out == [System(system)] + ChatOfAll(ms[..i], codec)
    {
      assert ms[..i + 1][..i] == ms[..i];
      ghost var done := ChatOfAll(ms[..i], codec);
      var translated: seq<ChatMessage>;
      if ms[i].role == User {
        translated := TranslateUser(ms[i], codec);
      } else {
        translated := TranslateAssistant(ms[i], codec);
      }
      assert ([System(system)] + done) + translated == [System(system)] + (done + translated);
      out := out + translated;
    }
    assert ms[..|ms|] == ms;
  }

  method TranslateUser(m: Message, ghost codec: Codec) returns (out: seq<ChatMessage>)
    requires m.role == User
    ensures out == ChatOf(m, codec)
  {
    out := [];
    var texts: seq<string> := [];
    for k := 0 to |m.content|
      invariant out == ToolMessages(m.content[..k]) && texts == TextBlocks(m.content[..k])
    {
      assert m.content[..k + 1][..k] == m.content[..k];
      match m.content[k]
      case ToolResult(id, content, _) => out := out + [Tool(id, content)];
      case Text(text) => texts := texts + [text];
      case _ =>
    }
    assert m.content[..|m.content|] == m.content;
    if texts != [] {
      out := out + [UserText(Join(texts))];
    }
  }

  method TranslateAssistant(m: Message, codec: Codec) returns (out: seq<ChatMessage>)
    requires m.role == Assistant
    ensures out == ChatOf(m, codec)
  {
    var texts: seq<string>, calls: seq<WireCall> := [], [];
    for k := 0 to |m.content|
      invariant texts == TextBlocks(m.content[..k]) && calls == WireCalls(m.content[..k], codec)
    {
      assert m.content[..k + 1][..k] == m.content[..k];
      match m.content[k]
      case Text(text) => texts := texts + [text];
      case ToolUse(id, name, input) => calls := calls + [WireCall(Some(id), Some(name), Some(codec.print_(input)))];
      case _ =>
    }
    assert m.content[..|m.content|] == m.content;
    if texts == [] && calls == [] {
      return [];
    }
    return [AssistantTurn(WireMessage(if texts == [] then None else Some(Join(texts)), calls))];
  }

  // ----- Tool messages directly follow their calls -----

  /** Messages `from`.. are the tool messages for these calls, one each, in order. */
  predicate AnsweredAt(out: seq<ChatMessage>, from: nat, calls: seq<WireCall>) {
    && from + |calls| <= |out|
    && forall p :: from <= p < from + |calls| ==> out[p].Tool? && calls[p - from].id == Some(out[p].toolCallId)
  }

  /** If the message at `j` carries calls, exactly its tool messages directly follow it. */
  predicate CallsAnswered(out: seq<ChatMessage>, j: nat)
    requires j < |out|
  {
    out[j].AssistantTurn? && out[j].message.toolCalls != [] ==>
      var n := |out[j].message.toolCalls|;
      AnsweredAt(out, j + 1, out[j].message.toolCalls) && (j + 1 + n < |out| ==> !out[j + 1 + n].Tool?)
  }

  /** The message at `j` is among the tool messages directly following the assistant message at `a`. */
  predicate AnswersCallOf(out: seq<ChatMessage>, j: nat, a: nat) {
    && a < j < |out| && out[a].AssistantTurn? && j <= a + |out[a].message.toolCalls|
    && AnsweredAt(out, a + 1, out[a].message.toolCalls)
  }

  /** Calls are directly followed by their tool messages, one each and in order, and there are no other tool
      messages. */
  ghost predicate Adjacent(out: seq<ChatMessage>) {
    && (forall j :: 0 <= j < |out| ==> CallsAnswered(out, j))
    && (forall j :: 0 <= j < |out| && out[j].Tool? ==> exists a: nat :: AnswersCallOf(out, j, a))
  }

  /** An assistant message's chat form, and the tool messages answering it. */
  lemma CallsAndResults(assistant: Message, next: Message, codec: Codec)
    requires assistant.role == Assistant && Follows(assistant, next)
    ensures var calls := WireCalls(assistant.content, codec);
      && (calls == [] ==> |ChatOf(next, codec)| == 1 && ChatOf(next, codec)[0].UserText?)
      && (calls != [] ==> |ChatOf(assistant, codec)| == 1
                          && |ChatOf(next, codec)| == |calls| && AnsweredAt(ChatOf(next, codec), 0, calls))
  {
    WireCallIds(assistant.content, codec);
    if WireCalls(assistant.content, codec) == [] {
      PromptAsChat(next, codec);
    } else {
      ResultsAsChat(next.content, UseIds(assistant.content));
      assert ToolMessages(next.content) + [] == ToolMessages(next.content);
    }
  }

  lemma {:induction false} WireCallIds(content: seq<Block>, codec: Codec)
    ensures |WireCalls(content, codec)| == |UseIds(content)|
    ensures forall k :: 0 <= k < |UseIds(content)| ==> WireCalls(content, codec)[k].id == Some(UseIds(content)[k])
  {
    if content != [] {
      WireCallIds(content[..|content| - 1], codec);
    }
  }

  lemma PromptAsChat(m: Message, codec: Codec)
    requires IsPrompt(m)
    ensures ChatOf(m, codec) == [UserText(m.content[0].text)]
  {
    var b := m.content[0];
    assert m.content == [b] && m.content[..0] == [];
    assert TextBlocks(m.content) == [b.text] && ToolMessages(m.content) == [];
    assert [b.text][..0] == [];
    assert Join([b.text]) == "" + b.text == b.text;
  }

  lemma {:induction false} ResultsAsChat(content: seq<Block>, ids: seq<string>)
    requires |content| == |ids|
    requires forall i :: 0 <= i < |ids| ==> content[i].ToolResult? && content[i].toolUseId == ids[i]
    ensures |ToolMessages(content)| == |ids| && TextBlocks(content) == []
    ensures forall k :: 0 <= k < |ids| ==>
          ToolMessages(content)[k].Tool? && ToolMessages(content)[k].toolCallId == ids[k]
  {
    if content != [] {
      ResultsAsChat(content[..|content| - 1], ids[..|ids| - 1]);
    }
  }

  /** Messages added after `out` do not disturb what is paired in it, unless they begin with a tool message. */
  lemma PairedInFront(out: seq<ChatMessage>, more: seq<ChatMessage>)
    requires Adjacent(out) && (more != [] ==> !more[0].Tool?)
    ensures forall j :: 0 <= j < |out| ==> CallsAnswered(out + more, j)
    ensures forall j :: 0 <= j < |out| && out[j].Tool? ==> exists a: nat :: AnswersCallOf(out + more, j, a)
  {
    var r := out + more;
    forall j | 0 <= j < |out| ensures CallsAnswered(r, j) {
      assert CallsAnswered(out, j) && r[j] == out[j];
      if r[j].AssistantTurn? && r[j].message.toolCalls != [] {
        var n := j + 1 + |r[j].message.toolCalls|;
        assert n < |r| ==> r[n] == if n < |out| then out[n] else more[0];
      }
    }
    forall j | 0 <= j < |out| && out[j].Tool? ensures exists a: nat :: AnswersCallOf(r, j, a) {
      var a: nat :| AnswersCallOf(out, j, a);
      assert r[a] == out[a];
      assert AnswersCallOf(r, j, a);
    }
  }

  predicate IsExchange(turn: seq<ChatMessage>, next: seq<ChatMessage>) {
    && |turn| <= 1 && (turn != [] ==> turn[0].AssistantTurn?)
    && if turn != [] && turn[0].message.toolCalls != []
       then |next| == |turn[0].message.toolCalls| && AnsweredAt(next, 0, turn[0].message.toolCalls)
       else |next| == 1 && next[0].UserText?
  }

  lemma PairedAtEnd(out: seq<ChatMessage>, turn: seq<ChatMessage>, next: seq<ChatMessage>, j: nat)
    requires IsExchange(turn, next) && |out| <= j < |out + (turn + next)|
    ensures var r := out + (turn + next);
      CallsAnswered(r, j) && (r[j].Tool? ==> exists a: nat :: AnswersCallOf(r, j, a))
  {
    var r, a := out + (turn + next), |out|;
    if turn != [] && turn[0].message.toolCalls != [] {
      assert turn == [turn[0]] && r[a] == turn[0];
      if j > a {
        assert r[j].Tool?;
        assert AnswersCallOf(r, j, a);
      }
    } else {
      assert r[j] == if turn == [] then next[0] else if j == a then turn[0] else next[0];
    }
  }

  /** Appending an assistant message with what follows it keeps everything paired. */
  lemma AppendExchange(out: seq<ChatMessage>, turn: seq<ChatMessage>, next: seq<ChatMessage>)
    requires Adjacent(out) && IsExchange(turn, next)
    ensures Adjacent(out + (turn + next))
  {
    PairedInFront(out, turn + next);
    hide CallsAnswered, AnswersCallOf, IsExchange;
    var r := out + (turn + next);
    forall j | 0 <= j < |r|
      ensures CallsAnswered(r, j)
      ensures r[j].Tool? ==> exists a: nat :: AnswersCallOf(r, j, a)
    {
      if j >= |out| {
        PairedAtEnd(out, turn, next, j);
      }
    }
  }

  lemma ShorterIsOpen(ms: seq<Message>)
    requires Open(ms) && |ms| >= 3
    ensures Open(ms[..|ms| - 2])
    ensures Follows(ms[|ms| - 2], ms[|ms| - 1]) && ms[|ms| - 2].role == Assistant
  {
    hide Follows, IsPrompt;
    var front := ms[..|ms| - 2];
    forall i | 1 <= i && i + 1 < |front| && i % 2 == 1 ensures Follows(front[i], front[i + 1]) {
      assert Follows(ms[i], ms[i + 1]);
    }
    var n := |ms| - 2;
    assert Follows(ms[n], ms[n + 1]);
  }

  lemma TwoMore(system: string, ms: seq<Message>, codec: Codec)
    requires |ms| >= 2
    ensures ChatMessages(system, ms, codec)
         == ChatMessages(system, ms[..|ms| - 2], codec) + (ChatOf(ms[|ms| - 2], codec) + ChatOf(ms[|ms| - 1], codec))
  {
    hide ChatOf;
    assert ms[..|ms| - 1][..|ms| - 2] == ms[..|ms| - 2];
    var front, a, b := ChatOfAll(ms[..|ms| - 2], codec), ChatOf(ms[|ms| - 2], codec), ChatOf(ms[|ms| - 1], codec);
    assert ms[..|ms| - 1][|ms| - 2] == ms[|ms| - 2];
    assert ChatOfAll(ms[..|ms| - 1], codec) == front + a;
    assert [System(system)] + (front + a + b) == ([System(system)] + front) + (a + b);
  }

  lemma FirstMessage(ms: seq<Message>, system: string, codec: Codec)
    requires Open(ms) && |ms| == 1
    ensures Adjacent(ChatMessages(system, ms, codec))
  {
    PromptAsChat(ms[0], codec);
    hide ChatOf, IsPrompt;
    assert ChatOfAll(ms[..0], codec) == [];
    assert ChatOfAll(ms, codec) == ChatOf(ms[0], codec);
    assert ChatMessages(system, ms, codec) == [System(system), UserText(ms[0].content[0].text)];
  }

  /** For every transcript the model is called with: each assistant message with calls is directly followed by one
      tool message per call, in order, before anything else, and no other tool message is sent. */
  lemma {:induction false} ToolMessagesFollowCalls(system: string, ms: seq<Message>, codec: Codec)
    requires Open(ms)
    ensures Adjacent(ChatMessages(system, ms, codec))
    decreases |ms|
  {
    hide *;
    OneOrThree(ms);
    if |ms| == 1 {
      FirstMessage(ms, system, codec);
    } else {
      ShorterIsOpen(ms);
      var front, assistant, next := ms[..|ms| - 2], ms[|ms| - 2], ms[|ms| - 1];
      ToolMessagesFollowCalls(system, front, codec);
      ExchangeShape(assistant, next, codec);
      AppendExchange(ChatMessages(system, front, codec), ChatOf(assistant, codec), ChatOf(next, codec));
      TwoMore(system, ms, codec);
    }
  }

  lemma ExchangeShape(assistant: Message, next: Message, codec: Codec)
    requires assistant.role == Assistant && Follows(assistant, next)
    ensures IsExchange(ChatOf(assistant, codec), ChatOf(next, codec))
  {
    CallsAndResults(assistant, next, codec);
    hide ChatOf, Follows, WireCalls, AnsweredAt;
  }

  lemma OneOrThree(ms: seq<Message>)
    requires Open(ms)
    ensures |ms| == 1 || |ms| >= 3
  {
  }

  // ----- Reading a reply -----

  datatype Choice = Choice(message: Option<WireMessage>, finishReason: Option<string>)

  datatype ParseResult = Events(events: seq<Event>) | NoChoices | NoMessage

  const EMPTY_OBJECT := Object([])

  function OrElse<T>(o: Option<T>, default: T): T { if o.Some? then o.value else default }

  function ReadCall(w: WireCall, codec: Codec): Call {
    Call(OrElse(w.id, ""), OrElse(w.name, ""), OrElse(codec.parse(OrElse(w.arguments, "{}")), EMPTY_OBJECT))
  }

  function CallEvents(calls: seq<WireCall>, codec: Codec): (events: seq<Event>)
    ensures |events| == |calls| && forall i :: 0 <= i < |calls| ==> events[i] == UseEvent(ReadCall(calls[i], codec))
  {
    seq(|calls|, i requires 0 <= i < |calls| => UseEvent(ReadCall(calls[i], codec)))
  }

  function TextPart(content: Option<string>): seq<Event> {
    if content.Some? && content.value != "" then [TextEvent(content.value)] else []
  }

  function StopPart(finishReason: Option<string>): seq<Event> {
    if OrElse(finishReason, "stop") != "tool_calls" then [Stop] else []
  }

  /** The events of the first choice: its text unless empty, its calls, and a stop unless it stopped for the calls. */
  function ReadReply(choices: seq<Choice>, codec: Codec): ParseResult {
    if choices == [] then NoChoices
    else match choices[0].message
         case None => NoMessage
         case Some(WireMessage(content, calls)) =>
           Events(TextPart(content) + CallEvents(calls, codec) + StopPart(choices[0].finishReason))
  }

  method ParseOpenAiResponse(choices: seq<Choice>, codec: Codec) returns (r: ParseResult)
    ensures r == ReadReply(choices, codec)
  {
    if choices == [] {
      return NoChoices;
    }
    if choices[0].message.None? {
      return NoMessage;
    }
    var events: seq<Event> := [];
    var message := choices[0].message.value;
    if message.content.Some? && message.content.value != "" {
      events := events + [TextEvent(message.content.value)];
    }
    ghost var text := events;
    for i := 0 to |message.toolCalls|
      invariant events == text + CallEvents(message.toolCalls, codec)[..i]
    {
      var tc := message.toolCalls[i];
      var input := codec.parse(OrElse(tc.arguments, "{}"));
      events := events + [UseEvent(Call(OrElse(tc.id, ""), OrElse(tc.name, ""), OrElse(input, EMPTY_OBJECT)))];
    }
    if OrElse(choices[0].finishReason, "stop") != "tool_calls" {
      events := events + [Stop];
    }
    return Events(events);
  }

  // ----- Writing and re-reading an assistant turn -----

  lemma {:induction false} PartsAppend(a: seq<Block>, b: seq<Block>, codec: Codec)
    ensures TextBlocks(a + b) == TextBlocks(a) + TextBlocks(b)
    ensures WireCalls(a + b, codec) == WireCalls(a, codec) + WireCalls(b, codec)
  {
    if b == [] {
      assert a + b == a;
    } else {
      PartsAppend(a, b[..|b| - 1], codec);
      assert (a + b)[..|a + b| - 1] == a + b[..|b| - 1];
    }
  }

  function Wire(call: Call, codec: Codec): WireCall {
    WireCall(Some(call.id), Some(call.name), Some(codec.print_(call.input)))
  }

  lemma {:induction false} UsesAsWire(calls: seq<Call>, codec: Codec)
    ensures TextBlocks(UsesOf(calls)) == []
    ensures |WireCalls(UsesOf(calls), codec)| == |calls|
    ensures forall i :: 0 <= i < |calls| ==> WireCalls(UsesOf(calls), codec)[i] == Wire(calls[i], codec)
  {
    if calls != [] {
      UsesAsWire(calls[..|calls| - 1], codec);
      assert UsesOf(calls)[..|calls| - 1] == UsesOf(calls[..|calls| - 1]);
    }
  }

  lemma {:induction false} CallsReread(wires: seq<WireCall>, calls: seq<Call>, codec: Codec)
    requires codec.Inverse() && |wires| == |calls|
    requires forall i :: 0 <= i < |calls| ==> wires[i] == Wire(calls[i], codec)
    ensures Texts(CallEvents(wires, codec)) == [] && Calls(CallEvents(wires, codec)) == calls
  {
    if wires != [] {
      var n := |wires| - 1;
      CallsReread(wires[..n], calls[..n], codec);
      assert CallEvents(wires, codec)[..n] == CallEvents(wires[..n], codec);
      assert ReadCall(wires[n], codec) == calls[n];
    }
  }

  /** An assistant message as it is sent: its text if it has any text event, and its calls. */
  lemma SentForm(texts: seq<string>, calls: seq<Call>, codec: Codec)
    ensures var content := AssistantMessage(texts, calls).content;
      && TextBlocks(content) == (if texts == [] then [] else [Join(texts)])
      && WireCalls(content, codec) == WireCalls(UsesOf(calls), codec)
  {
    hide Join;
    var head := if texts == [] then [] else [Text(Join(texts))];
    assert head[..0] == [];
    PartsAppend(head, UsesOf(calls), codec);
    UsesAsWire(calls, codec);
  }

  /** Sends an assistant message and reads it back as a reply with this finish reason. */
  function Reread(m: Message, finish: Option<string>, codec: Codec): Option<Message>
    requires m.role == Assistant
  {
    var sent := ChatOf(m, codec);
    if sent == [] then None
    else match ReadReply([Choice(Some(sent[0].message), finish)], codec)
         case Events(events) => Some(AssistantMessage(Texts(events), Calls(events)))
         case _ => None
  }

  lemma EventsOfReply(content: Option<string>, wires: seq<WireCall>, calls: seq<Call>, finish: Option<string>,
                      codec: Codec)
    requires codec.Inverse() && |wires| == |calls|
    requires forall i :: 0 <= i < |calls| ==> wires[i] == Wire(calls[i], codec)
    ensures var r := ReadReply([Choice(Some(WireMessage(content, wires)), finish)], codec);
      && r.Events?
      && Texts(r.events) == (if content.Some? && content.value != "" then [content.value] else [])
      && Calls(r.events) == calls
  {
    hide *;
    CallsReread(wires, calls, codec);
    var head, tail := TextPart(content), StopPart(finish);
    ReplyParts(content, wires, finish, codec);
    ThreeParts(head, CallEvents(wires, codec), tail);
    FewEvents(content, finish);
  }

  lemma ReplyParts(content: Option<string>, wires: seq<WireCall>, finish: Option<string>, codec: Codec)
    ensures ReadReply([Choice(Some(WireMessage(content, wires)), finish)], codec)
         == Events(TextPart(content) + CallEvents(wires, codec) + StopPart(finish))
  {
  }

  lemma ThreeParts(a: seq<Event>, b: seq<Event>, c: seq<Event>)
    ensures Texts(a + b + c) == Texts(a) + Texts(b) + Texts(c)
    ensures Calls(a + b + c) == Calls(a) + Calls(b) + Calls(c)
  {
    TextsAppend(a, b);
    TextsAppend(a + b, c);
    CallsAppend(a, b);
    CallsAppend(a + b, c);
    hide Texts, Calls;
  }

  lemma FewEvents(content: Option<string>, finish: Option<string>)
    ensures Texts(TextPart(content)) == if content.Some? && content.value != "" then [content.value] else []
    ensures Calls(TextPart(content)) == []
    ensures Texts(StopPart(finish)) == [] && Calls(StopPart(finish)) == []
  {
    assert TextPart(content) != [] ==> TextPart(content)[..0] == [];
    assert StopPart(finish) != [] ==> StopPart(finish)[..0] == [];
  }

  /** An assistant turn re-read is the same turn exactly if its text, when it has any, is not empty, and it is not
      wholly empty. */
  lemma TurnRoundTrip(texts: seq<string>, calls: seq<Call>, finish: Option<string>, codec: Codec)
    requires codec.Inverse()
    ensures var m := AssistantMessage(texts, calls);
      Reread(m, finish, codec) == Some(m) <==> (if texts == [] then calls != [] else Join(texts) != "")
  {
    var m := AssistantMessage(texts, calls);
    SentForm(texts, calls, codec);
    UsesAsWire(calls, codec);
    var wires := WireCalls(UsesOf(calls), codec);
    hide Join, WireCalls, TextBlocks, UsesOf, ReadReply, Wire, Codec.Inverse;
    if texts == [] {
      EventsOfReply(None, wires, calls, finish, codec);
    } else {
      JoinConcatenates([], []);
      EventsOfReply(Some(Join(texts)), wires, calls, finish, codec);
      assert |m.content| == |calls| + 1 && |AssistantMessage([], calls).content| == |calls|;
      assert AssistantMessage([Join(texts)], calls) == m;
    }
  }
}
