/** What the Chat Completions translation carries over: every tool result, every text and every call, in order. */
module ChatContent {
  import opened Base
  import opened Transcript
  import opened TranscriptProperties
  import opened ChatTranslation

  // ----- What a message holds -----

  /** The tool results in a message, with the ids they answer. */
  function ResultsIn(content: seq<Block>): seq<(string, string)> {
    if content == [] then []
    else
      var b := content[|content| - 1];
      ResultsIn(content[..|content| - 1]) + (if b.ToolResult? then [(b.toolUseId, b.content)] else [])
  }

  function CallsIn(content: seq<Block>): seq<Call> {
    if content == [] then []
    else
      var b := content[|content| - 1];
      CallsIn(content[..|content| - 1]) + (if b.ToolUse? then [Call(b.id, b.name, b.input)] else [])
  }

  // ----- What is sent for it -----

  /** First the results, one tool message each, then all text as one user message. */
  ghost predicate CarriesUser(sent: seq<ChatMessage>, content: seq<Block>) {
    var results, texts := ResultsIn(content), TextBlocks(content);
    && |sent| == |results| + (if texts == [] then 0 else 1)
    && (forall i :: 0 <= i < |results| ==> sent[i] == Tool(results[i].0, results[i].1))
    && (texts != [] ==> sent[|results|] == UserText(Join(texts)))
  }

  /** Nothing for a message without text and calls; otherwise one message with all text, or none, and the calls. */
  ghost predicate CarriesAssistant(sent: seq<ChatMessage>, content: seq<Block>, codec: Codec) {
    var texts, calls := TextBlocks(content), CallsIn(content);
    if texts == [] && calls == [] then sent == []
    else
      && |sent| == 1 && sent[0].AssistantTurn?
      && var WireMessage(text, wires) := sent[0].message;
         && text == (if texts == [] then None else Some(Join(texts)))
         && |wires| == |calls|
         && forall i :: 0 <= i < |calls| ==>
              wires[i] == WireCall(Some(calls[i].id), Some(calls[i].name), Some(codec.print_(calls[i].input)))
  }

  ghost predicate CarriesMessage(sent: seq<ChatMessage>, m: Message, codec: Codec) {
    if m.role == User then CarriesUser(sent, m.content) else CarriesAssistant(sent, m.content, codec)
  }

  lemma {:induction false} ResultsAre(content: seq<Block>)
    ensures |ToolMessages(content)| == |ResultsIn(content)|
    ensures forall i :: 0 <= i < |ResultsIn(content)| ==>
          ToolMessages(content)[i] == Tool(ResultsIn(content)[i].0, ResultsIn(content)[i].1)
  {
    if content != [] {
      ResultsAre(content[..|content| - 1]);
    }
  }

  lemma {:induction false} CallsAre(content: seq<Block>, codec: Codec)
    ensures |WireCalls(content, codec)| == |CallsIn(content)|
    ensures forall i :: 0 <= i < |CallsIn(content)| ==> WireCalls(content, codec)[i] == Wire(CallsIn(content)[i], codec)
  {
    if content != [] {
      CallsAre(content[..|content| - 1], codec);
    }
  }

  lemma ChatCarries(m: Message, codec: Codec)
    ensures CarriesMessage(ChatOf(m, codec), m, codec)
  {
    ResultsAre(m.content);
    CallsAre(m.content, codec);
    hide TextBlocks, ToolMessages, ResultsIn, WireCalls, CallsIn, Join;
  }

  // ----- The whole transcript -----

  /** What is sent begins with the system text, and each message adds exactly what carries it, behind the rest. */
  lemma TranslationCarries(system: string, ms: seq<Message>, m: Message, codec: Codec)
    ensures ChatMessages(system, [], codec) == [System(system)]
    ensures var out, more := ChatMessages(system, ms, codec), ChatMessages(system, ms + [m], codec);
      out <= more && CarriesMessage(more[|out|..], m, codec)
  {
    ChatCarries(m, codec);
    hide ChatOf, CarriesMessage;
    assert (ms + [m])[..|ms|] == ms;
    var out, sent := ChatMessages(system, ms, codec), ChatOf(m, codec);
    Associative([System(system)], ChatOfAll(ms, codec), sent);
    assert (out + sent)[|out|..] == sent;
  }

  // ----- Tool results and prompts -----

  function AllResults(ms: seq<Message>): seq<(string, string)> {
    if ms == [] then []
    else AllResults(ms[..|ms| - 1]) + (if ms[|ms| - 1].role == User then ResultsIn(ms[|ms| - 1].content) else [])
  }

  /** Each user message's text, if it has any. */
  function AllPrompts(ms: seq<Message>): seq<string> {
    if ms == [] then []
    else
      var m := ms[|ms| - 1];
      var text := if m.role == User && TextBlocks(m.content) != [] then [Join(TextBlocks(m.content))] else [];
      AllPrompts(ms[..|ms| - 1]) + text
  }

  function ToolPairs(out: seq<ChatMessage>): seq<(string, string)> {
    if out == [] then []
    else
      var last := out[|out| - 1];
      ToolPairs(out[..|out| - 1]) + (if last.Tool? then [(last.toolCallId, last.result)] else [])
  }

  function UserTexts(out: seq<ChatMessage>): seq<string> {
    if out == [] then []
    else
      var last := out[|out| - 1];
      UserTexts(out[..|out| - 1]) + (if last.UserText? then [last.text] else [])
  }

  lemma {:induction false} ToolPairsAppend(a: seq<ChatMessage>, b: seq<ChatMessage>)
    ensures ToolPairs(a + b) == ToolPairs(a) + ToolPairs(b)
  {
    if b == [] {
      assert a + b == a;
    } else {
      ToolPairsAppend(a, b[..|b| - 1]);
      assert (a + b)[..|a + b| - 1] == a + b[..|b| - 1];
    }
  }

  lemma {:induction false} UserTextsAppend(a: seq<ChatMessage>, b: seq<ChatMessage>)
    ensures UserTexts(a + b) == UserTexts(a) + UserTexts(b)
  {
    if b == [] {
      assert a + b == a;
    } else {
      UserTextsAppend(a, b[..|b| - 1]);
      assert (a + b)[..|a + b| - 1] == a + b[..|b| - 1];
    }
  }

  lemma {:induction false} ToolsOnly(sent: seq<ChatMessage>, results: seq<(string, string)>)
    requires |sent| == |results| && forall i :: 0 <= i < |results| ==> sent[i] == Tool(results[i].0, results[i].1)
    ensures ToolPairs(sent) == results && UserTexts(sent) == []
  {
    if sent != [] {
      var n := |sent| - 1;
      ToolsOnly(sent[..n], results[..n]);
      assert results[..n] + [results[n]] == results;
    }
  }

  lemma NoToolsNoTexts(m: ChatMessage)
    ensures ToolPairs([m]) == (if m.Tool? then [(m.toolCallId, m.result)] else [])
    ensures UserTexts([m]) == (if m.UserText? then [m.text] else [])
  {
    assert [m][..0] == [];
  }

  lemma UserParts(sent: seq<ChatMessage>, content: seq<Block>)
    requires CarriesUser(sent, content)
    ensures ToolPairs(sent) == ResultsIn(content)
    ensures UserTexts(sent) == if TextBlocks(content) != [] then [Join(TextBlocks(content))] else []
  {
    hide ResultsIn, TextBlocks, Join;
    var n := |ResultsIn(content)|;
    var tools := sent[..n];
    ToolsOnly(tools, ResultsIn(content));
    if TextBlocks(content) == [] {
      assert tools == sent;
    } else {
      assert sent == tools + [sent[n]];
      hide CarriesUser, ToolPairs, UserTexts;
      WithText(tools, sent[n], Join(TextBlocks(content)));
    }
  }

  lemma WithText(tools: seq<ChatMessage>, last: ChatMessage, text: string)
    requires last == UserText(text) && UserTexts(tools) == []
    ensures ToolPairs(tools + [last]) == ToolPairs(tools) && UserTexts(tools + [last]) == [text]
  {
    NoToolsNoTexts(last);
    ToolPairsAppend(tools, [last]);
    UserTextsAppend(tools, [last]);
  }

  lemma CarriedParts(sent: seq<ChatMessage>, m: Message, codec: Codec)
    requires CarriesMessage(sent, m, codec)
    ensures ToolPairs(sent) == if m.role == User then ResultsIn(m.content) else []
    ensures UserTexts(sent)
         == if m.role == User && TextBlocks(m.content) != [] then [Join(TextBlocks(m.content))] else []
  {
    hide ResultsIn, TextBlocks, CallsIn, Join, CarriesUser, ToolPairs, UserTexts;
    if m.role == User {
      UserParts(sent, m.content);
    } else if sent != [] {
      NoToolsNoTexts(sent[0]);
      assert sent == [sent[0]];
    } else {
      NothingSent();
    }
  }

  lemma NothingSent()
    ensures ToolPairs([]) == [] && UserTexts([]) == []
  {
  }

  /** For every transcript: the tool messages sent are, in order, exactly the tool results of its user messages, each
      under its id and with its content; the user messages sent are exactly the texts of the user messages. */
  lemma {:induction false} ResultsAndPromptsAreSent(system: string, ms: seq<Message>, codec: Codec)
    ensures var out := ChatMessages(system, ms, codec);
      && out != [] && out[0] == System(system)
      && ToolPairs(out) == AllResults(ms) && UserTexts(out) == AllPrompts(ms)
  {
    hide ChatMessages, CarriesMessage, ResultsIn, TextBlocks, Join, ToolPairs, UserTexts;
    if ms == [] {
      NoToolsNoTexts(System(system));
      TranslationCarries(system, ms, Message(User, []), codec);
    } else {
      var front, m := ms[..|ms| - 1], ms[|ms| - 1];
      ResultsAndPromptsAreSent(system, front, codec);
      TranslationCarries(system, front, m, codec);
      assert front + [m] == ms;
      var out, all := ChatMessages(system, front, codec), ChatMessages(system, ms, codec);
      CarriedParts(all[|out|..], m, codec);
      ToolPairsAppend(out, all[|out|..]);
      UserTextsAppend(out, all[|out|..]);
      assert out + all[|out|..] == all;
    }
  }

  // ----- Reading a reply -----

  /** The call read from a wire call: what is left out is empty, and arguments that are left out or cannot be parsed are
      an empty object. */
  predicate ReadAs(call: Call, w: WireCall, codec: Codec) {
    && call.id == (match w.id case Some(id) => id case None => "")
    && call.name == (match w.name case Some(name) => name case None => "")
    && var parsed := codec.parse(match w.arguments case Some(text) => text case None => "{}");
       call.input == (match parsed case Some(json) => json case None => Object([]))
  }

  lemma CallIsRead(w: WireCall, codec: Codec)
    ensures ReadAs(ReadCall(w, codec), w, codec)
  {
  }

  /** The text unless missing or empty, the calls in order, and a stop unless the model stopped for tool calls. */
  ghost predicate EventsSay(events: seq<Event>, m: WireMessage, finish: Option<string>, codec: Codec) {
    var first := if m.content.Some? && m.content.value != "" then 1 else 0;
    var last := first + |m.toolCalls|;
    && |events| == last + (if finish == Some("tool_calls") then 0 else 1)
    && (first == 1 ==> events[0] == TextEvent(m.content.value))
    && (forall i :: first <= i < last ==> events[i].UseEvent? && ReadAs(events[i].call, m.toolCalls[i - first], codec))
    && (finish != Some("tool_calls") ==> events[last] == Stop)
  }

  lemma PartsSay(m: WireMessage, finish: Option<string>, codec: Codec)
    ensures EventsSay(TextPart(m.content) + CallEvents(m.toolCalls, codec) + StopPart(finish), m, finish, codec)
  {
    var text, calls, stop := TextPart(m.content), CallEvents(m.toolCalls, codec), StopPart(finish);
    hide CallEvents, ReadAs, ReadCall;
    var events := text + calls + stop;
    var first := |text|;
    forall i | first <= i < first + |calls|
      ensures events[i].UseEvent? && ReadAs(events[i].call, m.toolCalls[i - first], codec)
    {
      assert events[i] == calls[i - first];
      CallIsRead(m.toolCalls[i - first], codec);
    }
  }

  /** A reply's events are those of its first choice; without a choice or a message it is refused. */
  lemma ReplyIsRead(choices: seq<Choice>, codec: Codec)
    ensures var r := ReadReply(choices, codec);
      if choices == [] then r == NoChoices
      else if choices[0].message.None? then r == NoMessage
      else r.Events? && EventsSay(r.events, choices[0].message.value, choices[0].finishReason, codec)
  {
    if choices != [] && choices[0].message.Some? {
      PartsSay(choices[0].message.value, choices[0].finishReason, codec);
      hide EventsSay;
    }
  }
}
