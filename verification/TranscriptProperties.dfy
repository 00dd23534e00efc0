/** What the transcript keeps over any series of runs, and which runs break it. */
module TranscriptProperties {
  import opened Base
  import opened Transcript

  // ----- Well-formed transcripts -----

  predicate IsPrompt(m: Message) { m.role == User && |m.content| == 1 && m.content[0].Text? }

  /** The ids of the tool calls in a message, in order. */
  function UseIds(content: seq<Block>): seq<string> {
    if content == [] then []
    else UseIds(content[..|content| - 1])
          + (if content[|content| - 1].ToolUse? then [content[|content| - 1].id] else [])
  }

  /** The message holds the results for exactly these ids, in this order. */
  predicate Answers(m: Message, ids: seq<string>) {
    && m.role == User && |m.content| == |ids|
    && forall i :: 0 <= i < |ids| ==> m.content[i].ToolResult? && m.content[i].toolUseId == ids[i]
  }

  /** What may follow an assistant message: the results of its calls, or a prompt if it made none. */
  predicate Follows(assistant: Message, next: Message) {
    if UseIds(assistant.content) == [] then IsPrompt(next) else Answers(next, UseIds(assistant.content))
  }

  /** The transcript begins with a prompt, roles alternate, results follow the calls they answer. */
  predicate WellFormed(ms: seq<Message>) {
    && ms != [] && IsPrompt(ms[0])
    && (forall i :: 0 <= i < |ms| ==> ms[i].role == if i % 2 == 0 then User else Assistant)
    && (forall i :: 1 <= i && i + 1 < |ms| && i % 2 == 1 ==> Follows(ms[i], ms[i + 1]))
  }

  /** A transcript a new prompt may be added to. */
  predicate Closed(ms: seq<Message>) {
    ms == [] || (WellFormed(ms) && |ms| % 2 == 0 && UseIds(ms[|ms| - 1].content) == [])
  }

  /** A transcript the model may be called with. */
  predicate Open(ms: seq<Message>) { WellFormed(ms) && |ms| % 2 == 1 }

  // ----- Truncation -----

  lemma DropPair(ms: seq<Message>)
    requires Open(ms) && |ms| > MAX_CONTEXT_MESSAGES
    ensures Open(ms[..1] + ms[3..]) && (ms[..1] + ms[3..])[0] == ms[0]
  {
    hide IsPrompt, Follows;
    var r := ms[..1] + ms[3..];
    assert forall i :: 1 <= i < |r| ==> r[i] == ms[i + 2];
    forall i | 1 <= i && i + 1 < |r| && i % 2 == 1 ensures Follows(r[i], r[i + 1]) {
      assert Follows(ms[i + 2], ms[i + 2 + 1]);
    }
  }

  /** Truncation keeps the first message, the shape and the latest messages, and leaves at most the limit. */
  lemma {:induction false} TruncationKeepsShape(ms: seq<Message>)
    requires Open(ms)
    ensures var t := Truncated(ms);
      Open(t) && t[0] == ms[0] && |t| <= MAX_CONTEXT_MESSAGES
      && (|ms| <= MAX_CONTEXT_MESSAGES ==> t == ms)
      && t[1..] == ms[|ms| - |t| + 1..]
    decreases |ms|
  {
    hide WellFormed;
    if |ms| > MAX_CONTEXT_MESSAGES {
      DropPair(ms);
      var r := ms[..1] + ms[3..];
      OpenNonEmpty(r);
      TruncationKeepsShape(r);
    } else {
      OpenNonEmpty(ms);
    }
  }

  lemma OpenNonEmpty(ms: seq<Message>)
    requires WellFormed(ms)
    ensures ms != []
  {
  }

  // ----- One round -----

  lemma {:induction false} UseIdsAppend(a: seq<Block>, b: seq<Block>)
    ensures UseIds(a + b) == UseIds(a) + UseIds(b)
  {
    if b == [] {
      assert a + b == a;
    } else {
      UseIdsAppend(a, b[..|b| - 1]);
      assert (a + b)[..|a + b| - 1] == a + b[..|b| - 1];
    }
  }

  lemma {:induction false} UseIdsOfUses(calls: seq<Call>)
    ensures |UseIds(UsesOf(calls))| == |calls|
    ensures forall i :: 0 <= i < |calls| ==> UseIds(UsesOf(calls))[i] == calls[i].id
  {
    if calls != [] {
      UseIdsOfUses(calls[..|calls| - 1]);
      assert UsesOf(calls)[..|calls| - 1] == UsesOf(calls[..|calls| - 1]);
    }
  }

  lemma AssistantIds(texts: seq<string>, calls: seq<Call>)
    ensures UseIds(AssistantMessage(texts, calls).content) == UseIds(UsesOf(calls))
    ensures AssistantMessage(texts, calls).role == Assistant
  {
    hide Join;
    var head := if texts == [] then [] else [Text(Join(texts))];
    assert head[..0] == [];
    assert UseIds(head) == [];
    UseIdsAppend(head, UsesOf(calls));
  }

  lemma AddAssistant(view: seq<Message>, m: Message)
    requires Open(view) && m.role == Assistant
    ensures WellFormed(view + [m]) && (view + [m])[0] == view[0]
    ensures UseIds(m.content) == [] ==> Closed(view + [m])
  {
    hide IsPrompt, Follows, UseIds;
    var r := view + [m];
    forall i | 1 <= i && i + 1 < |r| && i % 2 == 1 ensures Follows(r[i], r[i + 1]) {
      assert Follows(view[i], view[i + 1]);
    }
  }

  lemma AddUser(ms: seq<Message>, m: Message)
    requires WellFormed(ms) && |ms| % 2 == 0 && m.role == User && Follows(ms[|ms| - 1], m)
    ensures Open(ms + [m]) && (ms + [m])[0] == ms[0]
  {
    hide IsPrompt, Follows;
    var r := ms + [m];
    forall i | 1 <= i && i + 1 < |r| && i % 2 == 1 ensures Follows(r[i], r[i + 1]) {
      if i + 1 < |ms| {
        assert Follows(ms[i], ms[i + 1]);
      }
    }
  }

  /** A round with calls leaves a transcript the model may be called with again. */
  lemma RoundKeepsShape(view: seq<Message>, texts: seq<string>, calls: seq<Call>, outcome: nat -> ToolOutcome)
    requires Open(view)
    ensures var replied := view + [AssistantMessage(texts, calls)];
      && WellFormed(replied) && replied[0] == view[0]
      && (calls == [] ==> Closed(replied))
      && (calls != [] ==> Open(replied + [ResultsMessage(calls, outcome)]))
  {
    hide WellFormed, AssistantMessage;
    var m := AssistantMessage(texts, calls);
    AssistantIds(texts, calls);
    UseIdsOfUses(calls);
    OpenNonEmpty(view);
    AddAssistant(view, m);
    if calls != [] {
      AddUser(view + [m], ResultsMessage(calls, outcome));
    }
  }

  // ----- One run -----

  /** Every transcript the model saw was well-formed, ended with the user, kept the first message and was short. */
  ghost predicate SawGoodTranscripts(seen: seq<seq<Message>>, first: Message) {
    forall i :: 0 <= i < |seen| ==> Open(seen[i]) && seen[i][0] == first && |seen[i]| <= MAX_CONTEXT_MESSAGES
  }

  lemma {:induction false} LoopKeepsShape(ms: seq<Message>, script: seq<Turn>, i: nat)
    requires Open(ms) && i <= |script|
    ensures var r := Loop(ms, script, i);
      && WellFormed(r.messages) && r.messages[0] == ms[0]
      && SawGoodTranscripts(r.seen, ms[0])
      && (if r.end.Replied? then Closed(r.messages) else Open(r.messages))
    decreases |script| - i
  {
    hide WellFormed, Truncated, HasError, Texts, Calls, Join, AssistantMessage, ResultsMessage;
    OpenNonEmpty(ms);
    if i < |script| {
      var view, turn := Truncated(ms), script[i];
      TruncationKeepsShape(ms);
      OpenNonEmpty(view);
      if turn.reply.Some? && !HasError(turn.reply.value) {
        var texts, calls := Texts(turn.reply.value), Calls(turn.reply.value);
        RoundKeepsShape(view, texts, calls, turn.outcome);
        if calls != [] {
          var replied := view + [AssistantMessage(texts, calls)];
          LoopKeepsShape(replied + [ResultsMessage(calls, turn.outcome)], script, i + 1);
        }
      }
    }
  }

  /** From a closed transcript, a run shows the model only well-formed transcripts of at most 100 messages, and leaves
      a closed one exactly if it ended in a reply. */
  lemma RunKeepsShape(ms: seq<Message>, prompt: string, script: seq<Turn>)
    requires Closed(ms)
    ensures var r := Run(ms, prompt, script);
      var first := if ms == [] then Prompt(prompt) else ms[0];
      && WellFormed(r.messages) && r.messages[0] == first
      && SawGoodTranscripts(r.seen, first)
      && (Closed(r.messages) <==> r.end.Replied?)
      && (Open(r.messages) <==> !r.end.Replied?)
  {
    LoopKeepsShape(ms + [Prompt(prompt)], script, 0);
    hide WellFormed, Loop;
    OpenNonEmpty(Run(ms, prompt, script).messages);
  }

  // ----- Any series of runs -----

  datatype Request = Request(prompt: string, script: seq<Turn>)

  /** One run after another on the same transcript. */
  function Series(ms: seq<Message>, requests: seq<Request>): seq<Outcome> {
    if requests == [] then []
    else
      var before := Series(ms, requests[..|requests| - 1]);
      var last := requests[|requests| - 1];
      before + [Run(if before == [] then ms else before[|before| - 1].messages, last.prompt, last.script)]
  }

  lemma {:induction false} SeriesLength(ms: seq<Message>, requests: seq<Request>)
    ensures |Series(ms, requests)| == |requests|
  {
    if requests != [] {
      SeriesLength(ms, requests[..|requests| - 1]);
    }
  }

  /** While each run but the last ends in a reply: every model call of the series sees a well-formed transcript of at
      most 100 messages that begins with the very first prompt. */
  lemma {:induction false} SeriesKeepsShape(requests: seq<Request>)
    requires requests != []
    requires forall k :: 0 <= k < |requests| - 1 ==>
          |Series([], requests)| == |requests| && Series([], requests)[k].end.Replied?
    ensures var rs := Series([], requests); var first := Prompt(requests[0].prompt);
      |rs| == |requests| && forall k :: 0 <= k < |rs| ==>
        && rs[k].messages != [] && rs[k].messages[0] == first && WellFormed(rs[k].messages)
        && SawGoodTranscripts(rs[k].seen, first)
        && (Closed(rs[k].messages) <==> rs[k].end.Replied?)
    decreases |requests|
  {
    SeriesLength([], requests);
    var front, last := requests[..|requests| - 1], requests[|requests| - 1];
    SeriesLength([], front);
    var before := Series([], front);
    hide WellFormed, Loop;
    if front == [] {
      RunKeepsShape([], last.prompt, last.script);
      OpenNonEmpty(Run([], last.prompt, last.script).messages);
    } else {
      assert forall k :: 0 <= k < |front| ==> Series([], requests)[k] == before[k];
      SeriesKeepsShape(front);
      var ms := before[|before| - 1].messages;
      RunKeepsShape(ms, last.prompt, last.script);
      OpenNonEmpty(Run(ms, last.prompt, last.script).messages);
    }
  }

  // ----- Runs that do not end in a reply -----

  lemma {:induction false} TruncationKeepsTail(ms: seq<Message>)
    requires |ms| >= 2
    ensures var t := Truncated(ms);
      |t| >= 2 && t[|t| - 1] == ms[|ms| - 1] && t[|t| - 2] == ms[|ms| - 2]
    decreases |ms|
  {
    if |ms| > MAX_CONTEXT_MESSAGES {
      TruncationKeepsTail(ms[..1] + ms[3..]);
    }
  }

  /** The model's first call in the next run sees a well-formed transcript exactly if the last run closed its own:
      otherwise two user messages stand side by side. */
  lemma NextRunNeedsReply(ms: seq<Message>, prompt: string, script: seq<Turn>)
    requires ms == [] || (WellFormed(ms) && (Closed(ms) || Open(ms)))
    requires script != []
    ensures var seen := Run(ms, prompt, script).seen;
      seen != [] && (Open(seen[0]) <==> Closed(ms))
  {
    var all := ms + [Prompt(prompt)];
    if Closed(ms) {
      RunKeepsShape(ms, prompt, script);
    } else {
      TruncationKeepsTail(all);
      var t := Truncated(all);
      assert ms[|ms| - 1].role == User;
      assert t[|t| - 2].role == User && t[|t| - 1].role == User;
    }
  }

  /** A failed call leaves the prompt behind, and the next run's model call sees two prompts in a row. */
  lemma FailedRunLeavesPrompt(first: string, second: string, turn: Turn)
    requires turn.reply.None?
    ensures var failed := Run([], first, [turn]);
      && failed.messages == [Prompt(first)] && Returned(failed.end).None?
      && Run(failed.messages, second, [turn]).seen == [[Prompt(first), Prompt(second)]]
      && !WellFormed([Prompt(first), Prompt(second)])
  {
    assert [] + [Prompt(first)] == [Prompt(first)];
    assert [Prompt(first)] + [Prompt(second)] == [Prompt(first), Prompt(second)];
    var two := [Prompt(first), Prompt(second)];
    assert two[1].role == User;
  }

  /** A reply without text closes the transcript, although the run reports an error. */
  lemma EmptyReplyIsReportedAsError(ms: seq<Message>, prompt: string, script: seq<Turn>)
    requires Closed(ms)
    ensures var r := Run(ms, prompt, script);
      Returned(r.end).None? && Closed(r.messages) <==> r.end == Replied("")
  {
    RunKeepsShape(ms, prompt, script);
  }
}
