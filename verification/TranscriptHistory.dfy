/** What each model call of a run saw: the first message and the latest messages of the whole conversation, never more
    dropped than the limit asks for. */
module TranscriptHistory {
  import opened Base
  import opened Transcript

  // ----- How much truncation keeps -----

  /** Truncation drops the fewest pairs that reach the limit, from behind the first message: it leaves 100 messages or
      99, whichever has the parity of the whole. */
  lemma {:induction false} TruncationKeepsMost(ms: seq<Message>)
    ensures var t := Truncated(ms);
      if |ms| <= 100 then t == ms
      else 99 <= |t| <= 100 && |t| % 2 == |ms| % 2
           && t == ms[..1] + ms[|ms| - |t| + 1..]
    decreases |ms|
  {
    if |ms| > MAX_CONTEXT_MESSAGES {
      var r := ms[..1] + ms[3..];
      TruncationKeepsMost(r);
      assert r[..1] == ms[..1];
      var t := Truncated(ms);
      assert |ms| - |t| + 1 >= 3 ==> r[|r| - |t| + 1..] == ms[|ms| - |t| + 1..];
    }
  }

  /** Truncating early makes no difference to what is kept later. */
  lemma {:induction false} TruncatedAgain(a: seq<Message>, b: seq<Message>)
    ensures Truncated(Truncated(a) + b) == Truncated(a + b)
    decreases |a|
  {
    if |a| > MAX_CONTEXT_MESSAGES {
      var r := a[..1] + a[3..];
      TruncatedAgain(r, b);
      assert (a + b)[..1] + (a + b)[3..] == r + b;
    }
  }

  // ----- What a reply says -----

  lemma {:induction false} TextsAppend(a: seq<Event>, b: seq<Event>)
    ensures Texts(a + b) == Texts(a) + Texts(b)
  {
    if b == [] {
      assert a + b == a;
    } else {
      TextsAppend(a, b[..|b| - 1]);
      assert (a + b)[..|a + b| - 1] == a + b[..|b| - 1];
    }
  }

  lemma {:induction false} CallsAppend(a: seq<Event>, b: seq<Event>)
    ensures Calls(a + b) == Calls(a) + Calls(b)
  {
    if b == [] {
      assert a + b == a;
    } else {
      CallsAppend(a, b[..|b| - 1]);
      assert (a + b)[..|a + b| - 1] == a + b[..|b| - 1];
    }
  }

  lemma OneEvent(e: Event)
    ensures Texts([]) == [] && Texts([e]) == if e.TextEvent? then [e.text] else []
    ensures Calls([]) == [] && Calls([e]) == if e.UseEvent? then [e.call] else []
  {
    assert [e][..0] == [];
  }

  /** Texts and calls are read in the order of the events, each once. */
  lemma EventsInOrder(before: seq<Event>, e: Event, after: seq<Event>)
    ensures Texts([]) == [] && Calls([]) == []
    ensures Texts(before + [e] + after) == Texts(before) + (if e.TextEvent? then [e.text] else []) + Texts(after)
    ensures Calls(before + [e] + after) == Calls(before) + (if e.UseEvent? then [e.call] else []) + Calls(after)
  {
    OneEvent(e);
    TextsAppend(before, [e]);
    TextsAppend(before + [e], after);
    CallsAppend(before, [e]);
    CallsAppend(before + [e], after);
    hide Texts, Calls;
  }

  lemma {:induction false} CallsExist(events: seq<Event>)
    ensures Calls(events) != [] <==> exists i :: 0 <= i < |events| && events[i].UseEvent?
  {
    if events != [] {
      var front := events[..|events| - 1];
      CallsExist(front);
      if i :| 0 <= i < |events| && events[i].UseEvent? {
        assert i < |front| ==> front[i].UseEvent?;
      }
    }
  }

  /** The concatenation of texts. */
  lemma {:induction false} JoinConcatenates(a: seq<string>, b: seq<string>)
    ensures Join(a + b) == Join(a) + Join(b)
    ensures Join([]) == "" && forall t :: Join([t]) == t
  {
    forall t ensures Join([t]) == t {
      assert [t][..0] == [];
      assert "" + t == t;
    }
    if b == [] {
      assert a + b == a;
    } else {
      JoinConcatenates(a, b[..|b| - 1]);
      assert (a + b)[..|a + b| - 1] == a + b[..|b| - 1];
    }
  }

  /** The message says what the events do: one block with all text, if there is any, and then a block per call. */
  predicate Says(m: Message, texts: seq<string>, calls: seq<Call>) {
    var first := if texts == [] then 0 else 1;
    && m.role == Assistant && |m.content| == first + |calls|
    && (texts != [] ==> m.content[0] == Text(Join(texts)))
    && forall i :: 0 <= i < |calls| ==> m.content[first + i] == ToolUse(calls[i].id, calls[i].name, calls[i].input)
  }

  /** The message reports what each call yielded: its output with its flag, or the error marked as one. */
  predicate Reports(m: Message, calls: seq<Call>, outcome: nat -> ToolOutcome) {
    && m.role == User && |m.content| == |calls|
    && forall i :: 0 <= i < |calls| ==>
         && m.content[i].ToolResult? && m.content[i].toolUseId == calls[i].id
         && match outcome(i)
            case Output(content, isError) => m.content[i].content == content && m.content[i].isError == isError
            case Failure(error) => m.content[i].content == "Error: " + error && m.content[i].isError == Some(true)
  }

  lemma ExchangeSays(texts: seq<string>, calls: seq<Call>, outcome: nat -> ToolOutcome)
    ensures Says(AssistantMessage(texts, calls), texts, calls)
    ensures Reports(ResultsMessage(calls, outcome), calls, outcome)
  {
    AssistantSays(texts, calls);
    hide Says, AssistantMessage;
  }

  lemma AssistantSays(texts: seq<string>, calls: seq<Call>)
    ensures Says(AssistantMessage(texts, calls), texts, calls)
  {
    hide Join, UsesOf;
    var m, uses := AssistantMessage(texts, calls), UsesOf(calls);
    if texts == [] {
      assert m.content == uses;
    } else {
      assert m.content == [Text(Join(texts))] + uses;
      assert forall i :: 0 <= i < |calls| ==> m.content[1 + i] == uses[i];
    }
  }

  // ----- The whole conversation -----

  /** The model replied without an error event and called a tool. */
  ghost predicate GoesOn(turn: Turn) {
    && turn.reply.Some?
    && (forall i :: 0 <= i < |turn.reply.value| ==> !turn.reply.value[i].Error?)
    && exists i :: 0 <= i < |turn.reply.value| && turn.reply.value[i].UseEvent?
  }

  function EventsOf(turn: Turn): seq<Event> { if turn.reply.Some? then turn.reply.value else [] }

  /** What `k` rounds from round `i` on add to the conversation. */
  function Rounds(script: seq<Turn>, i: nat, k: nat): (added: seq<Message>)
    requires i + k <= |script|
    ensures |added| == 2 * k
    decreases k
  {
    if k == 0 then []
    else
      var events := EventsOf(script[i]);
      [AssistantMessage(Texts(events), Calls(events)), ResultsMessage(Calls(events), script[i].outcome)]
      + Rounds(script, i + 1, k - 1)
  }

  lemma {:induction false} RoundsSay(script: seq<Turn>, i: nat, k: nat, j: nat)
    requires j < k && i + k <= |script|
    ensures var rounds, events := Rounds(script, i, k), EventsOf(script[i + j]);
      && Says(rounds[2 * j], Texts(events), Calls(events))
      && Reports(rounds[2 * j + 1], Calls(events), script[i + j].outcome)
    decreases k
  {
    hide Texts, Calls, AssistantMessage, ResultsMessage, Says, Reports;
    var events := EventsOf(script[i]);
    ExchangeSays(Texts(events), Calls(events), script[i].outcome);
    if j > 0 {
      RoundsSay(script, i + 1, k - 1, j - 1);
    }
  }

  /** How the last round of a run ended it, and what it left. */
  ghost predicate EndsAs(end: End, left: seq<Message>, view: seq<Message>, turn: Turn) {
    && !GoesOn(turn)
    && if turn.reply.None? then end == CallFailed && left == view
       else
         var events := turn.reply.value;
         if exists i :: 0 <= i < |events| && events[i].Error? then end == LlmError && left == view
         else end == Replied(Join(Texts(events)))
              && |left| == |view| + 1 && left[..|view|] == view && Says(left[|view|], Texts(events), [])
  }

  /** The rounds from round `i` on, with `all` the whole conversation so far, of which `ms` is left: every call but the
      last went on, each saw the truncation of the whole conversation, and the last round says how it ended. */
  ghost predicate FollowsWhole(r: Outcome, ms: seq<Message>, all: seq<Message>, script: seq<Turn>, i: nat) {
    var n := |r.seen|;
    && i + n <= |script|
    && (forall k :: i <= k < i + n - 1 ==> GoesOn(script[k]))
    && (forall k :: 0 <= k < n ==> r.seen[k] == Truncated(all + Rounds(script, i, k)))
    && Ended(r, ms, script, i)
  }

  ghost predicate Ended(r: Outcome, ms: seq<Message>, script: seq<Turn>, i: nat)
    requires i + |r.seen| <= |script|
  {
    var n := |r.seen|;
    if n == 0 then i == |script| && r == Outcome(ms, Exhausted, [])
    else if GoesOn(script[i + n - 1]) then
      i + n == |script| && r.end == Exhausted && r.messages == r.seen[n - 1] + Rounds(script, i + n - 1, 1)
    else EndsAs(r.end, r.messages, r.seen[n - 1], script[i + n - 1])
  }

  lemma LastRound(ms: seq<Message>, script: seq<Turn>, i: nat)
    requires i < |script| && !GoesOn(script[i])
    ensures var r := Loop(ms, script, i);
      r.seen == [Truncated(ms)] && EndsAs(r.end, r.messages, Truncated(ms), script[i])
  {
    hide Truncated, Texts, Calls, Join;
    var turn := script[i];
    if turn.reply.Some? {
      var events := turn.reply.value;
      CallsExist(events);
      ExchangeSays(Texts(events), [], turn.outcome);
    }
  }

  lemma NextRound(ms: seq<Message>, script: seq<Turn>, i: nat)
    requires i < |script| && GoesOn(script[i])
    ensures Loop(ms, script, i)
         == After(Truncated(ms), Loop(Truncated(ms) + Rounds(script, i, 1), script, i + 1))
  {
    hide Truncated, Texts, Calls, Join, AssistantMessage, ResultsMessage;
    var events := EventsOf(script[i]);
    CallsExist(events);
    var a, u := AssistantMessage(Texts(events), Calls(events)), ResultsMessage(Calls(events), script[i].outcome);
    assert Rounds(script, i, 1) == [a, u];
    assert Truncated(ms) + [a] + [u] == Truncated(ms) + [a, u];
  }

  lemma {:induction false} RoundsFollow(ms: seq<Message>, all: seq<Message>, script: seq<Turn>, i: nat)
    requires i <= |script| && Truncated(ms) == Truncated(all)
    ensures FollowsWhole(Loop(ms, script, i), ms, all, script, i)
    decreases |script| - i
  {
    hide Truncated, GoesOn, EndsAs;
    if i < |script| && !GoesOn(script[i]) {
      LastRound(ms, script, i);
      hide Loop;
      assert all + [] == all;
    } else if i < |script| {
      var view, round := Truncated(ms), Rounds(script, i, 1);
      NextRound(ms, script, i);
      hide Loop;
      TruncatedAgain(all, round);
      RoundsFollow(view + round, all + round, script, i + 1);
      OneRoundEarlier(Loop(view + round, script, i + 1), ms, view + round, all, script, i);
    }
  }

  lemma OneRoundEarlier(rest: Outcome, ms: seq<Message>, ms': seq<Message>, all: seq<Message>, script: seq<Turn>,
                        i: nat)
    requires i < |script| && GoesOn(script[i]) && Truncated(ms) == Truncated(all)
    requires ms' == Truncated(ms) + Rounds(script, i, 1)
    requires FollowsWhole(rest, ms', all + Rounds(script, i, 1), script, i + 1)
    ensures FollowsWhole(After(Truncated(ms), rest), ms, all, script, i)
  {
    hide Truncated, EndsAs, Rounds, GoesOn, Ended;
    EndedEarlier(rest, ms, ms', script, i);
    var r, n := After(Truncated(ms), rest), |rest.seen| + 1;
    assert |r.seen| == n;
    forall k | 0 <= k < n ensures r.seen[k] == Truncated(all + Rounds(script, i, k)) {
      SeenEarlier(rest, ms, all, script, i, k);
    }
    assert forall k :: i < k < i + n - 1 ==> GoesOn(script[k]);
    hide After;
  }

  lemma SeenEarlier(rest: Outcome, ms: seq<Message>, all: seq<Message>, script: seq<Turn>, i: nat, k: nat)
    requires k <= |rest.seen| && i + 1 + |rest.seen| <= |script| && Truncated(ms) == Truncated(all)
    requires k > 0 ==>
      rest.seen[k - 1] == Truncated(all + Rounds(script, i, 1) + Rounds(script, i + 1, k - 1))
    ensures After(Truncated(ms), rest).seen[k] == Truncated(all + Rounds(script, i, k))
  {
    hide Truncated, Rounds;
    if k == 0 {
      NoRounds(all, script, i);
    } else {
      OneRoundMore(all, script, i, k);
    }
  }

  lemma EndedEarlier(rest: Outcome, ms: seq<Message>, ms': seq<Message>, script: seq<Turn>, i: nat)
    requires i + 1 + |rest.seen| <= |script| && GoesOn(script[i]) && ms' == Truncated(ms) + Rounds(script, i, 1)
    requires Ended(rest, ms', script, i + 1)
    ensures Ended(After(Truncated(ms), rest), ms, script, i)
  {
    hide Truncated, EndsAs, Rounds, GoesOn;
    var r, n := After(Truncated(ms), rest), |rest.seen|;
    assert n > 0 ==> r.seen[n] == rest.seen[n - 1];
  }

  lemma NoRounds(all: seq<Message>, script: seq<Turn>, i: nat)
    requires i <= |script|
    ensures all + Rounds(script, i, 0) == all
  {
  }

  lemma OneRoundMore(all: seq<Message>, script: seq<Turn>, i: nat, k: nat)
    requires 1 <= k && i + k <= |script|
    ensures all + Rounds(script, i, 1) + Rounds(script, i + 1, k - 1) == all + Rounds(script, i, k)
  {
    hide Texts, Calls, AssistantMessage, ResultsMessage;
    var one, more := Rounds(script, i, 1), Rounds(script, i + 1, k - 1);
    assert Rounds(script, i + 1, 0) == [];
    assert one + more == Rounds(script, i, k);
    hide Rounds;
    Associative(all, one, more);
  }

  /** Over any run, from any transcript: each model call saw the truncation of the whole conversation so far, that is,
      its first message and its latest messages; the run called the model again exactly while it replied with calls and
      without errors; and how the last call was answered says how the run ended and what it left. */
  lemma RunFollowsConversation(ms: seq<Message>, prompt: string, script: seq<Turn>)
    ensures var all := ms + [Message(User, [Text(prompt)])]; FollowsWhole(Run(ms, prompt, script), all, all, script, 0)
  {
    RoundsFollow(ms + [Prompt(prompt)], ms + [Prompt(prompt)], script, 0);
  }

  lemma FollowsAt(r: Outcome, all: seq<Message>, script: seq<Turn>, k: nat)
    requires FollowsWhole(r, all, all, script, 0) && k < |r.seen|
    ensures k <= |script| && r.seen[k] == Truncated(all + Rounds(script, 0, k))
    ensures forall j :: 0 <= j < k ==> GoesOn(script[j])
  {
    hide Truncated, Rounds, GoesOn;
  }

  /** So no model call sees less than the limit allows: everything, or all but the fewest oldest pairs. */
  lemma CallsSeeMost(ms: seq<Message>, prompt: string, script: seq<Turn>, k: nat)
    requires k < |Run(ms, prompt, script).seen|
    ensures k <= |script| && forall j :: 0 <= j < k ==> GoesOn(script[j])
    ensures var all := ms + [Message(User, [Text(prompt)])] + Rounds(script, 0, k);
      var seen := Run(ms, prompt, script).seen[k];
      if |all| <= 100 then seen == all
      else 99 <= |seen| <= 100 && |seen| % 2 == |all| % 2
           && seen == all[..1] + all[|all| - |seen| + 1..]
  {
    RunFollowsConversation(ms, prompt, script);
    hide *;
    FollowsAt(Run(ms, prompt, script), ms + [Message(User, [Text(prompt)])], script, k);
    TruncationKeepsMost(ms + [Message(User, [Text(prompt)])] + Rounds(script, 0, k));
  }

  /** The run returns a text exactly if it is not empty and is all that the last call said, without an error event and
      without calling a tool. */
  lemma RunReturns(ms: seq<Message>, prompt: string, script: seq<Turn>, text: string)
    ensures var r := Run(ms, prompt, script);
      var n := |r.seen|;
      && n <= |script|
      && (Returned(r.end) == Some(text) <==>
            n > 0 && text != "" && !GoesOn(script[n - 1]) && script[n - 1].reply.Some?
            && !HasError(EventsOf(script[n - 1])) && text == Join(Texts(EventsOf(script[n - 1]))))
  {
    RunFollowsConversation(ms, prompt, script);
    hide Run, Truncated, Join, Texts, Rounds;
  }
}
