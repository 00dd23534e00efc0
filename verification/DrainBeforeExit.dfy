/** The loop exits only after everything has been written and every request answered once. */
module DrainBeforeExit {
  import opened Base
  import opened OutputLoop

  function Ends(out: seq<Message>): nat {
    if out == [] then 0 else Ends(out[..|out| - 1]) + (if out[|out| - 1].End? then 1 else 0)
  }

  lemma {:induction false} EndsHead(out: seq<Message>)
    requires out != []
    ensures Ends(out) == Ends(out[1..]) + (if out[0].End? then 1 else 0)
  {
    if |out| == 1 {
      assert out[..0] == [] && out[1..] == [];
    } else {
      EndsHead(out[..|out| - 1]);
      assert out[..|out| - 1][1..] == out[1..][..|out| - 2];
    }
  }

  // ----- The count of pending tasks -----

  /** `pending` counts the tasks not ended and the ends still queued; a queued line has its task's end, if that has
      come, behind it. */
  ghost predicate Counted(s: System) {
    && s.main.pending == |s.tasks| + Ends(s.out)
    && (forall t :: t in s.tasks ==> t < s.next)
  }

  ghost predicate Followed(s: System) {
    && (forall i :: 0 <= i < |s.out| ==> s.out[i].task < s.next)
    && (forall i :: 0 <= i < |s.out| && s.out[i].Line? ==>
          s.out[i].task in s.tasks || exists j :: i < j < |s.out| && s.out[j] == End(s.out[i].task))
  }

  lemma EndsOne(out: seq<Message>, msg: Message)
    ensures Ends(out + [msg]) == Ends(out) + (if msg.End? then 1 else 0)
  {
    assert (out + [msg])[..|out|] == out;
  }

  lemma TakeKeepsCounted(s: System)
    requires Counted(s) && s.out != []
    ensures Counted(TakeMessage(s))
  {
    EndsHead(s.out);
    hide Ends;
  }

  lemma HandleKeepsCounted(s: System, input: Input)
    requires Counted(s)
    ensures Counted(HandleInput(s, input))
  {
    hide Ends;
    if Spawns(input) {
    }
  }

  lemma StepKeepsCounted(s: System, step: Step)
    requires Enabled(s, step) && Counted(s)
    ensures Counted(Apply(s, step))
  {
    hide Ends, TakeMessage, HandleInput;
    match step
    case TakeOutput => TakeKeepsCounted(s);
    case DrainOne => TakeKeepsCounted(s);
    case HandleLine => HandleKeepsCounted(s, s.phase.line);
    case SendLine(t, text) => EndsOne(s.out, Line(t, Notification(text)));
    case Answer(t) =>
      EndsOne(s.out, Line(t, Response(s.tasks[t].id)));
    case Finish(t) =>
      EndsOne(s.out, End(t));
    case Crash(t) =>
    case _ =>
  }

  lemma AppendKeepsFollowed(s: System, r: System, msg: Message)
    requires Followed(s) && r.next == s.next && r.out == s.out + [msg] && msg.task < s.next
    requires msg.Line? ==> r.tasks.Keys == s.tasks.Keys && msg.task in s.tasks
    requires msg.End? ==> r.tasks.Keys == s.tasks.Keys - {msg.task}
    ensures Followed(r)
  {
    forall i | 0 <= i < |r.out| && r.out[i].Line?
      ensures r.out[i].task in r.tasks || exists j :: i < j < |r.out| && r.out[j] == End(r.out[i].task)
    {
      if i < |s.out| && r.out[i].task !in r.tasks {
        if s.out[i].task in s.tasks {
          assert r.out[|s.out|] == End(r.out[i].task);
        } else {
          var j :| i < j < |s.out| && s.out[j] == End(s.out[i].task);
          assert r.out[j] == s.out[j];
        }
      }
    }
  }

  lemma StepKeepsFollowed(s: System, step: Step)
    requires Enabled(s, step) && Counted(s) && Followed(s)
    ensures Followed(Apply(s, step))
  {
    var r := Apply(s, step);
    match step
    case TakeOutput =>
    case DrainOne =>
    case SendLine(t, text) => AppendKeepsFollowed(s, r, Line(t, Notification(text)));
    case Answer(t) => AppendKeepsFollowed(s, r, Line(t, Response(s.tasks[t].id)));
    case Finish(t) => AppendKeepsFollowed(s, r, End(t));
    case Crash(t) => assert r.tasks.Keys == s.tasks.Keys;
    case _ =>
  }

  // ----- Nothing is lost, and order is kept -----

  function LineOf(msg: Message): seq<Written> {
    if msg.Line? then [Written(Some(msg.task), msg.output)] else []
  }

  function Lines(out: seq<Message>): seq<Written> {
    if out == [] then [] else Lines(out[..|out| - 1]) + LineOf(out[|out| - 1])
  }

  /** The lines from one source, in order. */
  function From(lines: seq<Written>, source: Option<nat>): seq<Output> {
    if lines == [] then []
    else
      var last := lines[|lines| - 1];
      From(lines[..|lines| - 1], source) + (if last.task == source then [last.output] else [])
  }

  /** What a source has handed over is what has been written of it, then what is queued. */
  ghost predicate Conserved(s: System) {
    forall source :: From(s.main.written, source) + From(Lines(s.out), source) == From(s.sent, source)
  }

  lemma {:induction false} LinesHead(out: seq<Message>)
    requires out != []
    ensures Lines(out) == LineOf(out[0]) + Lines(out[1..])
  {
    hide LineOf;
    if |out| == 1 {
      assert out[..0] == [] && out[1..] == [];
    } else {
      var front, last := out[..|out| - 1], out[|out| - 1];
      LinesHead(front);
      assert front[1..] == out[1..][..|out| - 2];
      Associative(LineOf(out[0]), Lines(front[1..]), LineOf(last));
    }
  }

  lemma LinesOne(out: seq<Message>, msg: Message)
    ensures Lines(out + [msg]) == Lines(out) + LineOf(msg)
  {
    assert (out + [msg])[..|out|] == out;
  }

  lemma {:induction false} FromAppend(a: seq<Written>, b: seq<Written>, source: Option<nat>)
    ensures From(a + b, source) == From(a, source) + From(b, source)
  {
    if b == [] {
      assert a + b == a;
    } else {
      FromAppend(a, b[..|b| - 1], source);
      assert (a + b)[..|a + b| - 1] == a + b[..|b| - 1];
    }
  }

  lemma TakenAt(written: seq<Written>, line: seq<Written>, rest: seq<Written>, sent: seq<Written>, source: Option<nat>)
    requires From(written, source) + From(line + rest, source) == From(sent, source)
    ensures From(written + line, source) + From(rest, source) == From(sent, source)
  {
    hide From;
    FromAppend(written, line, source);
    FromAppend(line, rest, source);
    Associative(From(written, source), From(line, source), From(rest, source));
  }

  lemma AppendedAt(written: seq<Written>, queued: seq<Written>, sent: seq<Written>, line: seq<Written>,
                   source: Option<nat>)
    requires From(written, source) + From(queued, source) == From(sent, source)
    ensures From(written, source) + From(queued + line, source) == From(sent + line, source)
  {
    hide From;
    FromAppend(queued, line, source);
    FromAppend(sent, line, source);
    Associative(From(written, source), From(queued, source), From(line, source));
  }

  lemma TakeKeepsConserved(s: System)
    requires Conserved(s) && s.out != []
    ensures Conserved(TakeMessage(s))
  {
    hide From, Lines;
    var r, line := TakeMessage(s), LineOf(s.out[0]);
    LinesHead(s.out);
    assert s.main.written + [] == s.main.written;
    forall source ensures From(r.main.written, source) + From(Lines(r.out), source) == From(s.sent, source) {
      TakenAt(s.main.written, line, Lines(r.out), s.sent, source);
    }
  }

  lemma AppendKeepsConserved(s: System, r: System, msg: Message)
    requires Conserved(s) && r.main.written == s.main.written && r.out == s.out + [msg]
    requires r.sent == s.sent + LineOf(msg)
    ensures Conserved(r)
  {
    hide From, Lines;
    LinesOne(s.out, msg);
    forall source ensures From(r.main.written, source) + From(Lines(r.out), source) == From(r.sent, source) {
      AppendedAt(s.main.written, Lines(s.out), s.sent, LineOf(msg), source);
    }
  }

  lemma DirectKeepsConserved(s: System, line: Written)
    requires Conserved(s) && s.out == []
    ensures Conserved(s.(main := s.main.(written := s.main.written + [line]), sent := s.sent + [line]))
  {
    forall source ensures From(s.main.written + [line], source) + From(Lines(s.out), source)
          == From(s.sent + [line], source) {
      FromAppend(s.main.written, [line], source);
      FromAppend(s.sent, [line], source);
      assert From(s.main.written, source) + From(Lines(s.out), source) == From(s.sent, source);
      assert From(Lines(s.out), source) == [];
    }
  }

  lemma StepKeepsConserved(s: System, step: Step)
    requires Enabled(s, step) && Conserved(s)
    ensures Conserved(Apply(s, step))
  {
    hide From, Lines;
    var r := Apply(s, step);
    match step
    case TakeOutput => TakeKeepsConserved(s);
    case DrainOne => TakeKeepsConserved(s);
    case SendLine(t, text) => AppendKeepsConserved(s, r, Line(t, Notification(text)));
    case Answer(t) => AppendKeepsConserved(s, r, Line(t, Response(s.tasks[t].id)));
    case Finish(t) =>
      assert s.sent == s.sent + [];
      AppendKeepsConserved(s, r, End(t));
    case HandleLine =>
      if Direct(s.phase.line) {
        DirectKeepsConserved(s, Written(None, Response(s.phase.line.id.value)));
      }
    case _ =>
  }

  // ----- Every request is answered once -----

  /** A request with an id and a method calls for a response. */
  function AskedBy(line: Input): multiset<Id> {
    if line.Request? && line.id.Some? && line.method_.Some? then multiset{line.id.value} else multiset{}
  }

  function AnsweredBy(line: Written): multiset<Id> {
    if line.output.Response? then multiset{line.output.id} else multiset{}
  }

  function OwedBy(tasks: map<nat, Task>, t: nat): multiset<Id> {
    if t in tasks && !tasks[t].answered then multiset{tasks[t].id} else multiset{}
  }

  /** The ids of the requests among the lines that call for a response. */
  function Asked(lines: seq<Input>): multiset<Id> {
    if lines == [] then multiset{} else Asked(lines[..|lines| - 1]) + AskedBy(lines[|lines| - 1])
  }

  /** The ids of the responses among the lines. */
  function Answered(lines: seq<Written>): multiset<Id> {
    if lines == [] then multiset{} else Answered(lines[..|lines| - 1]) + AnsweredBy(lines[|lines| - 1])
  }

  /** The ids of the tasks below `n` that have not sent their response. */
  function Owed(tasks: map<nat, Task>, n: nat): multiset<Id> {
    if n == 0 then multiset{} else Owed(tasks, n - 1) + OwedBy(tasks, n - 1)
  }

  /** Requests handled are answered or owed by a task. */
  ghost predicate Balanced(s: System) {
    Answered(s.sent) + Owed(s.tasks, s.next) == Asked(s.handled)
  }

  /** Lines read are handled, in hand, or waiting; input is closed only after the last, and the loop exits when done. */
  ghost predicate Read(s: System) {
    && s.received == s.handled + (if s.phase.Draining? then [s.phase.line] else []) + s.input
    && (!s.main.stdinOpen ==> s.input == [] && s.eof && !s.phase.Draining?)
    && (s.phase.Exited? ==> Done(s.main))
  }

  lemma {:induction false} OwedSame(a: map<nat, Task>, b: map<nat, Task>, n: nat)
    requires forall t: nat :: t < n ==> OwedBy(a, t) == OwedBy(b, t)
    ensures Owed(a, n) == Owed(b, n)
  {
    hide OwedBy;
    if n > 0 {
      OwedSame(a, b, n - 1);
    }
  }

  lemma {:induction false} OwedLess(a: map<nat, Task>, b: map<nat, Task>, t: nat, n: nat)
    requires t < n && OwedBy(b, t) == multiset{}
    requires forall u: nat :: u < n && u != t ==> OwedBy(a, u) == OwedBy(b, u)
    ensures Owed(a, n) == Owed(b, n) + OwedBy(a, t)
  {
    hide OwedBy;
    if t == n - 1 {
      OwedSame(a, b, n - 1);
    } else {
      OwedLess(a, b, t, n - 1);
    }
  }

  lemma AnsweredOne(lines: seq<Written>, line: Written)
    ensures Answered(lines + [line]) == Answered(lines) + AnsweredBy(line)
  {
    assert (lines + [line])[..|lines|] == lines;
  }

  /** Handling a line adds what it asks to what is answered or owed. */
  lemma HandleBalances(s: System)
    requires Enabled(s, HandleLine) && Counted(s)
    ensures var r := Apply(s, HandleLine);
      Answered(r.sent) + Owed(r.tasks, r.next) == Answered(s.sent) + Owed(s.tasks, s.next) + AskedBy(s.phase.line)
  {
    hide Owed, Answered, Counted;
    var line := s.phase.line;
    if Spawns(line) {
      SpawnOwes(s, line);
    } else if Direct(line) {
      AnsweredOne(s.sent, Written(None, Response(line.id.value)));
    }
    SpawnedOrDirect(line);
  }

  lemma SpawnedOrDirect(line: Input)
    ensures AskedBy(line) == if Spawns(line) || Direct(line) then multiset{line.id.value} else multiset{}
  {
    if line.Request? && line.method_.Some? {
      match line.method_.value
      case Spawning =>
      case Cancel =>
      case Unknown =>
    }
  }

  lemma SpawnOwes(s: System, line: Input)
    requires Counted(s) && Spawns(line)
    ensures Owed(s.tasks[s.next := Task(line.id.value, false, false)], s.next + 1)
          == Owed(s.tasks, s.next) + AskedBy(line)
  {
    OwedSame(s.tasks, s.tasks[s.next := Task(line.id.value, false, false)], s.next);
  }

  lemma AnswerBalances(sent: seq<Written>, tasks: map<nat, Task>, t: nat, n: nat)
    requires t < n && t in tasks && !tasks[t].answered
    ensures Answered(sent + [Written(Some(t), Response(tasks[t].id))])
          + Owed(tasks[t := tasks[t].(answered := true)], n)
         == Answered(sent) + Owed(tasks, n)
  {
    hide Owed, Answered;
    AnsweredOne(sent, Written(Some(t), Response(tasks[t].id)));
    OwedLess(tasks, tasks[t := tasks[t].(answered := true)], t, n);
  }

  lemma HandleKeepsBalanced(s: System)
    requires Enabled(s, HandleLine) && Counted(s) && Balanced(s)
    ensures Balanced(HandleInput(s, s.phase.line))
  {
    HandleBalances(s);
    HandleRecords(s, s.phase.line);
    AskedOne(s.handled, s.phase.line);
    var r := Apply(s, HandleLine);
    assert r == HandleInput(s, s.phase.line);
    hide *;
    BalancedTo(s, r, AskedBy(s.phase.line));
  }

  lemma BalancedTo(s: System, r: System, asked: multiset<Id>)
    requires Balanced(s) && Asked(r.handled) == Asked(s.handled) + asked
    requires Answered(r.sent) + Owed(r.tasks, r.next) == Answered(s.sent) + Owed(s.tasks, s.next) + asked
    ensures Balanced(r)
  {
    hide Owed, Asked, Answered;
  }

  lemma AskedOne(inputs: seq<Input>, input: Input)
    ensures Asked(inputs + [input]) == Asked(inputs) + AskedBy(input)
  {
    assert (inputs + [input])[..|inputs|] == inputs;
  }

  lemma HandleRecords(s: System, input: Input)
    ensures HandleInput(s, input).handled == s.handled + [input]
  {
  }

  lemma TaskKeepsBalanced(s: System, step: Step)
    requires Enabled(s, step) && Counted(s) && Balanced(s)
    requires step.SendLine? || step.Answer? || step.Finish? || step.Crash?
    ensures Balanced(Apply(s, step))
  {
    hide Owed, Asked, Answered, HandleInput, TakeMessage, Ends, LineOf, Lines;
    match step
    case SendLine(t, text) => AnsweredOne(s.sent, Written(Some(t), Notification(text)));
    case Answer(t) => AnswerBalances(s.sent, s.tasks, t, s.next);
    case Finish(t) => OwedSame(s.tasks, s.tasks - {t}, s.next);
    case Crash(t) => OwedSame(s.tasks, s.tasks[t := s.tasks[t].(crashed := true)], s.next);
  }

  lemma OthersKeepBalanced(s: System, step: Step)
    requires Enabled(s, step) && Balanced(s)
    requires !step.SendLine? && !step.Answer? && !step.Finish? && !step.Crash? && !step.HandleLine?
    ensures Balanced(Apply(s, step))
  {
    hide Owed, Asked, Answered, HandleInput, Deliver;
  }

  lemma StepKeepsBalanced(s: System, step: Step)
    requires Enabled(s, step) && Counted(s) && Balanced(s)
    ensures Balanced(Apply(s, step))
  {
    hide Balanced, Counted, HandleInput, TakeMessage;
    if step.HandleLine? {
      HandleKeepsBalanced(s);
    } else if step.SendLine? || step.Answer? || step.Finish? || step.Crash? {
      TaskKeepsBalanced(s, step);
    } else {
      OthersKeepBalanced(s, step);
    }
  }

  lemma StepKeepsRead(s: System, step: Step)
    requires Enabled(s, step) && Read(s)
    ensures Read(Apply(s, step))
  {
    hide TakeMessage, HandleInput, Send;
    match step
    case TakeLine => assert s.input == [s.input[0]] + s.input[1..];
    case HandleLine => HandleReads(s);
    case TakeOutput => NothingRead(s, step);
    case DrainOne => NothingRead(s, step);
    case SendLine(_, _) => NothingRead(s, step);
    case Answer(_) => NothingRead(s, step);
    case ReadLine(line) => Associative(s.handled + (if s.phase.Draining? then [s.phase.line] else []), s.input, [line]);
    case _ =>
  }

  lemma HandleReads(s: System)
    requires Enabled(s, HandleLine) && Read(s)
    ensures Read(HandleInput(s, s.phase.line))
  {
  }

  lemma NothingRead(s: System, step: Step)
    requires Enabled(s, step) && Read(s) && (step.TakeOutput? || step.DrainOne? || step.SendLine? || step.Answer?)
    ensures Read(Apply(s, step))
  {
  }

  // ----- Over whole runs -----

  ghost predicate Inv(s: System) { Counted(s) && Followed(s) && Conserved(s) && Balanced(s) && Read(s) }

  lemma {:induction false} RunKeepsInv(states: seq<System>, steps: seq<Step>, n: nat)
    requires IsRun(states, steps) && n < |states|
    ensures Inv(states[n])
  {
    if n > 0 {
      RunKeepsInv(states, steps, n - 1);
      hide Apply, Enabled;
      StepKeepsCounted(states[n - 1], steps[n - 1]);
      StepKeepsFollowed(states[n - 1], steps[n - 1]);
      StepKeepsConserved(states[n - 1], steps[n - 1]);
      StepKeepsBalanced(states[n - 1], steps[n - 1]);
      StepKeepsRead(states[n - 1], steps[n - 1]);
    } else {
    }
  }

  /** The subtraction never saturates: whenever an end is taken from the queue, its task is still counted. */
  lemma NeverSaturates(states: seq<System>, steps: seq<Step>, n: nat)
    requires IsRun(states, steps) && n < |steps| && (steps[n].TakeOutput? || steps[n].DrainOne?)
    requires states[n].out[0].End?
    ensures states[n + 1].main.pending == states[n].main.pending - 1
  {
    RunKeepsInv(states, steps, n);
    EndsHead(states[n].out);
  }

  /** With nothing pending, no task is left and nothing is queued. */
  lemma NothingPending(s: System)
    requires Counted(s) && Followed(s) && s.main.pending == 0
    ensures s.tasks == map[] && s.out == []
  {
    assert |s.tasks| == 0 && Ends(s.out) == 0;
    if s.out != [] {
      EndsHead(s.out);
      var j :| 0 < j < |s.out| && s.out[j] == End(s.out[0].task);
      EndQueued(s.out, j);
    }
  }

  lemma {:induction false} EndQueued(out: seq<Message>, j: nat)
    requires j < |out| && out[j].End?
    ensures Ends(out) > 0
  {
    if j < |out| - 1 {
      EndQueued(out[..|out| - 1], j);
    }
  }

  /** When the loop has exited: all input has been read and handled, everything handed over has been written, each
      source's lines in the order it sent them, no task is left, and the responses written are those of the requests
      that had an id and a method, one each. */
  lemma ExitMeansDrained(states: seq<System>, steps: seq<Step>, n: nat)
    requires IsRun(states, steps) && n < |states| && states[n].phase.Exited?
    ensures var s := states[n];
      && s.eof && s.input == [] && s.handled == s.received
      && s.tasks == map[] && s.out == []
      && (forall source :: From(s.main.written, source) == From(s.sent, source))
      && Answered(s.main.written) == Asked(s.received)
  {
    var s := states[n];
    RunKeepsInv(states, steps, n);
    NothingPending(s);
    forall source ensures From(s.main.written, source) == From(s.sent, source) {
      assert From(s.main.written, source) + From(Lines(s.out), source) == From(s.sent, source);
    }
    OwedNone(s.tasks, s.next);
    RunWritesOnce(states, steps, n);
  }

  lemma {:induction false} OwedNone(tasks: map<nat, Task>, n: nat)
    requires tasks == map[]
    ensures Owed(tasks, n) == multiset{}
  {
    if n > 0 {
      OwedNone(tasks, n - 1);
    }
  }

  ghost predicate AnswersConserved(s: System) {
    Answered(s.main.written) + Answered(Lines(s.out)) == Answered(s.sent)
  }

  lemma {:induction false} AnsweredAppend(a: seq<Written>, b: seq<Written>)
    ensures Answered(a + b) == Answered(a) + Answered(b)
  {
    hide AnsweredBy;
    if b == [] {
      assert a + b == a;
    } else {
      var front, last := b[..|b| - 1], b[|b| - 1];
      AnsweredAppend(a, front);
      assert a + b == (a + front) + [last] && b == front + [last];
      AnsweredOne(a + front, last);
      AnsweredOne(front, last);
    }
  }

  lemma TakeConservesAnswers(s: System)
    requires AnswersConserved(s) && s.out != []
    ensures AnswersConserved(TakeMessage(s))
  {
    LinesHead(s.out);
    hide Lines, Answered;
    var r, line := TakeMessage(s), LineOf(s.out[0]);
    assert s.main.written + [] == s.main.written;
    AnsweredAppend(s.main.written, line);
    AnsweredAppend(line, Lines(r.out));
  }

  lemma AppendConservesAnswers(s: System, r: System, msg: Message)
    requires AnswersConserved(s) && r.main.written == s.main.written && r.out == s.out + [msg]
    requires r.sent == s.sent + LineOf(msg)
    ensures AnswersConserved(r)
  {
    hide Answered, Lines;
    LinesOne(s.out, msg);
    AnsweredAppend(Lines(s.out), LineOf(msg));
    AnsweredAppend(s.sent, LineOf(msg));
  }

  lemma StepConservesAnswers(s: System, step: Step)
    requires Enabled(s, step) && AnswersConserved(s)
    ensures AnswersConserved(Apply(s, step))
  {
    hide Answered, Lines;
    var r := Apply(s, step);
    match step
    case TakeOutput => TakeConservesAnswers(s);
    case DrainOne => TakeConservesAnswers(s);
    case SendLine(t, text) => AppendConservesAnswers(s, r, Line(t, Notification(text)));
    case Answer(t) => AppendConservesAnswers(s, r, Line(t, Response(s.tasks[t].id)));
    case Finish(t) =>
      assert s.sent == s.sent + [];
      AppendConservesAnswers(s, r, End(t));
    case HandleLine =>
      if Direct(s.phase.line) {
        var line := Written(None, Response(s.phase.line.id.value));
        AnsweredAppend(s.main.written, [line]);
        AnsweredAppend(s.sent, [line]);
      }
    case _ =>
  }

  lemma {:induction false} RunWritesOnce(states: seq<System>, steps: seq<Step>, n: nat)
    requires IsRun(states, steps) && n < |states|
    ensures AnswersConserved(states[n])
  {
    hide Apply, Enabled;
    if n > 0 {
      RunWritesOnce(states, steps, n - 1);
      StepConservesAnswers(states[n - 1], steps[n - 1]);
    }
  }

  lemma StepKeepsCrashed(s: System, step: Step, t: nat)
    requires Enabled(s, step) && Counted(s) && t in s.tasks && s.tasks[t].crashed
    ensures t in Apply(s, step).tasks && Apply(s, step).tasks[t].crashed
  {
  }

  /** A task that crashed is never ended, so the loop does not exit. */
  lemma {:induction false} CrashBlocksExit(states: seq<System>, steps: seq<Step>, a: nat, b: nat, t: nat)
    requires IsRun(states, steps) && a <= b < |states| && t in states[a].tasks && states[a].tasks[t].crashed
    ensures t in states[b].tasks && states[b].tasks[t].crashed && !states[b].phase.Exited?
  {
    hide Apply, Enabled, Conserved, Followed, Counted;
    if a < b {
      CrashBlocksExit(states, steps, a, b - 1, t);
      RunKeepsInv(states, steps, b - 1);
      StepKeepsCrashed(states[b - 1], steps[b - 1], t);
    }
    RunKeepsInv(states, steps, b);
    if states[b].phase.Exited? {
      NothingPending(states[b]);
    }
  }

  /** After the end of input, while no task has crashed, the loop or some task can always take another step that is
      not a mere notification, until the loop has exited. */
  lemma NeverStuck(states: seq<System>, steps: seq<Step>, n: nat) returns (step: Step)
    requires IsRun(states, steps) && n < |states| && states[n].eof && !states[n].phase.Exited?
    requires forall t :: t in states[n].tasks ==> !states[n].tasks[t].crashed
    ensures Enabled(states[n], step) && !step.SendLine? && !step.Crash?
  {
    var s := states[n];
    RunKeepsInv(states, steps, n);
    if s.phase.Draining? {
      step := if s.out != [] then DrainOne else HandleLine;
    } else if s.main.stdinOpen {
      step := if s.input != [] then TakeLine else TakeEof;
    } else if s.main.pending == 0 {
      step := Exit;
    } else if s.out != [] {
      step := TakeOutput;
    } else {
      assert s.tasks.Keys != {};
      var t :| t in s.tasks.Keys;
      step := if s.tasks[t].answered then Finish(t) else Answer(t);
    }
  }

  // ----- The drain ends -----

  function WorkOf(tasks: map<nat, Task>, t: nat): nat {
    if t !in tasks then 0 else if tasks[t].answered then 2 else 4
  }

  function Work(tasks: map<nat, Task>, n: nat): nat {
    if n == 0 then 0 else Work(tasks, n - 1) + WorkOf(tasks, n - 1)
  }

  /** What is left to do: per waiting line, for the line in hand, per task, per queued message, and to close. */
  function Left(s: System): nat {
    6 * |s.input| + (if s.phase.Draining? then 5 else 0) + Work(s.tasks, s.next) + |s.out|
    + (if s.main.stdinOpen then 1 else 0) + (if s.phase.Exited? then 0 else 1)
  }

  lemma {:induction false} WorkSame(a: map<nat, Task>, b: map<nat, Task>, n: nat)
    requires forall t: nat :: t < n ==> WorkOf(a, t) == WorkOf(b, t)
    ensures Work(a, n) == Work(b, n)
  {
    hide WorkOf;
    if n > 0 {
      WorkSame(a, b, n - 1);
    }
  }

  lemma {:induction false} WorkLess(a: map<nat, Task>, b: map<nat, Task>, t: nat, n: nat)
    requires t < n
    requires forall u: nat :: u < n && u != t ==> WorkOf(a, u) == WorkOf(b, u)
    ensures Work(a, n) - WorkOf(a, t) == Work(b, n) - WorkOf(b, t)
  {
    hide WorkOf;
    if t == n - 1 {
      WorkSame(a, b, n - 1);
    } else {
      WorkLess(a, b, t, n - 1);
    }
  }

  lemma HandleLeavesLess(s: System)
    requires Enabled(s, HandleLine)
    ensures Left(HandleInput(s, s.phase.line)) < Left(s)
  {
    if Spawns(s.phase.line) {
      WorkSame(s.tasks, s.tasks[s.next := Task(s.phase.line.id.value, false, false)], s.next);
    }
  }

  /** Every step but reading more input, sending a notification or crashing leaves less to do. */
  lemma StepLeavesLess(s: System, step: Step)
    requires Enabled(s, step) && Counted(s)
    requires !step.ReadLine? && !step.ReadEof? && !step.SendLine? && !step.Crash?
    ensures Left(Apply(s, step)) < Left(s)
  {
    hide Work, Ends, HandleInput;
    match step
    case HandleLine => HandleLeavesLess(s);
    case Answer(t) => WorkLess(s.tasks, s.tasks[t := s.tasks[t].(answered := true)], t, s.next);
    case Finish(t) => WorkLess(s.tasks, s.tasks - {t}, t, s.next);
    case _ =>
  }

  /** Input has ended and no task has crashed. */
  predicate InputEnded(s: System) {
    s.eof && forall t :: t in s.tasks ==> !s.tasks[t].crashed
  }

  lemma StepKeepsInputEnded(s: System, step: Step)
    requires Enabled(s, step) && InputEnded(s) && !step.Crash?
    ensures InputEnded(Apply(s, step)) && !step.ReadLine? && !step.ReadEof?
  {
    hide Deliver, Handle;
  }

  /** Once input has ended and while no task crashes, every run can go on to the exit. */
  lemma {:induction false} DrainEndsInExit(states: seq<System>, steps: seq<Step>)
    returns (states': seq<System>, steps': seq<Step>)
    requires IsRun(states, steps) && InputEnded(states[|steps|])
    ensures IsRun(states', steps') && states <= states' && steps <= steps'
    ensures states'[|steps'|].phase.Exited? && |steps'| <= |steps| + Left(states[|steps|])
    decreases Left(states[|steps|])
  {
    var s := states[|steps|];
    states', steps' := states, steps;
    if !s.phase.Exited? {
      var step := NeverStuck(states, steps, |steps|);
      RunKeepsInv(states, steps, |steps|);
      hide Apply, Enabled, Left, Conserved, Followed, Balanced, Read;
      StepLeavesLess(s, step);
      StepKeepsInputEnded(s, step);
      states', steps' := Extend(states, steps, step);
      states', steps' := DrainEndsInExit(states', steps');
    }
  }

  /** And no continuation without notifications or crashes goes on for longer than there is work left. */
  lemma {:induction false} DrainIsBounded(states: seq<System>, steps: seq<Step>, n: nat, k: nat)
    requires IsRun(states, steps) && n <= k <= |steps| && InputEnded(states[n])
    requires forall i :: n <= i < k ==> !steps[i].SendLine? && !steps[i].Crash?
    ensures InputEnded(states[k]) && k - n <= Left(states[n]) - Left(states[k])
  {
    hide Apply, Enabled, Left, Conserved, Followed, Balanced, Read;
    if n < k {
      DrainIsBounded(states, steps, n, k - 1);
      RunKeepsInv(states, steps, k - 1);
      StepKeepsInputEnded(states[k - 1], steps[k - 1]);
      StepLeavesLess(states[k - 1], steps[k - 1]);
    }
  }

  // ----- Who answers -----

  /** A request with an id that the loop answers itself: a cancellation, or a method it does not know. */
  function LoopAskedBy(line: Input): multiset<Id> {
    if line.Request? && line.id.Some? && line.method_ in {Some(Cancel), Some(Unknown)} then multiset{line.id.value}
    else multiset{}
  }

  function LoopAsked(lines: seq<Input>): multiset<Id> {
    if lines == [] then multiset{} else LoopAsked(lines[..|lines| - 1]) + LoopAskedBy(lines[|lines| - 1])
  }

  function LoopAnsweredBy(line: Written): multiset<Id> {
    if line.task.None? && line.output.Response? then multiset{line.output.id} else multiset{}
  }

  /** The ids of the responses that no task sent. */
  function LoopAnswered(lines: seq<Written>): multiset<Id> {
    if lines == [] then multiset{} else LoopAnswered(lines[..|lines| - 1]) + LoopAnsweredBy(lines[|lines| - 1])
  }

  lemma OneMoreLine(lines: seq<Written>, line: Written, inputs: seq<Input>, input: Input)
    ensures LoopAnswered(lines + [line]) == LoopAnswered(lines) + LoopAnsweredBy(line)
    ensures LoopAsked(inputs + [input]) == LoopAsked(inputs) + LoopAskedBy(input)
  {
    assert (lines + [line])[..|lines|] == lines && (inputs + [input])[..|inputs|] == inputs;
  }

  lemma StepAnswersDirectly(s: System, step: Step)
    requires Enabled(s, step) && LoopAnswered(s.sent) == LoopAsked(s.handled)
    ensures LoopAnswered(Apply(s, step).sent) == LoopAsked(Apply(s, step).handled)
  {
    hide LoopAnswered, LoopAsked, HandleInput, Deliver;
    match step
    case HandleLine => HandleAnswersDirectly(s, s.phase.line);
    case SendLine(t, text) => OneMoreLine(s.sent, Written(Some(t), Notification(text)), [], Malformed);
    case Answer(t) => OneMoreLine(s.sent, Written(Some(t), Response(s.tasks[t].id)), [], Malformed);
    case _ =>
  }

  lemma HandleAnswersDirectly(s: System, line: Input)
    requires LoopAnswered(s.sent) == LoopAsked(s.handled)
    ensures LoopAnswered(HandleInput(s, line).sent) == LoopAsked(HandleInput(s, line).handled)
  {
    hide LoopAnswered, LoopAsked, Handle;
    var id := if line.Request? && line.id.Some? then line.id.value else Id("");
    OneMoreLine(s.sent, Written(None, Response(id)), s.handled, line);
  }

  /** Over any run, the loop itself answers exactly the cancellations and the unknown methods among the requests
      handled, one response each; all other requests are left to their tasks. */
  lemma {:induction false} LoopAnswersItsOwn(states: seq<System>, steps: seq<Step>, n: nat)
    requires IsRun(states, steps) && n < |states|
    ensures LoopAnswered(states[n].sent) == LoopAsked(states[n].handled)
  {
    hide Apply, Enabled;
    if n > 0 {
      LoopAnswersItsOwn(states, steps, n - 1);
      StepAnswersDirectly(states[n - 1], steps[n - 1]);
    }
  }

  // ----- Handling a line is draining and then handling -----

  lemma {:induction false} DeliverFirst(m: Main, queue: seq<Message>)
    requires queue != []
    ensures DeliverAll(m, queue) == DeliverAll(Deliver(m, queue[0]), queue[1..])
  {
    var n := |queue| - 1;
    if n > 0 {
      DeliverFirst(m, queue[..n]);
      assert queue[..n][1..] == queue[1..][..n - 1];
    } else {
      assert queue[..0] == [];
      assert queue[1..] == [];
    }
  }

  /** After any run that ends with a line in hand, taking the queued messages one by one and then handling the line has
      the effect of `OnLine`, which drains the whole queue at once. */
  lemma {:induction false} DrainThenHandle(states: seq<System>, steps: seq<Step>)
    returns (states': seq<System>, steps': seq<Step>)
    requires IsRun(states, steps) && states[|steps|].phase.Draining?
    ensures IsRun(states', steps') && states <= states' && steps <= steps'
    ensures |steps'| == |steps| + |states[|steps|].out| + 1
    ensures forall i :: |steps| <= i < |steps'| - 1 ==> steps'[i] == DrainOne
    ensures steps'[|steps'| - 1] == HandleLine
    ensures var s := states[|steps|];
      states'[|steps'|].main == Handle(DeliverAll(s.main, s.out), s.phase.line) && states'[|steps'|].out == []
    decreases |states[|steps|].out|
  {
    var s := states[|steps|];
    if s.out == [] {
      states', steps' := Extend(states, steps, HandleLine);
    } else {
      DeliverFirst(s.main, s.out);
      hide Deliver, DeliverAll, Handle;
      states', steps' := Extend(states, steps, DrainOne);
      states', steps' := DrainThenHandle(states', steps');
    }
  }
}
