/** The adapter's main loop: requests in, tasks spawned for them, one queue of output, and the drain before exit. */
module OutputLoop {
  import opened Base

  datatype Id = Id(json: string)

  /** What is written to stdout: a notification, or the response to a request. */
  datatype Output = Notification(text: string) | Response(id: Id)

  /** A queued message. The source sends the line, or nothing to mark a task's end; whose it is, is said here only to
      state what happens to it. */
  datatype Message = Line(task: nat, output: Output) | End(task: nat)

  /** A written line: from a task, or by the loop itself. */
  datatype Written = Written(task: Option<nat>, output: Output)

  datatype Method = Spawning | Cancel | Unknown

  /** One line of input: a request object, or text that is not one. */
  datatype Input = Malformed | Request(id: Option<Id>, method_: Option<Method>)

  // ----- The loop's own state -----

  datatype Main = Main(stdinOpen: bool, pending: nat, written: seq<Written>)

  function Saturating(n: nat): nat { if n == 0 then 0 else n - 1 }

  function Deliver(m: Main, msg: Message): Main {
    match msg
    case Line(t, output) => m.(written := m.written + [Written(Some(t), output)])
    case End(_) => m.(pending := Saturating(m.pending))
  }

  function DeliverAll(m: Main, queue: seq<Message>): Main {
    if queue == [] then m else Deliver(DeliverAll(m, queue[..|queue| - 1]), queue[|queue| - 1])
  }

  /** The request is answered by a task of its own. */
  predicate Spawns(input: Input) {
    input.Request? && input.id.Some? && input.method_ == Some(Spawning)
  }

  /** The request is answered by the loop at once. */
  predicate Direct(input: Input) {
    input.Request? && input.id.Some? && (input.method_ == Some(Cancel) || input.method_ == Some(Unknown))
  }

  function Handle(m: Main, input: Input): Main {
    if Spawns(input) then m.(pending := m.pending + 1)
    else if Direct(input) then m.(written := m.written + [Written(None, Response(input.id.value))])
    else m
  }

  class MainLoop {
    var stdinOpen: bool
    var pendingPrompts: nat
    var stdout: seq<Written>

    ghost function View(): Main
      reads this
    {
      Main(stdinOpen, pendingPrompts, stdout)
    }

    constructor ()
      ensures View() == Main(true, 0, [])
    {
      stdinOpen, pendingPrompts, stdout := true, 0, [];
    }

    method Receive(msg: Message)
      modifies this
      ensures View() == Deliver(old(View()), msg)
    {
      match msg
      case Line(t, output) => stdout := stdout + [Written(Some(t), output)];
      case End(_) => pendingPrompts := Saturating(pendingPrompts);
    }

    /** Takes what is queued, until the queue is empty. */
    method Drain(queue: seq<Message>)
      modifies this
      ensures View() == DeliverAll(old(View()), queue)
    {
      for i := 0 to |queue|
        invariant View() == DeliverAll(old(View()), queue[..i])
      {
        assert queue[..i + 1][..i] == queue[..i];
        Receive(queue[i]);
      }
      assert queue[..|queue|] == queue;
    }

    /** Drains the queue, then handles the line; the id if a task is to be spawned for it. */
    method OnLine(queue: seq<Message>, input: Input) returns (spawned: Option<Id>)
      modifies this
      ensures View() == Handle(DeliverAll(old(View()), queue), input)
      ensures spawned == if Spawns(input) then input.id else None
    {
      Drain(queue);
      spawned := None;
      if input.Malformed? {
        return;
      }
      if input.id.None? {
        return;
      }
      match input.method_
      case Some(Spawning) =>
        pendingPrompts := pendingPrompts + 1;
        spawned := input.id;
      case Some(Cancel) => stdout := stdout + [Written(None, Response(input.id.value))];
      case Some(Unknown) => stdout := stdout + [Written(None, Response(input.id.value))];
      case None =>
    }
  }

  // ----- The whole program -----

  datatype Phase = Selecting | Draining(line: Input) | Exited

  /** A spawned task. A crashed one never sends its end, though lines of its poller may still come. */
  datatype Task = Task(id: Id, answered: bool, crashed: bool)

  /** `received` and `handled` are the input lines read and handled so far, `sent` all lines handed over, in order. */
  datatype System = System(
    main: Main, phase: Phase,
    input: seq<Input>, eof: bool,
    out: seq<Message>, tasks: map<nat, Task>, next: nat,
    received: seq<Input>, handled: seq<Input>, sent: seq<Written>)

  datatype Step =
    | ReadLine(line: Input) | ReadEof
    | TakeOutput | TakeLine | TakeEof | DrainOne | HandleLine | Exit
    | SendLine(task: nat, text: string) | Answer(task: nat) | Finish(task: nat) | Crash(task: nat)

  predicate Done(m: Main) { !m.stdinOpen && m.pending == 0 }

  predicate Enabled(s: System, step: Step) {
    match step
    case ReadLine(_) => !s.eof
    case ReadEof => !s.eof
    case TakeOutput => s.phase.Selecting? && !Done(s.main) && s.out != []
    case TakeLine => s.phase.Selecting? && s.main.stdinOpen && s.input != []
    case TakeEof => s.phase.Selecting? && s.main.stdinOpen && s.input == [] && s.eof
    case DrainOne => s.phase.Draining? && s.out != []
    case HandleLine => s.phase.Draining? && s.out == []
    case Exit => s.phase.Selecting? && Done(s.main)
    case SendLine(t, _) => t in s.tasks && (!s.tasks[t].answered || s.tasks[t].crashed)
    case Answer(t) => t in s.tasks && !s.tasks[t].answered && !s.tasks[t].crashed
    case Finish(t) => t in s.tasks && s.tasks[t].answered && !s.tasks[t].crashed
    case Crash(t) => t in s.tasks && !s.tasks[t].crashed
  }

  function Send(s: System, t: nat, output: Output): System {
    s.(out := s.out + [Line(t, output)], sent := s.sent + [Written(Some(t), output)])
  }

  function TakeMessage(s: System): System
    requires s.out != []
  {
    s.(main := Deliver(s.main, s.out[0]), out := s.out[1..])
  }

  function HandleInput(s: System, input: Input): System {
    var handled := s.(main := Handle(s.main, input), phase := Selecting, handled := s.handled + [input]);
    if Spawns(input) then handled.(tasks := s.tasks[s.next := Task(input.id.value, false, false)], next := s.next + 1)
    else if Direct(input) then handled.(sent := s.sent + [Written(None, Response(input.id.value))])
    else handled
  }

  function Apply(s: System, step: Step): System
    requires Enabled(s, step)
  {
    match step
    case ReadLine(line) => s.(input := s.input + [line], received := s.received + [line])
    case ReadEof => s.(eof := true)
    case TakeOutput => TakeMessage(s)
    case TakeLine => s.(phase := Draining(s.input[0]), input := s.input[1..])
    case TakeEof => s.(main := s.main.(stdinOpen := false))
    case DrainOne => TakeMessage(s)
    case HandleLine => HandleInput(s, s.phase.line)
    case Exit => s.(phase := Exited)
    case SendLine(t, text) => Send(s, t, Notification(text))
    case Answer(t) => Send(s, t, Response(s.tasks[t].id)).(tasks := s.tasks[t := s.tasks[t].(answered := true)])
    case Finish(t) => s.(out := s.out + [End(t)], tasks := s.tasks - {t})
    case Crash(t) => s.(tasks := s.tasks[t := s.tasks[t].(crashed := true)])
  }

  const INITIAL := System(Main(true, 0, []), Selecting, [], false, [], map[], 0, [], [], [])

  ghost predicate IsRun(states: seq<System>, steps: seq<Step>) {
    && |states| == |steps| + 1
    && states[0] == INITIAL
    && forall i :: 0 <= i < |steps| ==> Enabled(states[i], steps[i]) && states[i + 1] == Apply(states[i], steps[i])
  }

  /** A run goes on with any enabled step. */
  lemma Extend(states: seq<System>, steps: seq<Step>, step: Step) returns (states': seq<System>, steps': seq<Step>)
    requires IsRun(states, steps) && Enabled(states[|steps|], step)
    ensures IsRun(states', steps') && states' == states + [Apply(states[|steps|], step)] && steps' == steps + [step]
  {
    hide Apply, Enabled;
    states', steps' := states + [Apply(states[|steps|], step)], steps + [step];
  }
}
