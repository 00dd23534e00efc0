/** The streaming poller: what it emits over any number of polls of a growing table of steps. */
module Streaming {
  import opened Base
  import opened Protobuf

  /** One selected row: its index, its step type, and its payload. */
  datatype Row = Row(idx: int, stepType: int, payload: seq<byte>)

  datatype Call = Call(name: seq<byte>, input: Option<seq<byte>>)

  /** What a poll sends: a piece of text, or the start and end of a tool call. */
  datatype Update = Chunk(idx: int, text: seq<byte>) | ToolCall(idx: int, stepType: int, call: Call)
                  | ToolCallUpdate(idx: int, stepType: int, call: Call)

  /** `emitted` is how much of each step's text has been dealt with, `tools` the tool steps already announced. */
  datatype Progress = Progress(last: int, emitted: map<int, nat>, tools: set<int>)

  /** A poll either finishes, or fails because it cut a text inside a character. */
  datatype Polled = Polled(progress: Progress, updates: seq<Update>) | Panicked

  /** Whether narration is shown, and which texts are narration. */
  datatype Display = Display(shown: bool, narration: seq<byte> -> bool)

  predicate IsToolStep(stepType: int) { stepType in {5, 7, 8, 9, 17, 21, 33, 101, 138} }

  function Bytes(found: Lookup): Option<seq<byte>> { if found.Found? then Some(found.bytes) else None }

  function TextOf(row: Row): (r: Option<seq<byte>>)
    ensures r.Some? ==> Utf8(r.value)
  {
    if row.stepType == 15 then Bytes(ExtractText(row.payload)) else None
  }

  function GetText(blob: seq<byte>, target: nat): Option<seq<byte>> {
    var r := Bytes(GetField(blob, target));
    if r.Some? && !Utf8(r.value) then None else r
  }

  /** A tool step's call: its name is field 2, or field 9 without it, and must not be empty. */
  function CallOf(payload: seq<byte>): Option<Call> {
    match Bytes(GetField(payload, 5))
    case None => None
    case Some(tool) =>
      match Bytes(GetField(tool, 4))
      case None => None
      case Some(call) =>
        var name := if GetText(call, 2).Some? then GetText(call, 2) else GetText(call, 9);
        if name.None? || name.value == [] then None else Some(Call(name.value, GetText(call, 3)))
  }

  function ToolOf(row: Row): Option<Call> {
    if row.stepType != 15 && IsToolStep(row.stepType) then CallOf(row.payload) else None
  }

  function Emitted(p: Progress, idx: int): nat { if idx in p.emitted then p.emitted[idx] else 0 }

  /** A text may be cut at its ends and before a byte that begins a character. */
  predicate CharBoundary(text: seq<byte>, at: nat) {
    at == 0 || at == |text| || (at < |text| && !Continuation(text[at]))
  }

  // ----- One poll -----

  function OnText(p: Progress, idx: int, text: seq<byte>, d: Display): Polled {
    var from := Emitted(p, idx);
    if |text| <= from then Polled(p, [])
    else if !d.shown && d.narration(text) then Polled(p.(emitted := p.emitted[idx := |text|]), [])
    else if !CharBoundary(text, from) then Panicked
    else Polled(p.(emitted := p.emitted[idx := |text|]), [Chunk(idx, text[from..])])
  }

  function OnTool(p: Progress, idx: int, stepType: int, call: Call): Polled {
    if idx in p.tools then Polled(p, [])
    else Polled(p.(tools := p.tools + {idx}), [ToolCall(idx, stepType, call), ToolCallUpdate(idx, stepType, call)])
  }

  function OnRow(p: Progress, row: Row, d: Display): Polled {
    var seen := p.(last := Max(p.last, row.idx));
    if TextOf(row).Some? then OnText(seen, row.idx, TextOf(row).value, d)
    else if ToolOf(row).Some? then OnTool(seen, row.idx, row.stepType, ToolOf(row).value)
    else Polled(seen, [])
  }

  /** Rows in order, over one poll or over many. */
  function OnRows(p: Progress, rows: seq<Row>, d: Display): Polled {
    if rows == [] then Polled(p, [])
    else match OnRows(p, rows[..|rows| - 1], d)
         case Panicked => Panicked
         case Polled(q, before) =>
           match OnRow(q, rows[|rows| - 1], d)
           case Panicked => Panicked
           case Polled(next, now) => Polled(next, before + now)
  }

  class StreamingState {
    const baseStepIdx: int
    var lastStepIdx: int
    var emittedLen: map<int, nat>
    var emittedToolSteps: set<int>
    var hadUpdates: bool

    ghost function View(): Progress
      reads this
    {
      Progress(lastStepIdx, emittedLen, emittedToolSteps)
    }

    constructor (baseIdx: int)
      ensures baseStepIdx == baseIdx && View() == Progress(baseIdx, map[], {}) && !hadUpdates
    {
      baseStepIdx, lastStepIdx, emittedLen, emittedToolSteps, hadUpdates := baseIdx, baseIdx, map[], {}, false;
    }

    method PollStreamingDelta(rows: seq<Row>, d: Display) returns (panicked: bool, updates: seq<Update>)
      modifies this
      ensures panicked <==> OnRows(old(View()), rows, d).Panicked?
      ensures !panicked ==> OnRows(old(View()), rows, d) == Polled(View(), updates)
      ensures !panicked ==> hadUpdates == (old(hadUpdates) || updates != [])
    {
      updates, panicked := [], false;
      ghost var start := View();
      for i := 0 to |rows|
        invariant OnRows(start, rows[..i], d) == Polled(View(), updates)
        invariant hadUpdates == old(hadUpdates)
      {
        ghost var p := View();
        RowsStep(start, rows, i, d);
        var now: seq<Update>;
        panicked, now := PollRow(rows[i], d);
        if panicked {
          PanicStays(start, rows, i + 1, d);
          return;
        }
        updates := updates + now;
      }
      assert rows[..|rows|] == rows;
      hadUpdates := hadUpdates || updates != [];
    }

    method PollRow(row: Row, d: Display) returns (panicked: bool, now: seq<Update>)
      modifies this
      ensures panicked <==> OnRow(old(View()), row, d).Panicked?
      ensures !panicked ==> OnRow(old(View()), row, d) == Polled(View(), now)
      ensures hadUpdates == old(hadUpdates)
    {
      hide ExtractText, CallOf;
      now, panicked := [], false;
      lastStepIdx := Max(lastStepIdx, row.idx);
      if row.stepType == 15 {
        var text := TextOf(row);
        if text.None? {
          return;
        }
        var emitted := if row.idx in emittedLen then emittedLen[row.idx] else 0;
        if |text.value| <= emitted {
          return;
        }
        if !d.shown && d.narration(text.value) {
          emittedLen := emittedLen[row.idx := |text.value|];
          return;
        }
        if !CharBoundary(text.value, emitted) {
          panicked := true;
          return;
        }
        var newText := text.value[emitted..];
        emittedLen := emittedLen[row.idx := |text.value|];
        if newText != [] {
          now := [Chunk(row.idx, newText)];
        }
      } else if IsToolStep(row.stepType) && row.idx !in emittedToolSteps {
        var call := CallOf(row.payload);
        if call.Some? {
          emittedToolSteps := emittedToolSteps + {row.idx};
          now := [ToolCall(row.idx, row.stepType, call.value), ToolCallUpdate(row.idx, row.stepType, call.value)];
        }
      }
    }
  }

  lemma RowsStep(p: Progress, rows: seq<Row>, i: nat, d: Display)
    requires i < |rows|
    ensures OnRows(p, rows[..i + 1], d) ==
      match OnRows(p, rows[..i], d)
      case Panicked => Panicked
      case Polled(q, before) =>
        match OnRow(q, rows[i], d)
        case Panicked => Panicked
        case Polled(next, now) => Polled(next, before + now)
  {
    hide OnRow;
    assert rows[..i + 1][..i] == rows[..i];
  }

  lemma {:induction false} PanicStays(p: Progress, rows: seq<Row>, i: nat, d: Display)
    requires i <= |rows| && OnRows(p, rows[..i], d).Panicked?
    ensures OnRows(p, rows, d).Panicked?
    decreases |rows| - i
  {
    if i < |rows| {
      RowsStep(p, rows, i, d);
      PanicStays(p, rows, i + 1, d);
    } else {
      assert rows[..i] == rows;
    }
  }
}
