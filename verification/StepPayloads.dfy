/** What is read from a step's payload: its text and its tool call, field by field, and nothing from a broken one. */
module StepPayloads {
  import opened Base
  import opened Protobuf
  import opened Streaming

  predicate AllFit(fields: seq<Field>) { (forall f :: f in fields ==> Fits(f)) && |Encode(fields)| < TWO64 }

  // ----- Broken blobs -----

  /** Behind well-formed fields, a field the scan cannot read past: an unknown wire type, or a length beyond the end. */
  datatype Break = UnknownWire(number: nat, wire: nat, rest: seq<byte>)
                 | TooLong(number: nat, length: nat, rest: seq<byte>)
                 | Unfinished(bytes: seq<byte>)

  predicate IsBreak(b: Break) {
    match b
    case UnknownWire(n, w, _) => w in {3, 4, 6, 7} && 8 * n + w < TWO64
    case TooLong(n, len, rest) => 8 * n + 2 < TWO64 && |rest| < len < TWO64
    case Unfinished(bytes) => bytes != [] && forall i :: 0 <= i < |bytes| ==> bytes[i] >= 0x80
  }

  function Broken(b: Break): seq<byte> {
    match b
    case UnknownWire(n, w, rest) => EncodeVarint(8 * n + w) + rest
    case TooLong(n, len, rest) => EncodeVarint(8 * n + 2) + (EncodeVarint(len) + rest)
    case Unfinished(bytes) => bytes
  }

  lemma {:induction false} NoVarint(bytes: seq<byte>, k: nat)
    requires k <= 10 && forall i :: 0 <= i < |bytes| ==> bytes[i] >= 0x80
    ensures Groups(bytes, k).None?
    decreases 10 - k
  {
    if bytes != [] && k < 10 {
      NoVarint(bytes[1..], k + 1);
    }
  }

  lemma StopsAtWire(blob: seq<byte>, before: seq<byte>, n: nat, w: nat, rest: seq<byte>, target: nat)
    requires w in {3, 4, 6, 7} && 8 * n + w < TWO64 && blob == before + (EncodeVarint(8 * n + w) + rest)
    ensures Scan(blob, |before|, target).Absent?
  {
    hide Scan, EncodeVarint;
    assert blob == before + EncodeVarint(8 * n + w) + rest;
    ScanTagged(blob, before, n, w, rest, target);
  }

  lemma StopsAtLength(blob: seq<byte>, before: seq<byte>, n: nat, len: u64, rest: seq<byte>, target: nat)
    requires 8 * n + 2 < TWO64 && |rest| < len && |blob| + len < TWO64
    requires blob == before + (EncodeVarint(8 * n + 2) + (EncodeVarint(len) + rest))
    ensures Scan(blob, |before|, target).Absent?
  {
    hide Scan, ScanField, EncodeVarint;
    var tag, bytes := EncodeVarint(8 * n + 2), EncodeVarint(len);
    assert blob == before + tag + (bytes + rest);
    ScanTagged(blob, before, n, 2, bytes + rest, target);
    assert blob == (before + tag) + bytes + rest;
    ScanLengthBody(blob, before + tag, n, len, rest, target);
  }

  lemma StopsUnfinished(blob: seq<byte>, before: seq<byte>, bytes: seq<byte>, target: nat)
    requires blob == before + bytes && bytes != [] && forall i :: 0 <= i < |bytes| ==> bytes[i] >= 0x80
    ensures Scan(blob, |before|, target).Absent?
  {
    hide ScanField, Groups;
    assert blob[|before|..] == bytes;
    NoVarint(bytes, 0);
  }

  lemma ScanStops(blob: seq<byte>, before: seq<byte>, b: Break, target: nat)
    requires IsBreak(b) && blob == before + Broken(b) && (b.TooLong? ==> |blob| + b.length < TWO64)
    ensures Scan(blob, |before|, target).Absent?
  {
    hide Scan, EncodeVarint;
    match b
    case UnknownWire(n, w, rest) => StopsAtWire(blob, before, n, w, rest, target);
    case TooLong(n, len, rest) => StopsAtLength(blob, before, n, len, rest, target);
    case Unfinished(bytes) => StopsUnfinished(blob, before, bytes, target);
  }

  /** A field in front of the break is found, nothing behind it is. */
  lemma BrokenBlob(fields: seq<Field>, b: Break, target: nat)
    requires AllFit(fields) && IsBreak(b) && |Encode(fields) + Broken(b)| < TWO64
    requires b.TooLong? ==> |Encode(fields) + Broken(b)| + b.length < TWO64
    ensures GetField(Encode(fields) + Broken(b), target) == FirstDelimited(fields, target)
  {
    hide Scan, Encode, Broken, IsBreak, FirstDelimited;
    assert [] + Encode(fields) + Broken(b) == Encode(fields) + Broken(b);
    assert [] + Encode(fields) == Encode(fields);
    ScanPast([], fields, Broken(b), target);
    ScanStops(Encode(fields) + Broken(b), Encode(fields), b, target);
    FirstIsFoundOrAbsent(fields, target);
  }

  // ----- The text of a step -----

  /** A field's bytes, if they are there and valid UTF-8. */
  function TextField(fields: seq<Field>, number: nat): Option<seq<byte>> {
    var r := FirstDelimited(fields, number);
    if r.Found? && Utf8(r.bytes) then Some(r.bytes) else None
  }

  /** Without field 20, or with a step that has no valid field 1, there is no text. */
  lemma NoTextWithoutFields(fields: seq<Field>, step: seq<Field>)
    requires AllFit(fields) && AllFit(step)
    ensures FirstDelimited(fields, 20).Absent? ==> ExtractText(Encode(fields)).Absent?
    ensures FirstDelimited(fields, 20) == Found(Encode(step)) ==>
          Bytes(ExtractText(Encode(fields))) == TextField(step, 1)
  {
    FieldRoundTrip(fields, 20);
    FieldRoundTrip(step, 1);
    FirstIsFoundOrAbsent(step, 1);
    hide Encode, Scan, FirstDelimited, Utf8;
  }

  // ----- The call of a tool step -----

  /** The call in field 4 of field 5: field 2 names it, or field 9 if that is missing or no text; an empty name is none;
      field 3 is its input. */
  function CallIn(call: seq<Field>): Option<Call> {
    var name := if TextField(call, 2).Some? then TextField(call, 2) else TextField(call, 9);
    if name.None? || name.value == [] then None else Some(Call(name.value, TextField(call, 3)))
  }

  lemma GetTextIs(fields: seq<Field>, number: nat)
    requires AllFit(fields)
    ensures GetText(Encode(fields), number) == TextField(fields, number)
  {
    FieldRoundTrip(fields, number);
    FirstIsFoundOrAbsent(fields, number);
    hide Encode, Scan, FirstDelimited, Utf8;
  }

  lemma CallOfFields(step: seq<Field>, tool: seq<Field>, call: seq<Field>)
    requires AllFit(step) && AllFit(tool) && AllFit(call)
    ensures FirstDelimited(step, 5).Absent? ==> CallOf(Encode(step)).None?
    ensures FirstDelimited(step, 5) == Found(Encode(tool)) && FirstDelimited(tool, 4).Absent? ==>
          CallOf(Encode(step)).None?
    ensures FirstDelimited(step, 5) == Found(Encode(tool)) && FirstDelimited(tool, 4) == Found(Encode(call)) ==>
          CallOf(Encode(step)) == CallIn(call)
  {
    FieldRoundTrip(step, 5);
    FieldRoundTrip(tool, 4);
    GetTextIs(call, 2);
    GetTextIs(call, 3);
    GetTextIs(call, 9);
    hide Encode, Scan, FirstDelimited, Utf8, TextField;
  }

  /** A row is read as a text if its step type is 15, and as a call if it is one of the tool step types. */
  lemma RowIsRead(row: Row, fields: seq<Field>, step: seq<Field>, tool: seq<Field>, call: seq<Field>)
    requires AllFit(fields) && AllFit(step) && AllFit(tool) && AllFit(call) && row.payload == Encode(fields)
    ensures row.stepType != 15 ==> TextOf(row).None?
    ensures row.stepType !in {5, 7, 8, 9, 17, 21, 33, 101, 138} ==> ToolOf(row).None?
    ensures FirstDelimited(fields, 20) == Found(Encode(step)) && row.stepType == 15 ==>
          TextOf(row) == TextField(step, 1)
    ensures FirstDelimited(fields, 5) == Found(Encode(tool)) && FirstDelimited(tool, 4) == Found(Encode(call)) ==>
          (row.stepType in {5, 7, 8, 9, 17, 21, 33, 101, 138} ==> ToolOf(row) == CallIn(call))
  {
    NoTextWithoutFields(fields, step);
    CallOfFields(fields, tool, call);
    hide Encode, ExtractText, CallOf, FirstDelimited, CallIn, TextField;
  }
}
