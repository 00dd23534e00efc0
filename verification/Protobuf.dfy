/** Reading protobuf blobs: base-128 varints, the scan for a length-delimited field, and text extraction. */
module Protobuf {
  import opened Base

  type byte = x: int | 0 <= x < 0x100
  const TWO64 := 0x1_0000_0000_0000_0000
  type u64 = x: int | 0 <= x < TWO64

  // ----- Varints -----

  /** The value of the varint whose group `k` is first, and its length. At most ten groups are read, and of the tenth
      only the bit that still fits a 64-bit value. */
  function Groups(buf: seq<byte>, k: nat): (r: Option<(nat, nat)>)
    requires k <= 10
    ensures r.Some? ==> 1 <= r.value.1 <= |buf|
    decreases 10 - k
  {
    if buf == [] || k == 10 then None
    else if buf[0] < 0x80 then Some((if k == 9 then buf[0] % 2 else buf[0], 1))
    else match Groups(buf[1..], k + 1)
         case None => None
         case Some((rest, n)) => Some((buf[0] % 0x80 + 0x80 * rest, n + 1))
  }

  function Varint(buf: seq<byte>): (r: Option<(nat, nat)>)
    ensures r.Some? ==> 1 <= r.value.1 <= |buf|
  {
    Groups(buf, 0)
  }

  /** The value of one unit of group `k`. */
  function Weight(k: nat): (w: nat)
    ensures w > 0
  {
    if k == 0 then 1 else 0x80 * Weight(k - 1)
  }

  lemma WeightsFit(k: nat)
    requires k <= 9
    ensures Weight(9) == 0x8000_0000_0000_0000
    ensures k < 9 ==> 0x80 * Weight(k) <= Weight(9)
  {
    assert Weight(1) == 0x80 && Weight(2) == 0x4000 && Weight(3) == 0x20_0000;
    assert Weight(4) == 0x1000_0000 && Weight(5) == 0x8_0000_0000 && Weight(6) == 0x400_0000_0000;
    assert Weight(7) == 0x2_0000_0000_0000 && Weight(8) == 0x100_0000_0000_0000;
  }

  /** A group shifted to its place in a 64-bit word. */
  function Shifted(group: nat, k: nat): nat { (group * Weight(k)) % TWO64 }

  /** Shifting a group into place keeps all of it, except for the tenth. */
  lemma ShiftedGroup(k: nat, group: nat)
    requires k <= 9 && group < 0x80
    ensures Shifted(group, k) == (if k == 9 then group % 2 else group) * Weight(k)
  {
    WeightsFit(k);
    hide Weight;
    if k < 9 {
      FitsInWord(group, Weight(k));
    }
  }

  lemma FitsInWord(group: nat, w: nat)
    requires group < 0x80 && 0x80 * w <= 0x8000_0000_0000_0000
    ensures group * w % TWO64 == group * w
  {
    assert group * w <= 0x80 * w;
  }

  lemma Regroup(result: nat, w: nat, group: nat, rest: nat)
    ensures result + w * (group + 0x80 * rest) == result + group * w + (0x80 * w) * rest
  {
  }

  /** What the loop still has to add. */
  function Combined(result: nat, i: nat, rest: Option<(nat, nat)>): Option<(nat, nat)> {
    match rest
    case None => None
    case Some((v, n)) => Some((result + Weight(i) * v, i + n))
  }

  lemma CombinedStep(buf: seq<byte>, result: nat, i: nat)
    requires i < |buf| && i < 10
    ensures var more := result + Shifted(buf[i] % 0x80, i);
      Combined(result, i, Groups(buf[i..], i)) ==
        if buf[i] < 0x80 then Some((more, i + 1)) else Combined(more, i + 1, Groups(buf[i + 1..], i + 1))
  {
    hide Weight, Groups, Shifted;
    var group, tail := buf[i] % 0x80, buf[i + 1..];
    GroupsFrom(buf, i);
    ShiftedGroup(i, group);
    if buf[i] >= 0x80 && i < 9 {
      NextWeight(i);
      if Groups(tail, i + 1).Some? {
        Regroup(result, Weight(i), group, Groups(tail, i + 1).value.0);
      }
    }
  }

  lemma GroupsFrom(buf: seq<byte>, i: nat)
    requires i < |buf| && i < 10
    ensures var group, rest := buf[i] % 0x80, Groups(buf[i + 1..], i + 1);
      Groups(buf[i..], i) ==
        if buf[i] < 0x80 then Some((if i == 9 then group % 2 else group, 1))
        else if rest.None? then None
        else Some((group + 0x80 * rest.value.0, rest.value.1 + 1))
    ensures i == 9 ==> Groups(buf[i + 1..], i + 1).None?
  {
    assert buf[i..][0] == buf[i] && buf[i..][1..] == buf[i + 1..];
  }

  lemma NextWeight(k: nat)
    ensures Weight(k + 1) == 0x80 * Weight(k)
  {
  }

  /** Bitwise or, bit by bit. */
  function Or(a: nat, b: nat): nat {
    if a == 0 then b else (if a % 2 == 1 || b % 2 == 1 then 1 else 0) + 2 * Or(a / 2, b / 2)
  }

  function Power2(n: nat): (p: nat)
    ensures p > 0
  {
    if n == 0 then 1 else 2 * Power2(n - 1)
  }

  lemma HalfMultiple(c: nat, p: nat)
    ensures (c * (2 * p)) % 2 == 0 && (c * (2 * p)) / 2 == c * p
  {
    assert c * (2 * p) == 2 * (c * p);
  }

  /** Or-ing a number into the zero bits below another is adding it. */
  lemma {:induction false} OrBelow(a: nat, c: nat, n: nat)
    requires a < Power2(n)
    ensures Or(a, c * Power2(n)) == a + c * Power2(n)
  {
    if n > 0 && a > 0 {
      HalfMultiple(c, Power2(n - 1));
      OrBelow(a / 2, c, n - 1);
    }
  }

  lemma {:induction false} WeightIsPower(k: nat)
    ensures Weight(k) == Power2(7 * k)
  {
    if k > 0 {
      WeightIsPower(k - 1);
      var n := 7 * (k - 1);
      assert Power2(n + 2) == 4 * Power2(n) && Power2(n + 4) == 4 * Power2(n + 2) && Power2(n + 6) == 4 * Power2(n + 4);
    }
  }

  /** The groups occupy disjoint bits, so the bitwise or that gathers them is a sum. */
  lemma OrIsSum(result: nat, group: nat, k: nat)
    requires k <= 9 && result < Weight(k) && group < 0x80
    ensures Or(result, Shifted(group, k)) == result + Shifted(group, k) < Weight(k + 1)
  {
    ShiftedGroup(k, group);
    WeightIsPower(k);
    NextWeight(k);
    var kept := if k == 9 then group % 2 else group;
    OrBelow(result, kept, 7 * k);
    hide Weight, Power2, Or, Shifted;
    Fits128(result, kept, Weight(k));
  }

  lemma Fits128(result: nat, kept: nat, w: nat)
    requires result < w && kept < 0x80
    ensures result + kept * w < 0x80 * w
  {
    assert (kept + 1) * w <= 0x80 * w;
  }

  /** The loop's state: `result` gathers the first `i` groups, and the rest completes the varint. */
  ghost predicate Gathering(buf: seq<byte>, result: nat, i: nat) {
    i <= |buf| && i <= 10 && result < Weight(i) && Combined(result, i, Groups(buf[i..], i)) == Varint(buf)
  }

  lemma GatherBegins(buf: seq<byte>)
    ensures Gathering(buf, 0, 0)
  {
    assert buf[0..] == buf;
  }

  lemma GatherStep(buf: seq<byte>, result: nat, i: nat)
    requires Gathering(buf, result, i) && i < |buf| && i < 10
    ensures var more := Or(result, Shifted(buf[i] % 0x80, i));
      if buf[i] < 0x80 then Varint(buf) == Some((more, i + 1)) else Gathering(buf, more, i + 1)
  {
    hide *;
    GatheringMeans(buf, result, i);
    CombinedStep(buf, result, i);
    OrIsSum(result, buf[i] % 0x80, i);
    if buf[i] >= 0x80 {
      GatheringIs(buf, Or(result, Shifted(buf[i] % 0x80, i)), i + 1);
    }
  }

  lemma GatheringMeans(buf: seq<byte>, result: nat, i: nat)
    requires Gathering(buf, result, i)
    ensures i <= |buf| && i <= 10 && result < Weight(i) && Combined(result, i, Groups(buf[i..], i)) == Varint(buf)
  {
  }

  lemma GatheringIs(buf: seq<byte>, result: nat, i: nat)
    requires i <= |buf| && i <= 10 && result < Weight(i) && Combined(result, i, Groups(buf[i..], i)) == Varint(buf)
    ensures Gathering(buf, result, i)
  {
  }

  lemma GatherFails(buf: seq<byte>, result: nat, i: nat)
    requires Gathering(buf, result, i) && (i == |buf| || i == 10)
    ensures Varint(buf) == None
  {
  }

  method ReadVarint(buf: seq<byte>) returns (r: Option<(nat, nat)>)
    ensures r == Varint(buf)
  {
    hide Gathering, Weight, Or, Varint, Shifted;
    var result: nat, i: nat := 0, 0;
    GatherBegins(buf);
    while i < |buf|
      invariant i <= |buf| && i <= 10 && Gathering(buf, result, i)
    {
      if i >= 10 {
        GatherFails(buf, result, i);
        return None;
      }
      GatherStep(buf, result, i);
      result := Or(result, Shifted(buf[i] % 0x80, i));
      if buf[i] < 0x80 {
        return Some((result, i + 1));
      }
      i := i + 1;
    }
    GatherFails(buf, result, i);
    return None;
  }

  function EncodeVarint(n: nat): (bytes: seq<byte>)
    ensures bytes != []
  {
    if n < 0x80 then [n] else [n % 0x80 + 0x80] + EncodeVarint(n / 0x80)
  }

  /** How many values fit from group `k` on. */
  function Room(k: nat): nat
    requires k <= 9
    decreases 9 - k
  {
    if k == 9 then 2 else 0x80 * Room(k + 1)
  }

  lemma RoomForAll()
    ensures Room(0) == TWO64
  {
    assert Room(7) == 0x8000 && Room(5) == 0x2000_0000 && Room(3) == 0x800_0000_0000;
    assert Room(1) == 0x200_0000_0000_0000;
  }

  lemma {:induction false} GroupsOfEncoded(n: nat, suffix: seq<byte>, k: nat)
    requires k <= 9 && n < Room(k)
    ensures Groups(EncodeVarint(n) + suffix, k) == Some((n, |EncodeVarint(n)|))
    decreases 9 - k
  {
    var s := EncodeVarint(n) + suffix;
    if n >= 0x80 {
      var head := n % 0x80 + 0x80;
      assert s[0] == head && s[1..] == EncodeVarint(n / 0x80) + suffix;
      GroupsOfEncoded(n / 0x80, suffix, k + 1);
      assert head % 0x80 == n % 0x80;
    } else {
      assert s[0] == n;
    }
  }

  /** Every 64-bit value is read back, with its length, whatever bytes follow. */
  lemma VarintRoundTrip(n: u64, suffix: seq<byte>)
    ensures Varint(EncodeVarint(n) + suffix) == Some((n, |EncodeVarint(n)|))
  {
    RoomForAll();
    GroupsOfEncoded(n, suffix, 0);
  }

  lemma RoomPositive(k: nat)
    requires k <= 9
    ensures Room(k) >= 1
    decreases 9 - k
  {
  }

  lemma {:induction false} GroupsBound(buf: seq<byte>, k: nat)
    requires k <= 9 && Groups(buf, k).Some?
    ensures Groups(buf, k).value.0 < Room(k) && k + Groups(buf, k).value.1 <= 10
    decreases 9 - k
  {
    if buf[0] >= 0x80 {
      GroupsBound(buf[1..], k + 1);
    } else if k < 9 {
      RoomPositive(k + 1);
    }
  }

  /** A varint that is read fits 64 bits and takes at most ten bytes. */
  lemma VarintFits(buf: seq<byte>)
    ensures Varint(buf).Some? ==> Varint(buf).value.0 < TWO64 && Varint(buf).value.1 <= 10
  {
    RoomForAll();
    if Varint(buf).Some? {
      GroupsBound(buf, 0);
    }
  }

  // ----- The field scan -----

  /** A field found, none, or a length so large that adding it to the position overflows. */
  datatype Lookup = Found(bytes: seq<byte>) | Absent | Overflows

  /** The scan for the first length-delimited field numbered `target`, from position `i`. */
  function Scan(blob: seq<byte>, i: nat, target: nat): Lookup
    decreases |blob| - i
  {
    if i >= |blob| then Absent
    else match Varint(blob[i..])
         case None => Absent
         case Some((tag, c)) => ScanField(blob, i + c, tag / 8, tag % 8, target)
  }

  function ScanField(blob: seq<byte>, j: nat, number: nat, wire: nat, target: nat): Lookup
    requires j <= |blob|
    decreases |blob| - j, 1
  {
    if wire == 0 then
      match Varint(blob[j..])
      case None => Absent
      case Some((_, c)) => Scan(blob, j + c, target)
    else if wire == 2 then
      match Varint(blob[j..])
      case None => Absent
      case Some((len, c)) =>
        if j + c + len >= TWO64 then Overflows
        else if j + c + len > |blob| then Absent
        else if number == target then Found(blob[j + c..j + c + len])
        else Scan(blob, j + c + len, target)
    else if wire == 5 then Scan(blob, j + 4, target)
    else if wire == 1 then Scan(blob, j + 8, target)
    else Absent
  }

  function GetField(blob: seq<byte>, target: nat): Lookup { Scan(blob, 0, target) }

  method GetProtoField(blob: seq<byte>, target: nat) returns (r: Lookup)
    ensures r == GetField(blob, target)
  {
    hide Varint;
    var i: nat := 0;
    while i < |blob|
      invariant Scan(blob, i, target) == GetField(blob, target)
      decreases |blob| - i
    {
      var tagRead := ReadVarint(blob[i..]);
      if tagRead.None? {
        return Absent;
      }
      var (tag, consumed) := tagRead.value;
      i := i + consumed;
      var number, wire := tag / 8, tag % 8;
      if wire == 0 {
        var skipped := ReadVarint(blob[i..]);
        if skipped.None? {
          return Absent;
        }
        i := i + skipped.value.1;
      } else if wire == 2 {
        var lengthRead := ReadVarint(blob[i..]);
        if lengthRead.None? {
          return Absent;
        }
        var (len, c) := lengthRead.value;
        i := i + c;
        if i + len >= TWO64 {
          return Overflows;
        }
        if i + len > |blob| {
          return Absent;
        }
        if number == target {
          return Found(blob[i..i + len]);
        }
        i := i + len;
      } else if wire == 5 {
        i := i + 4;
      } else if wire == 1 {
        i := i + 8;
      } else {
        return Absent;
      }
    }
    return Absent;
  }

  // ----- Well-formed blobs -----

  /** A field of each wire type the scan accepts. */
  datatype Field =
    | VarintField(number: nat, value: nat)
    | Fixed64(number: nat, bytes: seq<byte>)
    | Delimited(number: nat, bytes: seq<byte>)
    | Fixed32(number: nat, bytes: seq<byte>)

  predicate Fits(f: Field) {
    && 8 * f.number + 7 < TWO64
    && match f
       case VarintField(_, v) => v < TWO64
       case Fixed64(_, b) => |b| == 8
       case Delimited(_, b) => |b| < TWO64
       case Fixed32(_, b) => |b| == 4
  }

  function Wire(f: Field): nat {
    match f
    case VarintField(_, _) => 0
    case Fixed64(_, _) => 1
    case Delimited(_, _) => 2
    case Fixed32(_, _) => 5
  }

  function Body(f: Field): seq<byte> {
    match f
    case VarintField(_, v) => EncodeVarint(v)
    case Fixed64(_, b) => b
    case Delimited(_, b) => EncodeVarint(|b|) + b
    case Fixed32(_, b) => b
  }

  function EncodeField(f: Field): seq<byte> { EncodeVarint(8 * f.number + Wire(f)) + Body(f) }

  function Encode(fields: seq<Field>): seq<byte> {
    if fields == [] then [] else EncodeField(fields[0]) + Encode(fields[1..])
  }

  /** The first length-delimited field with the number, if there is one. */
  function FirstDelimited(fields: seq<Field>, target: nat): Lookup {
    if fields == [] then Absent
    else if fields[0].Delimited? && fields[0].number == target then Found(fields[0].bytes)
    else FirstDelimited(fields[1..], target)
  }

  lemma TagSplits(number: nat, wire: nat)
    requires wire < 8
    ensures (8 * number + wire) / 8 == number && (8 * number + wire) % 8 == wire
  {
  }

  lemma ScanTagged(blob: seq<byte>, before: seq<byte>, number: nat, wire: nat, rest: seq<byte>, target: nat)
    requires wire < 8 && 8 * number + wire < TWO64 && blob == before + EncodeVarint(8 * number + wire) + rest
    ensures Scan(blob, |before|, target)
         == ScanField(blob, |before + EncodeVarint(8 * number + wire)|, number, wire, target)
  {
    hide Varint, EncodeVarint, ScanField;
    assert blob[|before|..] == EncodeVarint(8 * number + wire) + rest;
    VarintRoundTrip(8 * number + wire, rest);
    TagSplits(number, wire);
  }

  lemma ScanTag(blob: seq<byte>, before: seq<byte>, f: Field, rest: seq<byte>, target: nat)
    requires Fits(f) && blob == before + EncodeField(f) + rest
    ensures var tag := EncodeVarint(8 * f.number + Wire(f));
      && blob == before + tag + Body(f) + rest
      && Scan(blob, |before|, target) == ScanField(blob, |before + tag|, f.number, Wire(f), target)
  {
    hide Scan, ScanField, EncodeVarint, Body;
    var tag := EncodeVarint(8 * f.number + Wire(f));
    assert before + (tag + Body(f)) + rest == before + tag + (Body(f) + rest);
    assert before + tag + (Body(f) + rest) == before + tag + Body(f) + rest;
    ScanTagged(blob, before, f.number, Wire(f), Body(f) + rest, target);
  }

  lemma ScanLengthBody(blob: seq<byte>, head: seq<byte>, number: nat, len: u64, rest: seq<byte>, target: nat)
    requires blob == head + EncodeVarint(len) + rest
    ensures var end := |head + EncodeVarint(len)| + len;
      ScanField(blob, |head|, number, 2, target) ==
        if end >= TWO64 then Overflows
        else if end > |blob| then Absent
        else if number == target then Found(blob[end - len..end])
        else Scan(blob, end, target)
  {
    hide Varint, EncodeVarint, Scan;
    assert blob[|head|..] == EncodeVarint(len) + rest;
    VarintRoundTrip(len, rest);
  }

  lemma ScanVarintBody(blob: seq<byte>, head: seq<byte>, f: Field, rest: seq<byte>, target: nat)
    requires Fits(f) && f.VarintField? && blob == head + Body(f) + rest
    ensures ScanField(blob, |head|, f.number, 0, target) == Scan(blob, |head + Body(f)|, target)
  {
    hide Varint, EncodeVarint, Scan;
    assert blob[|head|..] == EncodeVarint(f.value) + rest;
    VarintRoundTrip(f.value, rest);
  }

  lemma ScanDelimitedBody(blob: seq<byte>, head: seq<byte>, f: Field, rest: seq<byte>, target: nat)
    requires Fits(f) && f.Delimited? && blob == head + Body(f) + rest && |blob| < TWO64
    ensures ScanField(blob, |head|, f.number, 2, target)
         == if f.number == target then Found(f.bytes) else Scan(blob, |head + Body(f)|, target)
  {
    hide Varint, EncodeVarint, Scan;
    var len := EncodeVarint(|f.bytes|);
    assert blob[|head|..] == len + (f.bytes + rest);
    VarintRoundTrip(|f.bytes|, f.bytes + rest);
    assert blob == head + len + f.bytes + rest;
    assert blob[|head + len|..|head + len| + |f.bytes|] == f.bytes;
  }

  /** One field: found if it is the one looked for, else skipped exactly. */
  lemma ScanOne(blob: seq<byte>, before: seq<byte>, f: Field, rest: seq<byte>, target: nat)
    requires Fits(f) && blob == before + EncodeField(f) + rest && |blob| < TWO64
    ensures Scan(blob, |before|, target)
         == if f.Delimited? && f.number == target then Found(f.bytes) else Scan(blob, |before + EncodeField(f)|, target)
  {
    hide Varint, EncodeVarint, Scan;
    ScanTag(blob, before, f, rest, target);
    var head := before + EncodeVarint(8 * f.number + Wire(f));
    assert |before + EncodeField(f)| == |head + Body(f)|;
    match f
    case VarintField(_, _) => ScanVarintBody(blob, head, f, rest, target);
    case Delimited(_, _) => ScanDelimitedBody(blob, head, f, rest, target);
    case Fixed64(_, _) =>
    case Fixed32(_, _) =>
  }

  /** Well-formed fields are scanned in turn: the first match is found, or the scan goes on behind them. */
  lemma {:induction false} ScanPast(before: seq<byte>, fields: seq<Field>, after: seq<byte>, target: nat)
    requires forall f :: f in fields ==> Fits(f)
    requires |before + Encode(fields) + after| < TWO64
    ensures var blob := before + Encode(fields) + after;
      Scan(blob, |before|, target) ==
        if FirstDelimited(fields, target).Found? then FirstDelimited(fields, target)
        else Scan(blob, |before + Encode(fields)|, target)
    decreases |fields|
  {
    hide EncodeField, Scan;
    if fields != [] {
      var f, rest := fields[0], Encode(fields[1..]);
      var blob := before + Encode(fields) + after;
      assert blob == before + EncodeField(f) + (rest + after);
      ScanOne(blob, before, f, rest + after, target);
      assert before + EncodeField(f) + rest + after == blob;
      assert |before + EncodeField(f) + rest| == |before + Encode(fields)|;
      ScanPast(before + EncodeField(f), fields[1..], after, target);
    }
  }

  lemma {:induction false} FirstIsFoundOrAbsent(fields: seq<Field>, target: nat)
    ensures !FirstDelimited(fields, target).Overflows?
  {
    if fields != [] {
      FirstIsFoundOrAbsent(fields[1..], target);
    }
  }

  /** On every well-formed blob the scan returns the first matching length-delimited field, or none. */
  lemma FieldRoundTrip(fields: seq<Field>, target: nat)
    requires forall f :: f in fields ==> Fits(f)
    requires |Encode(fields)| < TWO64
    ensures GetField(Encode(fields), target) == FirstDelimited(fields, target)
  {
    hide Scan, Encode, FirstDelimited;
    assert [] + Encode(fields) + [] == Encode(fields);
    ScanPast([], fields, [], target);
    EndOfBlob(Encode(fields), target);
    FirstIsFoundOrAbsent(fields, target);
  }

  lemma ScanLength(blob: seq<byte>, before: seq<byte>, number: nat, len: u64, rest: seq<byte>, target: nat)
    requires 8 * number + 2 < TWO64
    requires blob == before + EncodeVarint(8 * number + 2) + EncodeVarint(len) + rest
    ensures var end := |before + EncodeVarint(8 * number + 2) + EncodeVarint(len)| + len;
      && (end >= TWO64 ==> Scan(blob, |before|, target) == Overflows)
      && (end < TWO64 && number == target ==> Scan(blob, |before|, target) != Overflows)
  {
    hide Scan, ScanField, EncodeVarint;
    var tag, bytes := EncodeVarint(8 * number + 2), EncodeVarint(len);
    assert blob == before + tag + (bytes + rest);
    ScanTagged(blob, before, number, 2, bytes + rest, target);
    ScanLengthBody(blob, before + tag, number, len, rest, target);
  }

  /** Behind any well-formed fields, none of them the one looked for, a length that reaches 2^64 when it is added to
      the position overflows it; for the field looked for, nothing else does. */
  lemma OversizedLength(fields: seq<Field>, number: nat, len: u64, rest: seq<byte>, target: nat)
    requires (forall f :: f in fields ==> Fits(f)) && FirstDelimited(fields, target).Absent? && 8 * number + 2 < TWO64
    requires |Encode(fields) + EncodeVarint(8 * number + 2) + EncodeVarint(len) + rest| < TWO64
    ensures var head := Encode(fields) + EncodeVarint(8 * number + 2) + EncodeVarint(len);
      && (|head| + len >= TWO64 ==> GetField(head + rest, target).Overflows?)
      && (number == target ==> (GetField(head + rest, target).Overflows? <==> |head| + len >= TWO64))
  {
    hide Scan, Encode, EncodeVarint, FirstDelimited;
    var tag, bytes := EncodeVarint(8 * number + 2), EncodeVarint(len);
    assert [] + Encode(fields) + (tag + bytes + rest) == Encode(fields) + tag + bytes + rest;
    assert |[] + Encode(fields)| == |Encode(fields)|;
    ScanPast([], fields, tag + bytes + rest, target);
    ScanLength(Encode(fields) + tag + bytes + rest, Encode(fields), number, len, rest, target);
  }

  lemma EndOfBlob(blob: seq<byte>, target: nat)
    ensures Scan(blob, |blob|, target) == Absent
  {
  }

  // ----- Text -----

  predicate Continuation(b: byte) { 0x80 <= b < 0xC0 }

  /** The length of a character by its first byte; 0 if no character begins with it. */
  function CharLength(b: byte): nat {
    if b < 0x80 then 1
    else if 0xC2 <= b < 0xE0 then 2
    else if 0xE0 <= b < 0xF0 then 3
    else if 0xF0 <= b < 0xF5 then 4
    else 0
  }

  /** The second byte rules out overlong forms, surrogates and code points past the last. */
  predicate SecondFits(first: byte, second: byte) {
    && Continuation(second)
    && (first == 0xE0 ==> second >= 0xA0) && (first == 0xED ==> second < 0xA0)
    && (first == 0xF0 ==> second >= 0x90) && (first == 0xF4 ==> second < 0x90)
  }

  predicate StartsWithChar(s: seq<byte>)
    requires s != []
  {
    && 1 <= CharLength(s[0]) <= |s|
    && (CharLength(s[0]) >= 2 ==> SecondFits(s[0], s[1]))
    && (CharLength(s[0]) >= 3 ==> Continuation(s[2]))
    && (CharLength(s[0]) == 4 ==> Continuation(s[3]))
  }

  predicate Utf8(s: seq<byte>) {
    s != [] ==> StartsWithChar(s) && Utf8(s[CharLength(s[0])..])
  }

  /** The text of a step: field 20, then field 1, if it is valid UTF-8. */
  function ExtractText(blob: seq<byte>): Lookup {
    match GetField(blob, 20)
    case Found(step) => (match GetField(step, 1)
                         case Found(text) => if Utf8(text) then Found(text) else Absent
                         case other => other)
    case other => other
  }

  method ExtractTextFromStepPayload(blob: seq<byte>) returns (r: Lookup)
    ensures r == ExtractText(blob)
  {
    var step := GetProtoField(blob, 20);
    if !step.Found? {
      return step;
    }
    var text := GetProtoField(step.bytes, 1);
    if text.Found? && !Utf8(text.bytes) {
      return Absent;
    }
    return text;
  }

  /** The payload that carries a text. */
  function Payload(text: seq<byte>): seq<byte> { Encode([Delimited(20, Encode([Delimited(1, text)]))]) }

  method AppendLength(before: seq<byte>, length: nat) returns (bytes: seq<byte>)
    ensures bytes == before + EncodeVarint(length)
  {
    bytes := before;
    var len := length;
    while true
      invariant bytes + EncodeVarint(len) == before + EncodeVarint(length)
      decreases len
    {
      if len < 0x80 {
        bytes := bytes + [len];
        return;
      }
      ghost var was, more := bytes, EncodeVarint(len / 0x80);
      assert was + EncodeVarint(len) == (was + [len % 0x80 + 0x80]) + more;
      bytes := bytes + [len % 0x80 + 0x80];
      len := len / 0x80;
    }
  }

  lemma SmallTags()
    ensures EncodeVarint(10) == [0x0A] && EncodeVarint(162) == [0xA2, 0x01]
  {
    assert EncodeVarint(1) == [0x01];
    assert EncodeVarint(162) == [0xA2] + EncodeVarint(1);
  }

  lemma DelimitedBytes(number: nat, tag: seq<byte>, bytes: seq<byte>)
    requires tag == EncodeVarint(8 * number + 2)
    ensures Encode([Delimited(number, bytes)]) == tag + EncodeVarint(|bytes|) + bytes
  {
    hide EncodeVarint;
    assert tag + (EncodeVarint(|bytes|) + bytes) == tag + EncodeVarint(|bytes|) + bytes;
  }

  method MakePayload(text: seq<byte>) returns (outer: seq<byte>)
    ensures outer == Payload(text)
  {
    hide EncodeVarint, Encode;
    SmallTags();
    var inner := AppendLength([0x0A], |text|);
    inner := inner + text;
    DelimitedBytes(1, [0x0A], text);
    outer := AppendLength([0xA2, 0x01], |inner|);
    outer := outer + inner;
    DelimitedBytes(20, [0xA2, 0x01], inner);
  }

  /** A step's text is found among any other fields, before or after it. */
  lemma ExtractFromFields(fields: seq<Field>, step: seq<Field>, text: seq<byte>)
    requires (forall f :: f in fields ==> Fits(f)) && |Encode(fields)| < TWO64
    requires (forall f :: f in step ==> Fits(f)) && |Encode(step)| < TWO64
    requires FirstDelimited(fields, 20) == Found(Encode(step)) && FirstDelimited(step, 1) == Found(text)
    ensures ExtractText(Encode(fields)) == if Utf8(text) then Found(text) else Absent
  {
    FieldRoundTrip(fields, 20);
    FieldRoundTrip(step, 1);
  }

  /** Extraction inverts the encoder, for every text. */
  lemma ExtractInvertsPayload(text: seq<byte>)
    requires Utf8(text) && |Payload(text)| < TWO64
    ensures ExtractText(Payload(text)) == Found(text)
  {
    var step := [Delimited(1, text)];
    ExtractFromFields([Delimited(20, Encode(step))], step, text);
  }
}
