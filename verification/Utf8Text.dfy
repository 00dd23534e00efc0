/** The byte check of `String::from_utf8`: exactly the encodings of sequences of Unicode scalar values (RFC 3629). */
module Utf8Text {
  import opened Base
  import opened Protobuf

  /** Code points except surrogates. */
  predicate Scalar(c: nat) { c < 0xD800 || 0xE000 <= c < 0x11_0000 }

  /** Section 3 of RFC 3629. */
  function EncodeScalar(c: nat): (bytes: seq<byte>)
    requires Scalar(c)
    ensures bytes != []
  {
    if c < 0x80 then [c]
    else if c < 0x800 then [0xC0 + c / 0x40, 0x80 + c % 0x40]
    else if c < 0x1_0000 then [0xE0 + c / 0x1000, 0x80 + c / 0x40 % 0x40, 0x80 + c % 0x40]
    else [0xF0 + c / 0x4_0000, 0x80 + c / 0x1000 % 0x40, 0x80 + c / 0x40 % 0x40, 0x80 + c % 0x40]
  }

  function EncodeScalars(cs: seq<nat>): seq<byte>
    requires forall c :: c in cs ==> Scalar(c)
  {
    if cs == [] then [] else EncodeScalar(cs[0]) + EncodeScalars(cs[1..])
  }

  lemma CharOfScalar(c: nat, rest: seq<byte>)
    requires Scalar(c)
    ensures var s := EncodeScalar(c) + rest;
      StartsWithChar(s) && CharLength(s[0]) == |EncodeScalar(c)|
  {
    var bytes := EncodeScalar(c);
    assert forall i :: 0 <= i < |bytes| ==> (bytes + rest)[i] == bytes[i];
    if c < 0x80 {
    } else if c < 0x800 {
    } else if c < 0x1_0000 {
    } else {
    }
  }

  /** The scalar value a first character stands for. */
  lemma ScalarOfChar(s: seq<byte>) returns (c: nat)
    requires s != [] && StartsWithChar(s)
    ensures Scalar(c) && EncodeScalar(c) == s[..CharLength(s[0])]
  {
    var n := CharLength(s[0]);
    if n == 1 {
      c := s[0];
    } else if n == 2 {
      c := TwoBytes(s[0] - 0xC0, s[1] - 0x80);
    } else if n == 3 {
      c := ThreeBytes(s[0] - 0xE0, s[1] - 0x80, s[2] - 0x80);
    } else {
      c := FourBytes(s[0] - 0xF0, s[1] - 0x80, s[2] - 0x80, s[3] - 0x80);
    }
  }

  lemma TwoBytes(a: nat, b: nat) returns (c: nat)
    requires a < 0x20 && b < 0x40
    ensures c == a * 0x40 + b && c / 0x40 == a && c % 0x40 == b
  {
    c := a * 0x40 + b;
  }

  lemma ThreeBytes(a: nat, b: nat, d: nat) returns (c: nat)
    requires a < 0x10 && b < 0x40 && d < 0x40
    ensures c == a * 0x1000 + b * 0x40 + d
    ensures c / 0x1000 == a && c / 0x40 % 0x40 == b && c % 0x40 == d
  {
    c := a * 0x1000 + b * 0x40 + d;
    assert c / 0x40 == a * 0x40 + b;
  }

  lemma FourBytes(a: nat, b: nat, d: nat, e: nat) returns (c: nat)
    requires a < 0x8 && b < 0x40 && d < 0x40 && e < 0x40
    ensures c == a * 0x4_0000 + b * 0x1000 + d * 0x40 + e
    ensures c / 0x4_0000 == a && c / 0x1000 % 0x40 == b && c / 0x40 % 0x40 == d && c % 0x40 == e
  {
    c := a * 0x4_0000 + b * 0x1000 + d * 0x40 + e;
    assert c / 0x40 == a * 0x1000 + b * 0x40 + d;
    assert c / 0x1000 == a * 0x40 + b;
  }

  lemma {:induction false} EncodedIsUtf8(cs: seq<nat>)
    requires forall c :: c in cs ==> Scalar(c)
    ensures Utf8(EncodeScalars(cs))
  {
    if cs != [] {
      var head, rest := EncodeScalar(cs[0]), EncodeScalars(cs[1..]);
      EncodedIsUtf8(cs[1..]);
      CharOfScalar(cs[0], rest);
      assert (head + rest)[|head|..] == rest;
    }
  }

  lemma CharInside(s: seq<byte>)
    requires s != [] && Utf8(s)
    ensures StartsWithChar(s) && 1 <= CharLength(s[0]) <= |s|
  {
  }

  lemma {:induction false} Utf8IsEncoded(s: seq<byte>) returns (cs: seq<nat>)
    requires Utf8(s)
    ensures (forall c :: c in cs ==> Scalar(c)) && EncodeScalars(cs) == s
  {
    hide StartsWithChar, EncodeScalar, SecondFits;
    cs := [];
    if s != [] {
      CharInside(s);
      var n := CharLength(s[0]);
      var c := ScalarOfChar(s);
      var rest := Utf8IsEncoded(s[n..]);
      cs := [c] + rest;
      assert cs[1..] == rest && s == s[..n] + s[n..];
    }
  }

  /** The check accepts a byte sequence exactly if it encodes some sequence of scalar values. */
  lemma Utf8Exactly(s: seq<byte>)
    ensures Utf8(s) <==> exists cs: seq<nat> :: (forall c :: c in cs ==> Scalar(c)) && EncodeScalars(cs) == s
  {
    if Utf8(s) {
      var cs := Utf8IsEncoded(s);
    }
    if cs: seq<nat> :| (forall c :: c in cs ==> Scalar(c)) && EncodeScalars(cs) == s {
      EncodedIsUtf8(cs);
    }
  }
}
