/** The decoder's UTF-8 test accepts exactly the encodings of sequences of Unicode scalar values. */
module Utf8Text {
  import opened Canonical

  /** A Unicode scalar value: a code point that is not a surrogate. */
  type Scalar = c: int | 0 <= c < 0xd800 || 0xe000 <= c < 0x11_0000

  function Continuation(c: nat): u8 {
    0x80 + c % 64
  }

  /** The UTF-8 form of one scalar value, by its bits. */
  function EncodeScalar(c: Scalar): seq<u8> {
    if c < 0x80 then [c]
    else if c < 0x800 then [0xc0 + c / 64, Continuation(c)]
    else if c < 0x1_0000 then [0xe0 + c / 4096, Continuation(c / 64), Continuation(c)]
    else [0xf0 + c / 262_144, Continuation(c / 4096), Continuation(c / 64), Continuation(c)]
  }

  function EncodeText(cs: seq<Scalar>): seq<u8> {
    if cs == [] then [] else EncodeScalar(cs[0]) + EncodeText(cs[1..])
  }

  // What the bytes of each length stand for.

  lemma TwoByteScalar(a: int, b: int) returns (c: Scalar)
    requires 0xc2 <= a <= 0xdf && 0x80 <= b < 0xc0
    ensures EncodeScalar(c) == [a, b]
  {
    c := (a - 0xc0) * 64 + (b - 0x80);
  }

  lemma ThreeByteScalar(a: int, b: int, d: int) returns (c: Scalar)
    requires 0xe0 <= a <= 0xef && 0x80 <= b < 0xc0 && 0x80 <= d < 0xc0
    requires (a == 0xe0 ==> b >= 0xa0) && (a == 0xed ==> b < 0xa0)
    ensures EncodeScalar(c) == [a, b, d]
  {
    var v := (a - 0xe0) * 4096 + (b - 0x80) * 64 + (d - 0x80);
    assert v / 4096 == a - 0xe0 && (v / 64) % 64 == b - 0x80 && v % 64 == d - 0x80;
    c := v;
  }

  lemma SplitDigits(high: nat, low: nat)
    requires low < 4096
    ensures var v := high * 4096 + low;
            v / 4096 == high && (v / 64) % 64 == low / 64 && v % 64 == low % 64 && v / 262_144 == high / 64
  {
    var v := high * 4096 + low;
    assert v / 64 == high * 64 + low / 64;
  }

  lemma FourByteScalar(a: int, b: int, d: int, e: int) returns (c: Scalar)
    requires 0xf0 <= a <= 0xf4 && 0x80 <= b < 0xc0 && 0x80 <= d < 0xc0 && 0x80 <= e < 0xc0
    requires (a == 0xf0 ==> b >= 0x90) && (a == 0xf4 ==> b < 0x90)
    ensures EncodeScalar(c) == [a, b, d, e]
  {
    var high := (a - 0xf0) * 64 + (b - 0x80);
    var low := (d - 0x80) * 64 + (e - 0x80);
    var v := high * 4096 + low;
    SplitDigits(high, low);
    assert high / 64 == a - 0xf0 && high % 64 == b - 0x80;
    assert low / 64 == d - 0x80 && low % 64 == e - 0x80;
    assert v == (a - 0xf0) * 262_144 + ((b - 0x80) * 4096 + low) && 0 <= (b - 0x80) * 4096 + low < 262_144;
    c := v;
  }

  /** Well-formed at `i` means: one scalar's encoding there, and well-formed after it. */
  lemma Decodes(s: seq<u8>, i: nat) returns (c: Scalar)
    requires i < |s| && Utf8From(s, i)
    ensures var w := |EncodeScalar(c)|;
            0 < w && i + w <= |s| && s[i..i + w] == EncodeScalar(c) && Utf8From(s, i + w)
  {
    if s[i] < 0x80 {
      c := s[i];
    } else if s[i] <= 0xdf {
      c := TwoByteScalar(s[i], s[i + 1]);
    } else if s[i] <= 0xef {
      c := ThreeByteScalar(s[i], s[i + 1], s[i + 2]);
    } else {
      c := FourByteScalar(s[i], s[i + 1], s[i + 2], s[i + 3]);
    }
  }

  lemma Encodes(s: seq<u8>, i: nat, c: Scalar)
    requires i + |EncodeScalar(c)| <= |s| && s[i..i + |EncodeScalar(c)|] == EncodeScalar(c)
    requires Utf8From(s, i + |EncodeScalar(c)|)
    ensures Utf8From(s, i)
  {
    var e := EncodeScalar(c);
    assert forall k :: 0 <= k < |e| ==> s[i + k] == e[k];
  }

  lemma {:induction false} Scalars(s: seq<u8>, i: nat) returns (cs: seq<Scalar>)
    requires i <= |s| && Utf8From(s, i)
    ensures EncodeText(cs) == s[i..]
    decreases |s| - i
  {
    if i == |s| {
      cs := [];
    } else {
      var c := Decodes(s, i);
      var w := |EncodeScalar(c)|;
      var rest := Scalars(s, i + w);
      cs := [c] + rest;
      assert s[i..] == s[i..i + w] + s[i + w..];
    }
  }

  lemma Slices(s: seq<u8>, i: nat, a: seq<u8>, b: seq<u8>)
    requires i <= |s| && s[i..] == a + b
    ensures i + |a| <= |s| && s[i..i + |a|] == a && s[i + |a|..] == b
  {
    assert |s[i..]| == |a| + |b|;
    assert s[i..i + |a|] == s[i..][..|a|] && s[i + |a|..] == s[i..][|a|..];
  }

  lemma {:induction false} TextIsUtf8(s: seq<u8>, i: nat, cs: seq<Scalar>)
    requires i <= |s| && s[i..] == EncodeText(cs)
    ensures Utf8From(s, i)
    decreases |cs|
  {
    if cs != [] {
      var e := EncodeScalar(cs[0]);
      Slices(s, i, e, EncodeText(cs[1..]));
      TextIsUtf8(s, i + |e|, cs[1..]);
      Encodes(s, i, cs[0]);
    }
  }

  lemma Utf8Iff(s: seq<u8>)
    ensures Utf8(s) <==> exists cs: seq<Scalar> :: EncodeText(cs) == s
  {
    assert s[0..] == s;
    if Utf8(s) {
      var cs := Scalars(s, 0);
    }
    if cs: seq<Scalar> :| EncodeText(cs) == s {
      TextIsUtf8(s, 0, cs);
    }
  }
}
