/**
 * The check `str::from_utf8` applies to the bytes `gl_get_string` receives
 * (src/es20/wrapper.rs:970), stated as the well-formed byte sequences of
 * table 3-7 of the Unicode Standard. Its partner is the UTF-8 encoder of RFC
 * 3629: a byte string passes the check exactly when it encodes a sequence of
 * Unicode scalar values, and decoding and encoding are inverse.
 */
module Utf8 {
  import opened GLTypes

  /** A continuation byte, 10xxxxxx. */
  predicate IsContinuation(b: u8) {
    0x80 <= b < 0xC0
  }

  /**
   * The width of the well-formed sequence at the head of `s`, or 0 when `s`
   * does not start with one (a stray continuation byte, an overlong form, a
   * surrogate, a value above U+10FFFF, or a truncated sequence).
   */
  function HeadWidth(s: seq<u8>): (w: nat)
    requires |s| > 0
    ensures w <= 4 && w <= |s|
  {
    var b0 := s[0];
    if b0 < 0x80 then 1
    else if 0xC2 <= b0 < 0xE0 then
      if |s| >= 2 && IsContinuation(s[1]) then 2 else 0
    else if b0 == 0xE0 then
      if |s| >= 3 && 0xA0 <= s[1] < 0xC0 && IsContinuation(s[2]) then 3 else 0
    else if 0xE1 <= b0 < 0xED || 0xEE <= b0 < 0xF0 then
      if |s| >= 3 && IsContinuation(s[1]) && IsContinuation(s[2]) then 3 else 0
    else if b0 == 0xED then
      if |s| >= 3 && 0x80 <= s[1] < 0xA0 && IsContinuation(s[2]) then 3 else 0
    else if b0 == 0xF0 then
      if |s| >= 4 && 0x90 <= s[1] < 0xC0 && IsContinuation(s[2]) && IsContinuation(s[3]) then 4 else 0
    else if 0xF1 <= b0 < 0xF4 then
      if |s| >= 4 && IsContinuation(s[1]) && IsContinuation(s[2]) && IsContinuation(s[3]) then 4 else 0
    else if b0 == 0xF4 then
      if |s| >= 4 && 0x80 <= s[1] < 0x90 && IsContinuation(s[2]) && IsContinuation(s[3]) then 4 else 0
    else 0
  }

  /**
   * The byte strings `str::from_utf8` accepts. None of them starts with a
   * continuation byte, with 0xC0 or 0xC1 (which only begin overlong forms),
   * or with a byte above 0xF4.
   */
  predicate Valid(s: seq<u8>)
    ensures Valid(s) && s != [] ==> s[0] < 0x80 || 0xC2 <= s[0] <= 0xF4
    decreases |s|
  {
    s == [] || (HeadWidth(s) > 0 && Valid(s[HeadWidth(s)..]))
  }

  /** A Unicode scalar value: a code point that is not a surrogate. */
  predicate IsScalar(c: int) {
    0 <= c < 0xD800 || 0xE000 <= c < 0x11_0000
  }

  predicate AllScalars(cs: seq<int>) {
    forall i :: 0 <= i < |cs| ==> IsScalar(cs[i])
  }

  /** The shortest UTF-8 form of one scalar value. */
  function EncodeScalar(c: int): (s: seq<u8>)
    requires IsScalar(c)
    ensures 1 <= |s| <= 4
  {
    if c < 0x80 then [c]
    else if c < 0x800 then [0xC0 + c / 0x40, 0x80 + c % 0x40]
    else if c < 0x1_0000 then [0xE0 + c / 0x1000, 0x80 + (c / 0x40) % 0x40, 0x80 + c % 0x40]
    else [0xF0 + c / 0x4_0000, 0x80 + (c / 0x1000) % 0x40, 0x80 + (c / 0x40) % 0x40, 0x80 + c % 0x40]
  }

  /** The UTF-8 form of a sequence of scalar values: one to four bytes per value. */
  function Encode(cs: seq<int>): (s: seq<u8>)
    requires AllScalars(cs)
    ensures |cs| <= |s| <= 4 * |cs|
  {
    if cs == [] then [] else EncodeScalar(cs[0]) + Encode(cs[1..])
  }

  /** The scalar value the well-formed sequence at the head of `s` stands for. */
  function DecodeHead(s: seq<u8>): (c: int)
    requires |s| > 0 && HeadWidth(s) > 0
    ensures IsScalar(c)
  {
    var w := HeadWidth(s);
    var b0: int := s[0];
    if w == 1 then b0
    else if w == 2 then (b0 - 0xC0) * 0x40 + (s[1] as int - 0x80)
    else if w == 3 then (b0 - 0xE0) * 0x1000 + (s[1] as int - 0x80) * 0x40 + (s[2] as int - 0x80)
    else (b0 - 0xF0) * 0x4_0000 + (s[1] as int - 0x80) * 0x1000 + (s[2] as int - 0x80) * 0x40 + (s[3] as int - 0x80)
  }

  function Decode(s: seq<u8>): (cs: seq<int>)
    requires Valid(s)
    ensures AllScalars(cs)
    ensures |cs| <= |s|
    decreases |s|
  {
    if s == [] then [] else [DecodeHead(s)] + Decode(s[HeadWidth(s)..])
  }

  /** An encoded scalar value is a well-formed head of its own width that decodes back to it. */
  lemma EncodeScalarIsHead(c: int, rest: seq<u8>)
    requires IsScalar(c)
    ensures HeadWidth(EncodeScalar(c) + rest) == |EncodeScalar(c)|
    ensures DecodeHead(EncodeScalar(c) + rest) == c
  {
    if c < 0x80 {
    } else if c < 0x800 {
      EncodeTwo(c, rest);
    } else if c < 0x1_0000 {
      EncodeThree(c, rest);
    } else {
      EncodeFour(c, rest);
    }
  }

  lemma EncodeTwo(c: int, rest: seq<u8>)
    requires 0x80 <= c < 0x800
    ensures HeadWidth(EncodeScalar(c) + rest) == 2
    ensures DecodeHead(EncodeScalar(c) + rest) == c
  {
    var hi, lo := c / 0x40, c % 0x40;
    var s := EncodeScalar(c) + rest;
    assert s[0] == 0xC0 + hi && s[1] == 0x80 + lo;
    assert 2 <= hi < 0x20;
  }

  lemma EncodeThree(c: int, rest: seq<u8>)
    requires 0x800 <= c < 0x1_0000 && IsScalar(c)
    ensures HeadWidth(EncodeScalar(c) + rest) == 3
    ensures DecodeHead(EncodeScalar(c) + rest) == c
  {
    var hi, mid, lo := c / 0x1000, (c / 0x40) % 0x40, c % 0x40;
    assert c / 0x40 == hi * 0x40 + mid;
    assert c == hi * 0x1000 + mid * 0x40 + lo;
    var s := EncodeScalar(c) + rest;
    assert s[0] == 0xE0 + hi && s[1] == 0x80 + mid && s[2] == 0x80 + lo;
    assert hi == 0 ==> 0x20 <= mid;
    assert hi == 0xD ==> mid < 0x20;
  }

  lemma EncodeFour(c: int, rest: seq<u8>)
    requires 0x1_0000 <= c < 0x11_0000
    ensures HeadWidth(EncodeScalar(c) + rest) == 4
    ensures DecodeHead(EncodeScalar(c) + rest) == c
  {
    var top, hi, mid, lo := c / 0x4_0000, (c / 0x1000) % 0x40, (c / 0x40) % 0x40, c % 0x40;
    assert c / 0x40 == (c / 0x1000) * 0x40 + mid;
    assert c / 0x1000 == top * 0x40 + hi;
    assert c == top * 0x4_0000 + hi * 0x1000 + mid * 0x40 + lo;
    var s := EncodeScalar(c) + rest;
    assert s[0] == 0xF0 + top && s[1] == 0x80 + hi && s[2] == 0x80 + mid && s[3] == 0x80 + lo;
    assert top == 0 ==> 0x10 <= hi;
    assert top == 4 ==> hi < 0x10;
  }

  /** A well-formed head is the encoding of the value it decodes to. */
  lemma DecodeHeadEncodes(s: seq<u8>)
    requires |s| > 0 && HeadWidth(s) > 0
    ensures EncodeScalar(DecodeHead(s)) == s[..HeadWidth(s)]
  {
    var w := HeadWidth(s);
    if w == 1 {
      assert s[..1] == [s[0]];
    } else if w == 2 {
      TwoByteHead(s[0], s[1]);
      assert s[..2] == [s[0], s[1]];
    } else if w == 3 {
      ThreeByteHead(s[0], s[1], s[2]);
      assert s[..3] == [s[0], s[1], s[2]];
    } else {
      FourByteHead(s[0], s[1], s[2], s[3]);
      assert s[..4] == [s[0], s[1], s[2], s[3]];
    }
  }

  lemma TwoByteHead(b0: u8, b1: u8)
    requires 0xC2 <= b0 < 0xE0 && IsContinuation(b1)
    ensures var c := (b0 as int - 0xC0) * 0x40 + (b1 as int - 0x80);
            IsScalar(c) && EncodeScalar(c) == [b0, b1]
  {
    var c := (b0 as int - 0xC0) * 0x40 + (b1 as int - 0x80);
    assert c / 0x40 == b0 as int - 0xC0 && c % 0x40 == b1 as int - 0x80;
  }

  lemma ThreeByteHead(b0: u8, b1: u8, b2: u8)
    requires 0xE0 <= b0 < 0xF0 && IsContinuation(b1) && IsContinuation(b2)
    requires b0 == 0xE0 ==> 0xA0 <= b1
    requires b0 == 0xED ==> b1 < 0xA0
    ensures var c := (b0 as int - 0xE0) * 0x1000 + (b1 as int - 0x80) * 0x40 + (b2 as int - 0x80);
            IsScalar(c) && EncodeScalar(c) == [b0, b1, b2]
  {
    var hi, mid, lo := b0 as int - 0xE0, b1 as int - 0x80, b2 as int - 0x80;
    var c := hi * 0x1000 + mid * 0x40 + lo;
    assert c / 0x40 == hi * 0x40 + mid;
    assert c / 0x1000 == hi;
    assert (c / 0x40) % 0x40 == mid && c % 0x40 == lo;
  }

  lemma FourByteHead(b0: u8, b1: u8, b2: u8, b3: u8)
    requires 0xF0 <= b0 < 0xF5 && IsContinuation(b1) && IsContinuation(b2) && IsContinuation(b3)
    requires b0 == 0xF0 ==> 0x90 <= b1
    requires b0 == 0xF4 ==> b1 < 0x90
    ensures var c := (b0 as int - 0xF0) * 0x4_0000 + (b1 as int - 0x80) * 0x1000 +
                     (b2 as int - 0x80) * 0x40 + (b3 as int - 0x80);
            IsScalar(c) && EncodeScalar(c) == [b0, b1, b2, b3]
  {
    var top, hi, mid, lo := b0 as int - 0xF0, b1 as int - 0x80, b2 as int - 0x80, b3 as int - 0x80;
    var c := top * 0x4_0000 + hi * 0x1000 + mid * 0x40 + lo;
    assert c / 0x40 == top * 0x1000 + hi * 0x40 + mid;
    assert c / 0x1000 == top * 0x40 + hi;
    assert c / 0x4_0000 == top;
    assert (c / 0x1000) % 0x40 == hi && (c / 0x40) % 0x40 == mid && c % 0x40 == lo;
  }

  /** Every encoding of scalar values passes the check and decodes back to those values. */
  lemma {:induction false} EncodeIsValid(cs: seq<int>)
    requires AllScalars(cs)
    ensures Valid(Encode(cs)) && Decode(Encode(cs)) == cs
  {
    if cs != [] {
      var head, rest := EncodeScalar(cs[0]), Encode(cs[1..]);
      EncodeScalarIsHead(cs[0], rest);
      assert (head + rest)[|head|..] == rest;
      EncodeIsValid(cs[1..]);
      assert [cs[0]] + cs[1..] == cs;
    }
  }

  /** Every byte string that passes the check is the encoding of its decoding. */
  lemma {:induction false} DecodeThenEncode(s: seq<u8>)
    requires Valid(s)
    ensures Encode(Decode(s)) == s
  {
    if s != [] {
      var w := HeadWidth(s);
      var c, tail := DecodeHead(s), Decode(s[w..]);
      DecodeUnfold(s);
      EncodeCons(c, tail);
      DecodeHeadEncodes(s);
      DecodeThenEncode(s[w..]);
      assert s[..w] + s[w..] == s;
    }
  }

  lemma DecodeUnfold(s: seq<u8>)
    requires Valid(s) && s != []
    ensures HeadWidth(s) > 0 && Valid(s[HeadWidth(s)..])
    ensures Decode(s) == [DecodeHead(s)] + Decode(s[HeadWidth(s)..])
  {
  }

  lemma EncodeCons(c: int, tail: seq<int>)
    requires IsScalar(c) && AllScalars(tail)
    ensures AllScalars([c] + tail)
    ensures Encode([c] + tail) == EncodeScalar(c) + Encode(tail)
  {
    var cs := [c] + tail;
    assert cs[0] == c && cs[1..] == tail;
  }

  /** The check accepts exactly the encodings of scalar-value sequences. */
  lemma ValidIffEncoding(s: seq<u8>)
    ensures Valid(s) <==> exists cs :: AllScalars(cs) && Encode(cs) == s
  {
    if Valid(s) {
      DecodeThenEncode(s);
      assert AllScalars(Decode(s)) && Encode(Decode(s)) == s;
    }
    forall cs | AllScalars(cs) && Encode(cs) == s
      ensures Valid(s)
    {
      EncodeIsValid(cs);
    }
  }

  /** Plain ASCII always passes the check. */
  lemma {:induction false} AsciiIsValid(s: seq<u8>)
    requires forall i :: 0 <= i < |s| ==> s[i] < 0x80
    ensures Valid(s)
  {
    if s != [] {
      AsciiIsValid(s[1..]);
    }
  }
}
