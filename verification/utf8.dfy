/**
 * Rust's `str` and `String` hold well-formed UTF-8; a Dafny `string` holds
 * Unicode scalar values. This module states well-formedness (the table of
 * well-formed byte sequences in section 3.9 of the Unicode standard), encodes
 * and decodes, proves the two inverse, and gives `String::from_utf8`.
 */
module Utf8 {
  import opened Gl
  import opened Wrappers

  predicate IsContinuation(b: byte) { 0x80 <= b <= 0xBF }

  /**
   * The width of the well-formed sequence at the front of `s`, or 0 when
   * `s` does not start with one.
   */
  function LeadWidth(s: seq<byte>): (n: nat)
    ensures n <= |s| && n <= 4
  {
    if |s| == 0 then 0
    else
      var b := s[0];
      if b <= 0x7F then 1
      else if 0xC2 <= b <= 0xDF then
        if |s| >= 2 && IsContinuation(s[1]) then 2 else 0
      else if 0xE0 <= b <= 0xEF then
        var lo := if b == 0xE0 then 0xA0 else 0x80;
        var hi := if b == 0xED then 0x9F else 0xBF;
        if |s| >= 3 && lo <= s[1] <= hi && IsContinuation(s[2]) then 3 else 0
      else if 0xF0 <= b <= 0xF4 then
        var lo := if b == 0xF0 then 0x90 else 0x80;
        var hi := if b == 0xF4 then 0x8F else 0xBF;
        if |s| >= 4 && lo <= s[1] <= hi && IsContinuation(s[2]) && IsContinuation(s[3]) then 4 else 0
      else 0
  }

  /** `s` is a concatenation of well-formed sequences. */
  predicate ValidUtf8(s: seq<byte>)
    decreases |s|
  {
    |s| == 0 || (LeadWidth(s) > 0 && ValidUtf8(s[LeadWidth(s)..]))
  }

  /** The scalar value that a well-formed sequence of one to four bytes stands for. */
  function DecodeValue(r: seq<byte>): int
    requires 1 <= |r| <= 4
  {
    if |r| == 1 then r[0] as int
    else if |r| == 2 then (r[0] as int - 0xC0) * 0x40 + (r[1] as int - 0x80)
    else if |r| == 3 then (r[0] as int - 0xE0) * 0x1000 + (r[1] as int - 0x80) * 0x40 + (r[2] as int - 0x80)
    else (r[0] as int - 0xF0) * 0x4_0000 + (r[1] as int - 0x80) * 0x1000 + (r[2] as int - 0x80) * 0x40 + (r[3] as int - 0x80)
  }

  /** The UTF-8 encoding of one Unicode scalar value. */
  function EncodeChar(c: char): (r: seq<byte>)
    ensures 1 <= |r| <= 4 && LeadWidth(r) == |r|
    ensures DecodeValue(r) == c as int
  {
    var v := c as int;
    if v < 0x80 then [v]
    else if v < 0x800 then EncodeTwo(v)
    else if v < 0x1_0000 then EncodeThree(v)
    else EncodeFour(v)
  }

  function EncodeTwo(v: int): (r: seq<byte>)
    requires 0x80 <= v < 0x800
    ensures |r| == 2 && LeadWidth(r) == 2 && DecodeValue(r) == v
  {
    var hi, lo := v / 0x40, v % 0x40;
    assert v == hi * 0x40 + lo;
    [0xC0 + hi, 0x80 + lo]
  }

  /** Three bytes; the scalar value is never a surrogate (0xD800 to 0xDFFF). */
  function EncodeThree(v: int): (r: seq<byte>)
    requires 0x800 <= v < 0x1_0000 && !(0xD800 <= v < 0xE000)
    ensures |r| == 3 && LeadWidth(r) == 3 && DecodeValue(r) == v
  {
    var top, rest := v / 0x1000, v % 0x1000;
    var mid, lo := rest / 0x40, rest % 0x40;
    assert v == top * 0x1000 + rest && rest == mid * 0x40 + lo;
    assert top == 0 ==> mid >= 0x20;
    assert top == 0xD ==> mid < 0x20;
    [0xE0 + top, 0x80 + mid, 0x80 + lo]
  }

  function EncodeFour(v: int): (r: seq<byte>)
    requires 0x1_0000 <= v < 0x11_0000
    ensures |r| == 4 && LeadWidth(r) == 4 && DecodeValue(r) == v
  {
    var top, rest := v / 0x4_0000, v % 0x4_0000;
    var upper, rest2 := rest / 0x1000, rest % 0x1000;
    var mid, lo := rest2 / 0x40, rest2 % 0x40;
    assert v == top * 0x4_0000 + rest && rest == upper * 0x1000 + rest2 && rest2 == mid * 0x40 + lo;
    assert top == 0 ==> upper >= 0x10;
    assert top == 4 ==> upper < 0x10;
    [0xF0 + top, 0x80 + upper, 0x80 + mid, 0x80 + lo]
  }

  /** A well-formed sequence at the front keeps its width whatever follows it. */
  lemma LeadWidthOfPrefix(s: seq<byte>, t: seq<byte>)
    requires LeadWidth(s) > 0
    ensures LeadWidth(s + t) == LeadWidth(s)
  {
    assert forall i :: 0 <= i < |s| ==> (s + t)[i] == s[i];
  }

  /** Well-formed UTF-8 is closed under concatenation. */
  lemma {:induction false} ConcatValid(s: seq<byte>, t: seq<byte>)
    requires ValidUtf8(s) && ValidUtf8(t)
    ensures ValidUtf8(s + t)
    decreases |s|
  {
    if |s| > 0 {
      var w := LeadWidth(s);
      LeadWidthOfPrefix(s, t);
      assert (s + t)[w..] == s[w..] + t;
      ConcatValid(s[w..], t);
    } else {
      assert s + t == t;
    }
  }

  /** `s.as_bytes()`: the UTF-8 encoding of a string. */
  function Encode(s: string): (r: seq<byte>)
    ensures ValidUtf8(r)
    ensures |r| >= |s|
  {
    if s == [] then []
    else
      var head := EncodeChar(s[0]);
      var tail := Encode(s[1..]);
      assert head[|head|..] == [];
      ConcatValid(head, tail);
      head + tail
  }

  /** The scalar value of a well-formed sequence is a valid `char`. */
  lemma DecodeValueIsScalar(r: seq<byte>)
    requires 1 <= |r| <= 4 && LeadWidth(r) == |r|
    ensures 0 <= DecodeValue(r) < 0xD800 || 0xE000 <= DecodeValue(r) < 0x11_0000
  {
  }

  /** The character one well-formed sequence stands for. */
  function DecodeChar(r: seq<byte>): (c: char)
    requires 1 <= |r| <= 4 && LeadWidth(r) == |r|
  {
    DecodeValueIsScalar(r);
    DecodeValue(r) as char
  }

  /** A well-formed two-byte sequence stands for a value in the two-byte range and re-encodes to itself. */
  lemma EncodeDecodeTwo(r: seq<byte>)
    requires |r| == 2 && LeadWidth(r) == 2
    ensures 0x80 <= DecodeValue(r) < 0x800 && EncodeTwo(DecodeValue(r)) == r
  {
    var hi, lo := r[0] as int - 0xC0, r[1] as int - 0x80;
    var v := DecodeValue(r);
    assert v == hi * 0x40 + lo && 0 <= lo < 0x40;
    assert v / 0x40 == hi && v % 0x40 == lo;
  }

  /** A well-formed three-byte sequence stands for a non-surrogate value in the three-byte range and re-encodes to itself. */
  lemma EncodeDecodeThree(r: seq<byte>)
    requires |r| == 3 && LeadWidth(r) == 3
    ensures 0x800 <= DecodeValue(r) < 0x1_0000 && !(0xD800 <= DecodeValue(r) < 0xE000)
    ensures EncodeThree(DecodeValue(r)) == r
  {
    var top, mid, lo := r[0] as int - 0xE0, r[1] as int - 0x80, r[2] as int - 0x80;
    var rest := mid * 0x40 + lo;
    var v := DecodeValue(r);
    assert v == top * 0x1000 + rest && 0 <= rest < 0x1000;
    assert v / 0x1000 == top && v % 0x1000 == rest;
    assert rest / 0x40 == mid && rest % 0x40 == lo;
  }

  /** A well-formed four-byte sequence stands for a value in the four-byte range and re-encodes to itself. */
  lemma EncodeDecodeFour(r: seq<byte>)
    requires |r| == 4 && LeadWidth(r) == 4
    ensures 0x1_0000 <= DecodeValue(r) < 0x11_0000 && EncodeFour(DecodeValue(r)) == r
  {
    var top, upper, mid, lo := r[0] as int - 0xF0, r[1] as int - 0x80, r[2] as int - 0x80, r[3] as int - 0x80;
    var rest2 := mid * 0x40 + lo;
    var rest := upper * 0x1000 + rest2;
    var v := DecodeValue(r);
    assert v == top * 0x4_0000 + rest && 0 <= rest < 0x4_0000;
    assert v / 0x4_0000 == top && v % 0x4_0000 == rest;
    assert rest / 0x1000 == upper && rest % 0x1000 == rest2;
    assert rest2 / 0x40 == mid && rest2 % 0x40 == lo;
  }

  /** Encoding the decoded character gives the same bytes back. */
  lemma EncodeDecodeChar(r: seq<byte>)
    requires 1 <= |r| <= 4 && LeadWidth(r) == |r|
    ensures EncodeChar(DecodeChar(r)) == r
  {
    DecodeValueIsScalar(r);
    if |r| == 2 {
      EncodeDecodeTwo(r);
    } else if |r| == 3 {
      EncodeDecodeThree(r);
    } else if |r| == 4 {
      EncodeDecodeFour(r);
    }
  }

  /** A sequence's leading well-formed sequence, taken on its own, has the same width. */
  lemma LeadWidthOfTake(b: seq<byte>)
    requires LeadWidth(b) > 0
    ensures LeadWidth(b[..LeadWidth(b)]) == LeadWidth(b)
  {
  }

  /** The string that well-formed UTF-8 bytes stand for. */
  function Decode(b: seq<byte>): (s: string)
    requires ValidUtf8(b)
    decreases |b|
  {
    if b == [] then []
    else
      var w := LeadWidth(b);
      LeadWidthOfTake(b);
      [DecodeChar(b[..w])] + Decode(b[w..])
  }

  /** Encoding a string encodes its first character, then the rest. */
  lemma EncodeCons(c: char, rest: string)
    ensures Encode([c] + rest) == EncodeChar(c) + Encode(rest)
  {
    var s := [c] + rest;
    assert s[0] == c && s[1..] == rest;
  }

  /** Decoding then encoding gives the bytes back. */
  lemma {:induction false} EncodeDecode(b: seq<byte>)
    requires ValidUtf8(b)
    ensures Encode(Decode(b)) == b
    decreases |b|
  {
    if b != [] {
      var w := LeadWidth(b);
      LeadWidthOfTake(b);
      var head, tail := b[..w], b[w..];
      var c := DecodeChar(head);
      assert Encode(Decode(b)) == EncodeChar(c) + Encode(Decode(tail)) by {
        assert Decode(b) == [c] + Decode(tail);
        EncodeCons(c, Decode(tail));
      }
      assert EncodeChar(c) == head by {
        EncodeDecodeChar(head);
      }
      assert Encode(Decode(tail)) == tail by {
        EncodeDecode(tail);
      }
      assert b == head + tail;
    }
  }

  /** Encoding then decoding gives the string back. */
  lemma {:induction false} DecodeEncode(s: string)
    ensures Decode(Encode(s)) == s
    decreases |s|
  {
    if s != [] {
      var h, t := EncodeChar(s[0]), Encode(s[1..]);
      assert Encode(s) == h + t;
      LeadWidthOfPrefix(h, t);
      assert (h + t)[..|h|] == h;
      assert (h + t)[|h|..] == t;
      assert DecodeChar(h) == s[0];
      DecodeEncode(s[1..]);
      assert s == [s[0]] + s[1..];
    }
  }

  /**
   * `String::from_utf8`: a string exactly when the bytes are well-formed,
   * and then one whose bytes are the input.
   */
  function FromUtf8(bytes: seq<byte>): (r: Option<string>)
    ensures r.Some? <==> ValidUtf8(bytes)
    ensures r.Some? ==> Encode(r.value) == bytes
  {
    if ValidUtf8(bytes) then
      EncodeDecode(bytes);
      Some(Decode(bytes))
    else None
  }
}
