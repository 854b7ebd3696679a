/**
  UTF-8 as section 3 of RFC 3629 defines it: `bytes.decode('utf-8')` in
  strict mode, which fails on any ill-formed sequence (an overlong form, a
  surrogate, a value above U+10FFFF, a stray or missing continuation byte).
 */
module Utf8 {
  import opened Wrappers
  import opened Base64

  predicate IsContinuation(b: Byte) { 0x80 <= b <= 0xBF }

  /**
    The length of the well-formed sequence at the start of `s`, following
    the byte ranges of section 4 of RFC 3629, or 0 when `s` does not start
    with one.
   */
  function SequenceLength(s: seq<Byte>): (n: nat)
    requires |s| > 0
    ensures n <= 4 && n <= |s|
    ensures n == 1 <==> s[0] < 0x80
  {
    var b := s[0];
    if b < 0x80 then 1
    else if 0xC2 <= b <= 0xDF then
      if |s| >= 2 && IsContinuation(s[1]) then 2 else 0
    else if 0xE0 <= b <= 0xEF then
      var lo := if b == 0xE0 then 0xA0 else 0x80;
      var hi := if b == 0xED then 0x9F else 0xBF;
      if |s| >= 3 && lo <= s[1] <= hi && IsContinuation(s[2]) then 3 else 0
    else if 0xF0 <= b <= 0xF4 then
      var lo := if b == 0xF0 then 0x90 else 0x80;
      var hi := if b == 0xF4 then 0x8F else 0xBF;
      if |s| >= 4 && lo <= s[1] <= hi && IsContinuation(s[2]) && IsContinuation(s[3]) then 4 else 0
    else 0
  }

  /** The six payload bits of a continuation byte. */
  function Low(b: Byte): int {
    b - 0x80
  }

  /** Whether `n` is a Unicode scalar value, that is, a code point that is not a surrogate. */
  predicate IsScalar(n: int) {
    0 <= n < 0xD800 || 0xE000 <= n < 0x11_0000
  }

  /** The code point a well-formed sequence at the start of `s` encodes. */
  function CodePoint(s: seq<Byte>): (n: int)
    requires |s| > 0 && SequenceLength(s) > 0
    ensures IsScalar(n)
    ensures SequenceLength(s) == 2 ==> 0x80 <= n < 0x800
    ensures SequenceLength(s) == 3 ==> 0x800 <= n < 0x1_0000
    ensures SequenceLength(s) == 4 ==> 0x1_0000 <= n
  {
    var n := SequenceLength(s);
    var b0: int := s[0];
    if n == 1 then b0
    else if n == 2 then (b0 - 0xC0) * 64 + Low(s[1])
    else if n == 3 then (b0 - 0xE0) * 4096 + Low(s[1]) * 64 + Low(s[2])
    else (b0 - 0xF0) * 262144 + Low(s[1]) * 4096 + Low(s[2]) * 64 + Low(s[3])
  }

  /** Strict decoding; `None` is the `UnicodeDecodeError` Python raises. */
  function Decode(s: seq<Byte>): (r: Option<string>)
    ensures r.Some? ==> |r.value| <= |s|
    decreases |s|
  {
    if s == [] then Some("")
    else
      var n := SequenceLength(s);
      if n == 0 then None
      else match Decode(s[n..])
        case None => None
        case Some(rest) => Some([CodePoint(s) as char] + rest)
  }

  /** The encoding of one character, shortest form. */
  function EncodeChar(c: char): (bs: seq<Byte>)
    ensures 1 <= |bs| <= 4
  {
    var n := c as int;
    if n < 0x80 then [n]
    else if n < 0x800 then [0xC0 + n / 64, 0x80 + n % 64]
    else if n < 0x1_0000 then [0xE0 + n / 4096, 0x80 + (n / 64) % 64, 0x80 + n % 64]
    else [0xF0 + n / 262144, 0x80 + (n / 4096) % 64, 0x80 + (n / 64) % 64, 0x80 + n % 64]
  }

  /** `s.encode('utf-8')`. */
  function Encode(s: string): (bs: seq<Byte>)
    ensures |s| <= |bs| <= 4 * |s|
  {
    if s == [] then [] else EncodeChar(s[0]) + Encode(s[1..])
  }

  /** A character's encoding is one well-formed sequence that decodes to it. */
  lemma EncodeCharWellFormed(c: char, tail: seq<Byte>)
    ensures SequenceLength(EncodeChar(c) + tail) == |EncodeChar(c)|
    ensures CodePoint(EncodeChar(c) + tail) == c as int
  {
    var n := c as int;
    if n < 0x80 {
    } else if n < 0x800 {
      TwoByteWellFormed(c, tail);
    } else if n < 0x1_0000 {
      ThreeByteWellFormed(c, tail);
    } else {
      FourByteWellFormed(c, tail);
    }
  }

  lemma TwoByteWellFormed(c: char, tail: seq<Byte>)
    requires 0x80 <= c as int < 0x800
    ensures SequenceLength(EncodeChar(c) + tail) == 2
    ensures CodePoint(EncodeChar(c) + tail) == c as int
  {
    var n := c as int;
    var s := EncodeChar(c) + tail;
    assert s[0] == 0xC0 + n / 64 && s[1] == 0x80 + n % 64;
    assert (s[0] as int - 0xC0) * 64 + Low(s[1]) == n;
  }

  lemma ThreeByteWellFormed(c: char, tail: seq<Byte>)
    requires 0x800 <= c as int < 0x1_0000
    ensures SequenceLength(EncodeChar(c) + tail) == 3
    ensures CodePoint(EncodeChar(c) + tail) == c as int
  {
    var n := c as int;
    var s := EncodeChar(c) + tail;
    var x, y, z := n / 4096, (n / 64) % 64, n % 64;
    assert s[0] == 0xE0 + x && s[1] == 0x80 + y && s[2] == 0x80 + z;
    assert n / 64 == x * 64 + y;
    assert n == x * 4096 + y * 64 + z by {
      assert n == (n / 64) * 64 + z;
    }
    assert x == 0 ==> y >= 0x20;
    assert x == 13 ==> y < 0x20;
  }

  lemma FourByteWellFormed(c: char, tail: seq<Byte>)
    requires 0x1_0000 <= c as int
    ensures SequenceLength(EncodeChar(c) + tail) == 4
    ensures CodePoint(EncodeChar(c) + tail) == c as int
  {
    var n := c as int;
    var s := EncodeChar(c) + tail;
    var w, x, y, z := n / 262144, (n / 4096) % 64, (n / 64) % 64, n % 64;
    assert s[0] == 0xF0 + w && s[1] == 0x80 + x && s[2] == 0x80 + y && s[3] == 0x80 + z;
    assert n / 4096 == w * 64 + x;
    assert n / 64 == (n / 4096) * 64 + y;
    assert n == w * 262144 + x * 4096 + y * 64 + z by {
      assert n == (n / 64) * 64 + z;
    }
    assert w == 0 ==> x >= 0x10;
    assert w == 4 ==> x < 0x10;
  }

  /** Decoding what was encoded gives the text back. */
  lemma {:induction false} DecodeEncode(s: string)
    ensures Decode(Encode(s)) == Some(s)
  {
    if s != [] {
      var head, tail := EncodeChar(s[0]), Encode(s[1..]);
      EncodeCharWellFormed(s[0], tail);
      assert (head + tail)[|head|..] == tail;
      DecodeEncode(s[1..]);
      assert [s[0]] + s[1..] == s;
    }
  }

  /** Whether every byte is below 0x80. */
  predicate IsAscii(bs: seq<Byte>) {
    forall i :: 0 <= i < |bs| ==> bs[i] < 0x80
  }

  /** The characters whose codes are the given bytes. */
  function Chars(bs: seq<Byte>): (s: string)
    ensures |s| == |bs|
    ensures forall i :: 0 <= i < |bs| ==> s[i] as int == bs[i]
  {
    if bs == [] then "" else [bs[0] as char] + Chars(bs[1..])
  }

  /** ASCII bytes are valid UTF-8 and decode one character per byte. */
  lemma {:induction false} DecodeAscii(bs: seq<Byte>)
    requires IsAscii(bs)
    ensures Decode(bs) == Some(Chars(bs))
  {
    if bs != [] {
      DecodeAscii(bs[1..]);
    }
  }

  /** A stray continuation byte at the front is rejected. */
  lemma RejectsLeadingContinuation(bs: seq<Byte>)
    requires |bs| > 0 && IsContinuation(bs[0])
    ensures Decode(bs) == None
  {
  }
}
