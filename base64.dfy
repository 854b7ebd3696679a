/**
  Base 64 with the alphabet of section 4 of RFC 4648 (`A`-`Z`, `a`-`z`,
  `0`-`9`, `+`, `/`, padding `=`). Decoding is strict: the text is a whole
  number of four-character groups, and only the last group may be padded.
  As in Python's decoder, the unused low bits of a padded group are not
  checked.
 */
module Base64 {
  import opened Wrappers

  type Byte = b: int | 0 <= b < 256
  type Sextet = n: int | 0 <= n < 64

  /** The character that encodes a six-bit group. */
  function CharOf(n: Sextet): (c: char)
    ensures SextetOf(c) == Some(n)
  {
    if n < 26 then ('A' as int + n) as char
    else if n < 52 then ('a' as int + (n - 26)) as char
    else if n < 62 then ('0' as int + (n - 52)) as char
    else if n == 62 then '+'
    else '/'
  }

  /** The six-bit group a character encodes, if it is in the alphabet. */
  function SextetOf(c: char): Option<Sextet> {
    if 'A' <= c <= 'Z' then Some(c as int - 'A' as int)
    else if 'a' <= c <= 'z' then Some(c as int - 'a' as int + 26)
    else if '0' <= c <= '9' then Some(c as int - '0' as int + 52)
    else if c == '+' then Some(62)
    else if c == '/' then Some(63)
    else None
  }

  /** The four characters of three bytes. */
  function EncodeGroup(x: Byte, y: Byte, z: Byte): (q: string)
    ensures |q| == 4
  {
    [CharOf(x / 4), CharOf((x % 4) * 16 + y / 16), CharOf((y % 16) * 4 + z / 64), CharOf(z % 64)]
  }

  /** Encodes bytes, three to a group of four characters, padding the last group. */
  function Encode(b: seq<Byte>): (s: string)
    ensures |s| == 4 * ((|b| + 2) / 3)
  {
    if |b| == 0 then ""
    else if |b| == 1 then
      [CharOf(b[0] / 4), CharOf((b[0] % 4) * 16), '=', '=']
    else if |b| == 2 then
      [CharOf(b[0] / 4), CharOf((b[0] % 4) * 16 + b[1] / 16), CharOf((b[1] % 16) * 4), '=']
    else
      EncodeGroup(b[0], b[1], b[2]) + Encode(b[3..])
  }

  /** The three bytes that four six-bit groups carry. */
  function Unpack(a: Sextet, b: Sextet, c: Sextet, d: Sextet): seq<Byte> {
    [a * 4 + b / 16, (b % 16) * 16 + c / 4, (c % 4) * 64 + d]
  }

  /** Decodes a group of four alphabet characters. */
  function DecodeGroup(q: string): (r: Option<seq<Byte>>)
    requires |q| == 4
    ensures r.Some? ==> |r.value| == 3
  {
    var a, b, c, d := SextetOf(q[0]), SextetOf(q[1]), SextetOf(q[2]), SextetOf(q[3]);
    if a.Some? && b.Some? && c.Some? && d.Some? then Some(Unpack(a.value, b.value, c.value, d.value))
    else None
  }

  /** Decodes the last group, which may end in `==` (one byte) or `=` (two bytes). */
  function DecodeLastGroup(q: string): (r: Option<seq<Byte>>)
    requires |q| == 4
    ensures r.Some? ==> 1 <= |r.value| <= 3
  {
    var a, b, c := SextetOf(q[0]), SextetOf(q[1]), SextetOf(q[2]);
    if q[2] == '=' && q[3] == '=' then
      if a.Some? && b.Some? then Some(Unpack(a.value, b.value, 0, 0)[..1]) else None
    else if q[3] == '=' then
      if a.Some? && b.Some? && c.Some? then Some(Unpack(a.value, b.value, c.value, 0)[..2]) else None
    else DecodeGroup(q)
  }

  /** Strict decoding; `None` is the error Python's decoder raises. */
  function Decode(s: string): (r: Option<seq<Byte>>)
  {
    if |s| == 0 then Some([])
    else if |s| < 4 then None
    else if |s| == 4 then DecodeLastGroup(s)
    else
      var first, rest := DecodeGroup(s[..4]), Decode(s[4..]);
      if first.Some? && rest.Some? then Some(first.value + rest.value) else None
  }

  /** Decoded input is a whole number of groups, each giving at most three bytes. */
  lemma {:induction false} DecodeLength(s: string)
    ensures Decode(s).Some? ==> |s| % 4 == 0 && 4 * |Decode(s).value| <= 3 * |s|
    decreases |s|
  {
    if |s| > 4 && Decode(s).Some? {
      var rest := s[4..];
      DecodeLength(rest);
      DecodeFullGroupLength(s);
      GroupsArithmetic(|s|, |Decode(s).value|, |Decode(rest).value|);
    }
  }

  /** A longer input decodes to three bytes from its first group and the rest from the others. */
  lemma DecodeFullGroupLength(s: string)
    requires |s| > 4 && Decode(s).Some?
    ensures Decode(s[4..]).Some? && |Decode(s).value| == 3 + |Decode(s[4..]).value|
  {
  }

  lemma GroupsArithmetic(chars: int, bytes: int, restBytes: int)
    requires chars > 4 && (chars - 4) % 4 == 0 && 4 * restBytes <= 3 * (chars - 4)
    requires bytes == 3 + restBytes
    ensures chars % 4 == 0 && 4 * bytes <= 3 * chars
  {
  }

  /** Three bytes survive a trip through a full group. */
  lemma GroupRoundTrip(x: Byte, y: Byte, z: Byte)
    ensures DecodeGroup(EncodeGroup(x, y, z)) == Some([x, y, z])
    ensures DecodeLastGroup(EncodeGroup(x, y, z)) == Some([x, y, z])
  {
    var a, b, c, d := x / 4, (x % 4) * 16 + y / 16, (y % 16) * 4 + z / 64, z % 64;
    var q := EncodeGroup(x, y, z);
    assert q == [CharOf(a), CharOf(b), CharOf(c), CharOf(d)];
    assert DecodeGroup(q) == Some(Unpack(a, b, c, d));
    UnpackOfSplit(x, y, z);
  }

  /** Unpacking the four six-bit groups of three bytes gives the bytes back. */
  lemma UnpackOfSplit(x: Byte, y: Byte, z: Byte)
    ensures Unpack(x / 4, (x % 4) * 16 + y / 16, (y % 16) * 4 + z / 64, z % 64) == [x, y, z]
  {
    FirstByteBits(x, y);
    SecondByteBits(x, y, z);
    ThirdByteBits(y, z);
  }

  lemma FirstByteBits(x: Byte, y: Byte)
    ensures (x / 4) * 4 + ((x % 4) * 16 + y / 16) / 16 == x
  {
    assert ((x % 4) * 16 + y / 16) / 16 == x % 4;
  }

  lemma SecondByteBits(x: Byte, y: Byte, z: Byte)
    ensures (((x % 4) * 16 + y / 16) % 16) * 16 + ((y % 16) * 4 + z / 64) / 4 == y
  {
    assert ((x % 4) * 16 + y / 16) % 16 == y / 16;
    assert ((y % 16) * 4 + z / 64) / 4 == y % 16;
  }

  lemma ThirdByteBits(y: Byte, z: Byte)
    ensures (((y % 16) * 4 + z / 64) % 4) * 64 + z % 64 == z
  {
    assert ((y % 16) * 4 + z / 64) % 4 == z / 64;
  }

  /** One byte survives a trip through a group padded with `==`. */
  lemma OneByteRoundTrip(x: Byte)
    ensures Decode(Encode([x])) == Some([x])
  {
    assert Unpack(x / 4, (x % 4) * 16, 0, 0)[..1] == [x];
  }

  /** Two bytes survive a trip through a group padded with `=`. */
  lemma TwoBytesRoundTrip(x: Byte, y: Byte)
    ensures Decode(Encode([x, y])) == Some([x, y])
  {
    assert Unpack(x / 4, (x % 4) * 16 + y / 16, (y % 16) * 4, 0)[..2] == [x, y];
  }

  /** A full group in front of more text decodes on its own. */
  lemma DecodeFullGroupFirst(q: string, rest: string)
    requires |q| == 4 && |rest| > 0
    ensures Decode(q + rest) ==
      (if DecodeGroup(q).Some? && Decode(rest).Some? then Some(DecodeGroup(q).value + Decode(rest).value) else None)
  {
    var s := q + rest;
    assert s[..4] == q && s[4..] == rest;
  }

  /** Decoding what was encoded gives the bytes back. */
  lemma {:induction false} DecodeEncode(b: seq<Byte>)
    ensures Decode(Encode(b)) == Some(b)
  {
    if |b| == 1 {
      OneByteRoundTrip(b[0]);
      assert b == [b[0]];
    } else if |b| == 2 {
      TwoBytesRoundTrip(b[0], b[1]);
      assert b == [b[0], b[1]];
    } else if |b| >= 3 {
      var q := EncodeGroup(b[0], b[1], b[2]);
      GroupRoundTrip(b[0], b[1], b[2]);
      assert b == [b[0], b[1], b[2]] + b[3..];
      if |b| == 3 {
        assert Encode(b[3..]) == "";
        assert Encode(b) == q;
        assert Decode(q) == DecodeLastGroup(q);
        assert b == [b[0], b[1], b[2]];
      } else {
        assert Encode(b) == q + Encode(b[3..]);
        DecodeEncode(b[3..]);
        DecodeFullGroupFirst(q, Encode(b[3..]));
      }
    }
  }
}
