/** UTF-8, as `Buffer.from(s)` (encoding) and `buf.toString('utf-8')`
    (decoding) use it: the encoding form of section 3 of RFC 3629, and a
    decoder that replaces each maximal ill-formed subsequence by U+FFFD, as
    the WHATWG Encoding Standard's UTF-8 decoder does. */
module Utf8 {

  type Byte = b: int | 0 <= b < 256

  const Replacement: char := '\U{FFFD}'

  /** A continuation byte `10xxxxxx`. */
  predicate IsCont(b: int) {
    0x80 <= b <= 0xBF
  }

  /** The one to four bytes of one scalar value. */
  function EncodeChar(c: char): (r: seq<Byte>)
    ensures 1 <= |r| <= 4
  {
    var cp := c as int;
    if cp < 0x80 then [cp]
    else if cp < 0x800 then [0xC0 + cp / 64, 0x80 + cp % 64]
    else if cp < 0x10000 then [0xE0 + cp / 4096, 0x80 + (cp / 64) % 64, 0x80 + cp % 64]
    else [0xF0 + cp / 262144, 0x80 + (cp / 4096) % 64, 0x80 + (cp / 64) % 64, 0x80 + cp % 64]
  }

  /** `Buffer.from(s)`: the bytes of every character, in order. */
  function Encode(s: string): (r: seq<Byte>)
    ensures |s| <= |r| <= 4 * |s|
  {
    if s == [] then [] else EncodeChar(s[0]) + Encode(s[1..])
  }

  /** The range the second byte of a sequence must fall in after lead byte
      `b0`: narrower than the continuation range after `E0`, `ED`, `F0` and
      `F4`, which is what excludes over-long forms, surrogates and values
      above U+10FFFF. */
  function SecondLow(b0: int): int {
    if b0 == 0xE0 then 0xA0 else if b0 == 0xF0 then 0x90 else 0x80
  }

  function SecondHigh(b0: int): int {
    if b0 == 0xED then 0x9F else if b0 == 0xF4 then 0x8F else 0xBF
  }

  /** The number of continuation bytes lead byte `b0` announces, or 0 when
      `b0` cannot start a sequence of more than one byte. */
  function Needed(b0: int): int {
    if 0xC2 <= b0 <= 0xDF then 1
    else if 0xE0 <= b0 <= 0xEF then 2
    else if 0xF0 <= b0 <= 0xF4 then 3
    else 0
  }

  /** The scalar value of a two-byte sequence. */
  function Char2(b0: Byte, b1: Byte): char
    requires 0xC2 <= b0 <= 0xDF && IsCont(b1)
  {
    ((b0 - 0xC0) * 64 + (b1 - 0x80)) as char
  }

  /** The scalar value of a three-byte sequence. */
  function Char3(b0: Byte, b1: Byte, b2: Byte): char
    requires 0xE0 <= b0 <= 0xEF && SecondLow(b0) <= b1 <= SecondHigh(b0) && IsCont(b2)
  {
    ((b0 - 0xE0) * 4096 + (b1 - 0x80) * 64 + (b2 - 0x80)) as char
  }

  /** The scalar value of a four-byte sequence. */
  function Char4(b0: Byte, b1: Byte, b2: Byte, b3: Byte): char
    requires 0xF0 <= b0 <= 0xF4 && SecondLow(b0) <= b1 <= SecondHigh(b0) && IsCont(b2) && IsCont(b3)
  {
    ((b0 - 0xF0) * 262144 + (b1 - 0x80) * 4096 + (b2 - 0x80) * 64 + (b3 - 0x80)) as char
  }

  /** `buf.toString('utf-8')`. A lead byte that cannot start a sequence, or a
      sequence cut short by a byte outside its allowed range or by the end of
      the input, gives one U+FFFD, and decoding resumes at the byte that broke
      the sequence. */
  function Decode(bs: seq<Byte>): (r: string)
    ensures |r| <= |bs|
    decreases |bs|
  {
    if bs == [] then ""
    else
      var b0 := bs[0];
      var n := Needed(b0);
      if b0 < 0x80 then [b0 as char] + Decode(bs[1..])
      else if n == 0 then [Replacement] + Decode(bs[1..])
      else if |bs| < 2 || !(SecondLow(b0) <= bs[1] <= SecondHigh(b0)) then [Replacement] + Decode(bs[1..])
      else if n == 1 then [Char2(b0, bs[1])] + Decode(bs[2..])
      else if |bs| < 3 || !IsCont(bs[2]) then [Replacement] + Decode(bs[2..])
      else if n == 2 then [Char3(b0, bs[1], bs[2])] + Decode(bs[3..])
      else if |bs| < 4 || !IsCont(bs[3]) then [Replacement] + Decode(bs[3..])
      else [Char4(b0, bs[1], bs[2], bs[3])] + Decode(bs[4..])
  }

  /** Decoding the bytes of one character, followed by anything, reads that
      character back and goes on with what follows. */
  lemma {:induction false} DecodeChar(c: char, rest: seq<Byte>)
    ensures Decode(EncodeChar(c) + rest) == [c] + Decode(rest)
  {
    var cp := c as int;
    if cp < 0x80 {
      assert (EncodeChar(c) + rest)[1..] == rest;
    } else if cp < 0x800 {
      DecodeTwo(c, rest);
    } else if cp < 0x10000 {
      DecodeThree(c, rest);
    } else {
      DecodeFour(c, rest);
    }
  }

  lemma {:induction false} DecodeTwo(c: char, rest: seq<Byte>)
    requires 0x80 <= c as int < 0x800
    ensures Decode(EncodeChar(c) + rest) == [c] + Decode(rest)
  {
    var cp := c as int;
    var bs := EncodeChar(c) + rest;
    assert bs[0] == 0xC0 + cp / 64 && bs[1] == 0x80 + cp % 64;
    assert Char2(bs[0], bs[1]) == c;
    assert bs[2..] == rest;
  }

  lemma {:induction false} DecodeThree(c: char, rest: seq<Byte>)
    requires 0x800 <= c as int < 0x10000
    ensures Decode(EncodeChar(c) + rest) == [c] + Decode(rest)
  {
    var cp := c as int;
    var bs := EncodeChar(c) + rest;
    assert bs[0] == 0xE0 + cp / 4096 && bs[1] == 0x80 + (cp / 64) % 64 && bs[2] == 0x80 + cp % 64;
    Split3(cp);
    assert Char3(bs[0], bs[1], bs[2]) == c;
    assert bs[3..] == rest;
  }

  lemma {:induction false} DecodeFour(c: char, rest: seq<Byte>)
    requires 0x10000 <= c as int
    ensures Decode(EncodeChar(c) + rest) == [c] + Decode(rest)
  {
    var cp := c as int;
    var bs := EncodeChar(c) + rest;
    assert bs[0] == 0xF0 + cp / 262144 && bs[1] == 0x80 + (cp / 4096) % 64;
    assert bs[2] == 0x80 + (cp / 64) % 64 && bs[3] == 0x80 + cp % 64;
    Split4(cp);
    assert Char4(bs[0], bs[1], bs[2], bs[3]) == c;
    assert bs[4..] == rest;
  }

  /** The digits of a three-byte scalar value in base 64, and the ranges of
      its first two. */
  lemma Split3(cp: int)
    requires 0x800 <= cp < 0x10000 && !(0xD800 <= cp < 0xE000)
    ensures cp == (cp / 4096) * 4096 + ((cp / 64) % 64) * 64 + cp % 64
    ensures var b0, b1 := 0xE0 + cp / 4096, 0x80 + (cp / 64) % 64;
            0xE0 <= b0 <= 0xEF && SecondLow(b0) <= b1 <= SecondHigh(b0)
  {
  }

  /** The digits of a four-byte scalar value in base 64, and the ranges of
      its first two. */
  lemma Split4(cp: int)
    requires 0x10000 <= cp < 0x110000
    ensures cp == (cp / 262144) * 262144 + ((cp / 4096) % 64) * 4096 + ((cp / 64) % 64) * 64 + cp % 64
    ensures var b0, b1 := 0xF0 + cp / 262144, 0x80 + (cp / 4096) % 64;
            0xF0 <= b0 <= 0xF4 && SecondLow(b0) <= b1 <= SecondHigh(b0)
  {
    var q1, r0 := cp / 64, cp % 64;
    var q2, r1 := q1 / 64, q1 % 64;
    var q3, r2 := q2 / 64, q2 % 64;
    assert cp == q1 * 64 + r0 && q1 == q2 * 64 + r1 && q2 == q3 * 64 + r2;
    assert cp / 4096 == q2;
    assert cp / 262144 == q3;
  }

  /** Decoding undoes encoding: every string survives the round trip through
      its UTF-8 bytes. */
  lemma {:induction false} DecodeEncode(s: string)
    ensures Decode(Encode(s)) == s
  {
    if s != [] {
      DecodeEncode(s[1..]);
      DecodeChar(s[0], Encode(s[1..]));
      assert s == [s[0]] + s[1..];
    }
  }

  /** ASCII text is encoded one byte per character, each its code point. */
  lemma {:induction false} EncodeAscii(s: string)
    requires forall i :: 0 <= i < |s| ==> s[i] < '\U{80}'
    ensures |Encode(s)| == |s|
    ensures forall i :: 0 <= i < |s| ==> Encode(s)[i] == s[i] as int
  {
    if s != [] {
      EncodeAscii(s[1..]);
    }
  }
}
