/** Base64, as `buf.toString('base64')` writes it (the encoding of section 4
    of RFC 4648, with `=` padding) and as `Buffer.from(s, 'base64')` reads
    it: characters outside the alphabet are skipped, the URL-safe `-` and `_`
    are accepted for 62 and 63, and the first `=` ends the input. */
module Base64 {
  import opened Utf8

  /** A six-bit value. */
  type Sextet = v: int | 0 <= v < 64

  /** The character of a six-bit value (Table 1 of RFC 4648). */
  function Digit(v: Sextet): (c: char)
    ensures c != '='
  {
    if v < 26 then ('A' as int + v) as char
    else if v < 52 then ('a' as int + (v - 26)) as char
    else if v < 62 then ('0' as int + (v - 52)) as char
    else if v == 62 then '+'
    else '/'
  }

  /** The characters of the standard alphabet. */
  predicate InAlphabet(c: char) {
    ('A' <= c <= 'Z') || ('a' <= c <= 'z') || ('0' <= c <= '9') || c == '+' || c == '/'
  }

  /** The characters the decoder takes as digits. */
  predicate IsDigit(c: char) {
    InAlphabet(c) || c == '-' || c == '_'
  }

  /** The value of a digit. */
  function Value(c: char): Sextet
    requires IsDigit(c)
  {
    if 'A' <= c <= 'Z' then c as int - 'A' as int
    else if 'a' <= c <= 'z' then c as int - 'a' as int + 26
    else if '0' <= c <= '9' then c as int - '0' as int + 52
    else if c == '+' || c == '-' then 62
    else 63
  }

  /** Every value has a digit of the standard alphabet, and reading the
      digit gives the value back. */
  lemma DigitValue(v: Sextet)
    ensures InAlphabet(Digit(v)) && Value(Digit(v)) == v
  {
  }

  /** The four six-bit values of three bytes `b0 b1 b2`, most significant
      bits first. */
  function S0(b0: Byte): Sextet { b0 / 4 }
  function S1(b0: Byte, b1: Byte): Sextet { (b0 % 4) * 16 + b1 / 16 }
  function S2(b1: Byte, b2: Byte): Sextet { (b1 % 16) * 4 + b2 / 64 }
  function S3(b2: Byte): Sextet { b2 % 64 }

  /** The four digits of three bytes. */
  function Quad(b0: Byte, b1: Byte, b2: Byte): string {
    [Digit(S0(b0)), Digit(S1(b0, b1)), Digit(S2(b1, b2)), Digit(S3(b2))]
  }

  /** `buf.toString('base64')`: four digits per three bytes, and a final group
      of one or two bytes padded with `==` or `=`. */
  function Encode(bs: seq<Byte>): string {
    if |bs| == 0 then ""
    else if |bs| == 1 then [Digit(S0(bs[0])), Digit(S1(bs[0], 0))] + "=="
    else if |bs| == 2 then [Digit(S0(bs[0])), Digit(S1(bs[0], bs[1])), Digit(S2(bs[1], 0))] + "="
    else Quad(bs[0], bs[1], bs[2]) + Encode(bs[3..])
  }

  /** Every character of `e` is in the alphabet or is `=`, and `=` appears
      only in the last two places. */
  predicate Padded(e: string) {
    && (forall i :: 0 <= i < |e| ==> InAlphabet(e[i]) || e[i] == '=')
    && (forall i :: 0 <= i < |e| - 2 ==> e[i] != '=')
  }

  /** The output is padded to whole groups of four: its length is a multiple
      of 4, every character is in the alphabet or is `=`, and `=` appears
      only in the last two places. */
  lemma {:induction false} EncodeShape(bs: seq<Byte>)
    ensures |Encode(bs)| == 4 * ((|bs| + 2) / 3)
    ensures Padded(Encode(bs))
  {
    if |bs| == 1 {
      ShapeOne(bs[0]);
      assert bs == [bs[0]];
    } else if |bs| == 2 {
      ShapeTwo(bs[0], bs[1]);
      assert bs == [bs[0], bs[1]];
    } else if |bs| >= 3 {
      EncodeShape(bs[3..]);
      QuadShape(bs[0], bs[1], bs[2], Encode(bs[3..]));
      Groups(|bs|);
    }
  }

  /** Three more bytes make one more group of four digits. */
  lemma Groups(n: int)
    requires n >= 3
    ensures 4 * ((n + 2) / 3) == 4 * ((n - 3 + 2) / 3) + 4
  {
  }

  lemma ShapeOne(b0: Byte)
    ensures |Encode([b0])| == 4 && Padded(Encode([b0]))
  {
    DigitValue(S0(b0));
    DigitValue(S1(b0, 0));
  }

  lemma ShapeTwo(b0: Byte, b1: Byte)
    ensures |Encode([b0, b1])| == 4 && Padded(Encode([b0, b1]))
  {
    DigitValue(S0(b0));
    DigitValue(S1(b0, b1));
    DigitValue(S2(b1, 0));
  }

  /** A group of four digits in front of a padded string leaves it padded. */
  lemma QuadShape(b0: Byte, b1: Byte, b2: Byte, rest: string)
    requires Padded(rest)
    ensures Padded(Quad(b0, b1, b2) + rest)
  {
    var q := Quad(b0, b1, b2);
    var e := q + rest;
    DigitValue(S0(b0));
    DigitValue(S1(b0, b1));
    DigitValue(S2(b1, b2));
    DigitValue(S3(b2));
    assert forall i :: 0 <= i < 4 ==> InAlphabet(q[i]);
    assert forall i :: 4 <= i < |e| ==> e[i] == rest[i - 4];
  }

  /** The digits the decoder reads: those before the first `=`, with every
      other character skipped. */
  function Digits(s: string): (r: seq<Sextet>)
    ensures |r| <= |s|
  {
    if s == [] || s[0] == '=' then []
    else if IsDigit(s[0]) then [Value(s[0])] + Digits(s[1..])
    else Digits(s[1..])
  }

  /** Three bytes per four digits; a final two or three digits give one or two
      bytes, and a single final digit gives none. */
  function FromDigits(vs: seq<Sextet>): seq<Byte> {
    if |vs| < 2 then []
    else if |vs| == 2 then [B0(vs[0], vs[1])]
    else if |vs| == 3 then [B0(vs[0], vs[1]), B1(vs[1], vs[2])]
    else [B0(vs[0], vs[1]), B1(vs[1], vs[2]), B2(vs[2], vs[3])] + FromDigits(vs[4..])
  }

  /** The three bytes of four six-bit values `v0 v1 v2 v3`. */
  function B0(v0: Sextet, v1: Sextet): Byte { (v0 as int) * 4 + (v1 as int) / 16 }
  function B1(v1: Sextet, v2: Sextet): Byte { ((v1 as int) % 16) * 16 + (v2 as int) / 4 }
  function B2(v2: Sextet, v3: Sextet): Byte { ((v2 as int) % 4) * 64 + v3 as int }

  /** `Buffer.from(s, 'base64')`. */
  function Decode(s: string): seq<Byte> {
    FromDigits(Digits(s))
  }

  /** The digits of one group of three bytes decode to those bytes. */
  lemma QuadBytes(b0: Byte, b1: Byte, b2: Byte)
    ensures B0(S0(b0), S1(b0, b1)) == b0
    ensures B1(S1(b0, b1), S2(b1, b2)) == b1
    ensures B2(S2(b1, b2), S3(b2)) == b2
  {
  }

  /** Reading the digits of an encoding gives the values it was built from. */
  lemma {:induction false} DigitsOfEncode(bs: seq<Byte>)
    ensures Digits(Encode(bs)) == Sextets(bs)
  {
    if |bs| == 1 {
      DigitsOfEncodeOne(bs[0]);
      assert bs == [bs[0]];
    } else if |bs| == 2 {
      DigitsOfEncodeTwo(bs[0], bs[1]);
      assert bs == [bs[0], bs[1]];
    } else if |bs| >= 3 {
      DigitsOfEncode(bs[3..]);
      DigitsOfQuad(bs[0], bs[1], bs[2], Encode(bs[3..]));
    }
  }

  lemma DigitsOfEncodeOne(b0: Byte)
    ensures Digits(Encode([b0])) == Sextets([b0])
  {
    assert Encode([b0]) == [Digit(S0(b0)), Digit(S1(b0, 0))] + "==";
    DigitsOfDigits(S0(b0), S1(b0, 0), "==");
  }

  lemma DigitsOfEncodeTwo(b0: Byte, b1: Byte)
    ensures Digits(Encode([b0, b1])) == Sextets([b0, b1])
  {
    var d2 := [Digit(S2(b1, 0))] + "=";
    assert Encode([b0, b1]) == [Digit(S0(b0)), Digit(S1(b0, b1))] + d2;
    DigitsOfDigits(S0(b0), S1(b0, b1), d2);
    DigitValue(S2(b1, 0));
    assert d2[1..] == "=";
  }

  /** The four digits of a group are read as its four values. */
  lemma DigitsOfQuad(b0: Byte, b1: Byte, b2: Byte, rest: string)
    ensures Digits(Quad(b0, b1, b2) + rest) == [S0(b0), S1(b0, b1), S2(b1, b2), S3(b2)] + Digits(rest)
  {
    var tail := [Digit(S2(b1, b2)), Digit(S3(b2))] + rest;
    assert Quad(b0, b1, b2) + rest == [Digit(S0(b0)), Digit(S1(b0, b1))] + tail;
    DigitsOfDigits(S0(b0), S1(b0, b1), tail);
    DigitsOfDigits(S2(b1, b2), S3(b2), rest);
  }

  /** Two leading digits are read as their values. */
  lemma DigitsOfDigits(v0: Sextet, v1: Sextet, rest: string)
    ensures Digits([Digit(v0), Digit(v1)] + rest) == [v0, v1] + Digits(rest)
  {
    DigitValue(v0);
    DigitValue(v1);
    var s := [Digit(v0), Digit(v1)] + rest;
    assert s[1..] == [Digit(v1)] + rest;
    assert s[1..][1..] == rest;
  }

  /** The six-bit values an encoding is built from, padding aside. */
  function Sextets(bs: seq<Byte>): seq<Sextet> {
    if |bs| == 0 then []
    else if |bs| == 1 then [S0(bs[0]), S1(bs[0], 0)]
    else if |bs| == 2 then [S0(bs[0]), S1(bs[0], bs[1]), S2(bs[1], 0)]
    else [S0(bs[0]), S1(bs[0], bs[1]), S2(bs[1], bs[2]), S3(bs[2])] + Sextets(bs[3..])
  }

  /** The values decode to the bytes they were built from. */
  lemma {:induction false} FromSextets(bs: seq<Byte>)
    ensures FromDigits(Sextets(bs)) == bs
  {
    if |bs| == 1 {
      FromSextetsOne(bs[0]);
      assert bs == [bs[0]];
    } else if |bs| == 2 {
      FromSextetsTwo(bs[0], bs[1]);
      assert bs == [bs[0], bs[1]];
    } else if |bs| >= 3 {
      var rest := Sextets(bs[3..]);
      FromSextets(bs[3..]);
      QuadBytes(bs[0], bs[1], bs[2]);
      assert Sextets(bs) == [S0(bs[0]), S1(bs[0], bs[1]), S2(bs[1], bs[2]), S3(bs[2])] + rest;
      FromDigitsGroup(S0(bs[0]), S1(bs[0], bs[1]), S2(bs[1], bs[2]), S3(bs[2]), rest);
      assert bs == [bs[0], bs[1], bs[2]] + bs[3..];
    }
  }

  lemma FromSextetsOne(b0: Byte)
    ensures FromDigits(Sextets([b0])) == [b0]
  {
    var vs := Sextets([b0]);
    assert vs == [S0(b0), S1(b0, 0)];
    assert FromDigits(vs) == [B0(vs[0], vs[1])];
    QuadBytes(b0, 0, 0);
  }

  lemma FromSextetsTwo(b0: Byte, b1: Byte)
    ensures FromDigits(Sextets([b0, b1])) == [b0, b1]
  {
    QuadBytes(b0, b1, 0);
  }

  /** A leading group of four values decodes to its three bytes. */
  lemma FromDigitsGroup(v0: Sextet, v1: Sextet, v2: Sextet, v3: Sextet, rest: seq<Sextet>)
    ensures FromDigits([v0, v1, v2, v3] + rest) == [B0(v0, v1), B1(v1, v2), B2(v2, v3)] + FromDigits(rest)
  {
    assert ([v0, v1, v2, v3] + rest)[4..] == rest;
  }

  /** Decoding undoes encoding for every byte string. */
  lemma DecodeEncode(bs: seq<Byte>)
    ensures Decode(Encode(bs)) == bs
  {
    DigitsOfEncode(bs);
    FromSextets(bs);
  }
}
