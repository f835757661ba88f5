/** UTF-8 (RFC 3629, section 3) for the characters a Python string can encode. */
module Utf8 {
  import opened Prelude

  function EncodeChar(c: char): (b: Bytes)
    ensures 1 <= |b| <= 4
  {
    var n := c as int;
    if n < 0x80 then [n as byte]
    else if n < 0x800 then [(0xC0 + n / 0x40) as byte, (0x80 + n % 0x40) as byte]
    else if n < 0x1_0000 then
      [(0xE0 + n / 0x1000) as byte, (0x80 + n / 0x40 % 0x40) as byte, (0x80 + n % 0x40) as byte]
    else
      [(0xF0 + n / 0x4_0000) as byte, (0x80 + n / 0x1000 % 0x40) as byte, (0x80 + n / 0x40 % 0x40) as byte,
       (0x80 + n % 0x40) as byte]
  }

  function Encode(s: string): Bytes {
    if s == [] then [] else EncodeChar(s[0]) + Encode(s[1..])
  }

  /** How many bytes a character takes, by its first byte. */
  function Width(first: byte): nat {
    if first < 0x80 then 1 else if first < 0xE0 then 2 else if first < 0xF0 then 3 else 4
  }

  /** The code point in the first `Width` bytes. */
  function CodePoint(b: Bytes): int
    requires b != [] && |b| >= Width(b[0])
  {
    var w := Width(b[0]);
    if w == 1 then b[0] as int
    else if w == 2 then (b[0] as int - 0xC0) * 0x40 + (b[1] as int - 0x80)
    else if w == 3 then (b[0] as int - 0xE0) * 0x1000 + (b[1] as int - 0x80) * 0x40 + (b[2] as int - 0x80)
    else (b[0] as int - 0xF0) * 0x4_0000 + (b[1] as int - 0x80) * 0x1000 + (b[2] as int - 0x80) * 0x40
         + (b[3] as int - 0x80)
  }

  /** The shape of section 3 of RFC 3629: one byte below 80, or a lead byte of the right range for its two,
      three or four bytes with continuation bytes 80 to BF behind it. */
  lemma EncodingShape(c: char)
    ensures var b, n := EncodeChar(c), c as int;
            && |b| == (if n < 0x80 then 1 else if n < 0x800 then 2 else if n < 0x1_0000 then 3 else 4)
            && (|b| == 1 ==> b[0] as int == n) && (|b| == 2 ==> 0xC2 <= b[0] <= 0xDF)
            && (|b| == 3 ==> 0xE0 <= b[0] <= 0xEF) && (|b| == 4 ==> 0xF0 <= b[0] <= 0xF4)
            && forall i :: 1 <= i < |b| ==> 0x80 <= b[i] <= 0xBF
  {
  }

  /** The first bytes of an encoding give back the character and where the next one starts. */
  lemma FirstCharRoundTrip(c: char, rest: Bytes)
    ensures var b := EncodeChar(c) + rest;
            Width(b[0]) == |EncodeChar(c)| && CodePoint(b) == c as int
  {
    var n := c as int;
    assert n / 0x40 / 0x40 == n / 0x1000 && n / 0x1000 / 0x40 == n / 0x4_0000;
  }

  lemma {:induction false} EncodeInjective(s: string, t: string)
    requires Encode(s) == Encode(t)
    ensures s == t
  {
    if s != [] && t != [] {
      var rs, rt := Encode(s[1..]), Encode(t[1..]);
      FirstCharRoundTrip(s[0], rs);
      FirstCharRoundTrip(t[0], rt);
      assert s[0] == t[0];
      var w := |EncodeChar(s[0])|;
      assert Encode(s)[w..] == rs && Encode(t)[w..] == rt;
      EncodeInjective(s[1..], t[1..]);
    }
  }
}
