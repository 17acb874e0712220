/** Text as bytes: UTF-8 both ways, UTF-16 code units, and the lossy "ascii" encoding of Node buffers. */
module Utf8 {

  type Byte = b: int | 0 <= b < 256

  // ---------------------------------------------------------------- encoding

  function EncodeChar(c: char): (bs: seq<Byte>)
    ensures 1 <= |bs| <= 4
    ensures |bs| == 1 <==> c as int < 128
  {
    var p := c as int;
    if p < 0x80 then [p]
    else if p < 0x800 then [0xC0 + p / 64, 0x80 + p % 64]
    else if p < 0x10000 then [0xE0 + p / 4096, 0x80 + p / 64 % 64, 0x80 + p % 64]
    else [0xF0 + p / 262144, 0x80 + p / 4096 % 64, 0x80 + p / 64 % 64, 0x80 + p % 64]
  }

  function Encode(s: string): (bs: seq<Byte>)
    ensures |bs| >= |s|
  {
    if s == "" then [] else EncodeChar(s[0]) + Encode(s[1..])
  }

  // ---------------------------------------------------------------- decoding

  const REPLACEMENT: char := '\U{FFFD}'

  predicate IsContinuation(b: Byte) { 0x80 <= b < 0xC0 }

  /** How many bytes a lead byte announces; 0 for a byte that cannot lead. */
  function Announced(b: Byte): nat {
    if b < 0x80 then 1 else if b < 0xC2 then 0 else if b < 0xE0 then 2 else if b < 0xF0 then 3 else if b < 0xF5 then 4
    else 0
  }

  /** Second bytes are restricted so that overlong forms, surrogates and points above 10FFFF cannot occur. */
  predicate IsSecond(lead: Byte, b: Byte) {
    IsContinuation(b) &&
    (lead == 0xE0 ==> b >= 0xA0) && (lead == 0xED ==> b < 0xA0) &&
    (lead == 0xF0 ==> b >= 0x90) && (lead == 0xF4 ==> b < 0x90)
  }

  /** Appends the six payload bits of a continuation byte. */
  function Shift(high: int, b: int): int { high * 64 + (b - 0x80) }

  /** The first character and the number of bytes it takes; an ill-formed prefix becomes one replacement character. */
  function DecodeOne(bs: seq<Byte>): (r: (char, nat))
    requires bs != []
    ensures 1 <= r.1 <= |bs|
  {
    var n := Announced(bs[0]);
    if n == 1 then (bs[0] as char, 1)
    else if n == 0 || |bs| < 2 || !IsSecond(bs[0], bs[1]) then (REPLACEMENT, 1)
    else if n == 2 then (Shift(bs[0] - 0xC0, bs[1]) as char, 2)
    else if |bs| < 3 || !IsContinuation(bs[2]) then (REPLACEMENT, 2)
    else if n == 3 then (Shift(Shift(bs[0] - 0xE0, bs[1]), bs[2]) as char, 3)
    else if |bs| < 4 || !IsContinuation(bs[3]) then (REPLACEMENT, 3)
    else (Shift(Shift(Shift(bs[0] - 0xF0, bs[1]), bs[2]), bs[3]) as char, 4)
  }

  function Decode(bs: seq<Byte>): string {
    if bs == [] then "" else
      var (c, n) := DecodeOne(bs);
      [c] + Decode(bs[n..])
  }

  lemma DecodeOneOfEncoded(c: char, rest: seq<Byte>)
    ensures DecodeOne(EncodeChar(c) + rest) == (c, |EncodeChar(c)|)
  {
    var bs := EncodeChar(c) + rest;
    var p := c as int;
    assert forall i :: 0 <= i < |EncodeChar(c)| ==> bs[i] == EncodeChar(c)[i];
    if 0x80 <= p < 0x800 {
      assert p == p / 64 * 64 + p % 64;
    } else if 0x800 <= p < 0x10000 {
      assert p / 64 == p / 4096 * 64 + p / 64 % 64;
      assert p == p / 64 * 64 + p % 64;
    } else if 0x10000 <= p {
      assert p / 4096 == p / 262144 * 64 + p / 4096 % 64;
      assert p / 64 == p / 4096 * 64 + p / 64 % 64;
      assert p == p / 64 * 64 + p % 64;
    }
  }

  lemma Divided(high: int, low: int)
    requires 0 <= low < 64
    ensures (high * 64 + low) / 64 == high && (high * 64 + low) % 64 == low
  {
  }

  lemma TwoBytes(bs: seq<Byte>)
    requires |bs| >= 2 && Announced(bs[0]) == 2 && IsContinuation(bs[1])
    ensures EncodeChar(Shift(bs[0] - 0xC0, bs[1]) as char) == bs[..2]
  {
    Divided(bs[0] - 0xC0, bs[1] - 0x80);
    assert bs[..2] == [bs[0], bs[1]];
  }

  lemma ThreeBytes(bs: seq<Byte>)
    requires |bs| >= 3 && Announced(bs[0]) == 3 && IsSecond(bs[0], bs[1]) && IsContinuation(bs[2])
    ensures EncodeChar(Shift(Shift(bs[0] - 0xE0, bs[1]), bs[2]) as char) == bs[..3]
  {
    var high := Shift(bs[0] - 0xE0, bs[1]);
    Divided(bs[0] - 0xE0, bs[1] - 0x80);
    Divided(high, bs[2] - 0x80);
    var p := high * 64 + (bs[2] - 0x80);
    assert p / 4096 == high / 64;
    assert bs[..3] == [bs[0], bs[1], bs[2]];
  }

  lemma FourBytes(bs: seq<Byte>)
    requires |bs| >= 4 && Announced(bs[0]) == 4 && IsSecond(bs[0], bs[1]) && IsContinuation(bs[2]) && IsContinuation(bs[3])
    ensures EncodeChar(Shift(Shift(Shift(bs[0] - 0xF0, bs[1]), bs[2]), bs[3]) as char) == bs[..4]
  {
    var top := Shift(bs[0] - 0xF0, bs[1]);
    var high := Shift(top, bs[2]);
    Divided(bs[0] - 0xF0, bs[1] - 0x80);
    Divided(top, bs[2] - 0x80);
    Divided(high, bs[3] - 0x80);
    var p := high * 64 + (bs[3] - 0x80);
    assert p / 4096 == high / 64 && p / 262144 == top / 64;
    assert bs[..4] == [bs[0], bs[1], bs[2], bs[3]];
  }

  /** A character is read only where its own bytes stand; everything else is read as a replacement character. */
  lemma DecodedIsThere(bs: seq<Byte>)
    requires bs != []
    ensures var (c, n) := DecodeOne(bs); c == '\U{FFFD}' || EncodeChar(c) == bs[..n]
  {
    hide Shift;
    var (c, n) := DecodeOne(bs);
    if c != REPLACEMENT {
      if n == 1 {
        assert bs[..1] == [bs[0]];
      } else if n == 2 {
        TwoBytes(bs);
      } else if n == 3 {
        ThreeBytes(bs);
      } else {
        FourBytes(bs);
      }
    }
  }

  /** Decoding undoes encoding, whatever the text. */
  lemma {:induction false} DecodeEncoded(s: string)
    ensures Decode(Encode(s)) == s
  {
    if s != "" {
      DecodeOneOfEncoded(s[0], Encode(s[1..]));
      DecodeEncoded(s[1..]);
      assert Encode(s)[|EncodeChar(s[0])|..] == Encode(s[1..]);
    }
  }

  lemma {:induction false} EncodeAppend(s: string, t: string)
    ensures Encode(s + t) == Encode(s) + Encode(t)
  {
    hide EncodeChar;
    if s == "" {
      assert s + t == t;
    } else {
      assert (s + t)[0] == s[0] && (s + t)[1..] == s[1..] + t;
      EncodeAppend(s[1..], t);
    }
  }

  // ---------------------------------------------------------------- UTF-16 and "ascii"

  function UnitsOf(c: char): (us: seq<int>)
    ensures 1 <= |us| <= 2 && forall i :: 0 <= i < |us| ==> 0 <= us[i] < 0x10000
  {
    var p := c as int;
    if p < 0x10000 then [p] else [0xD800 + (p - 0x10000) / 1024, 0xDC00 + (p - 0x10000) % 1024]
  }

  /** A character beyond the sixteen-bit ones is a high and a low surrogate that stand for it. */
  lemma UnitsStandFor(c: char)
    ensures var us := UnitsOf(c);
            if |us| == 1 then us[0] == c as int
            else && 0xD800 <= us[0] < 0xDC00 && 0xDC00 <= us[1] < 0xE000
                 && c as int == 0x10000 + (us[0] - 0xD800) * 0x400 + (us[1] - 0xDC00)
  {
  }

  /** The code units of a JavaScript string. */
  function Units(s: string): (us: seq<int>)
    ensures |us| >= |s| && forall i :: 0 <= i < |us| ==> 0 <= us[i] < 0x10000
  {
    if s == "" then [] else UnitsOf(s[0]) + Units(s[1..])
  }

  /** Writing with encoding "ascii" keeps the low byte of every unit. */
  function LowBytes(us: seq<int>): (bs: seq<Byte>)
    requires forall i :: 0 <= i < |us| ==> 0 <= us[i] < 0x10000
    ensures |bs| == |us| && forall i :: 0 <= i < |us| ==> bs[i] == us[i] % 256
  {
    seq(|us|, i requires 0 <= i < |us| => us[i] % 256)
  }

  /** Reading with encoding "ascii" clears the top bit of every byte. */
  function FromAscii(bs: seq<Byte>): (s: string)
    ensures |s| == |bs| && forall i :: 0 <= i < |bs| ==> s[i] == (bs[i] % 128) as char
  {
    seq(|bs|, i requires 0 <= i < |bs| => (bs[i] % 128) as char)
  }

  predicate IsAscii(s: string) { forall i :: 0 <= i < |s| ==> s[i] as int < 128 }

  /** The bytes an ASCII text is written as. */
  function AsciiBytes(s: string): (bs: seq<Byte>)
    requires IsAscii(s)
    ensures |bs| == |s| && forall i :: 0 <= i < |s| ==> bs[i] == s[i] as int
  {
    seq(|s|, i requires 0 <= i < |s| => s[i] as int)
  }

  /** ASCII text is written byte by character, in every one of these encodings. */
  lemma {:induction false} AsciiIsPlain(s: string)
    requires IsAscii(s)
    ensures Units(s) == seq(|s|, i requires 0 <= i < |s| => s[i] as int)
    ensures Encode(s) == LowBytes(Units(s)) == AsciiBytes(s)
  {
    if s != "" {
      AsciiIsPlain(s[1..]);
    }
  }

  lemma {:induction false} UnitsFitBytes(s: string)
    ensures |Units(s)| <= |Encode(s)|
  {
    if s != "" {
      UnitsFitBytes(s[1..]);
    }
  }
}
