/**
 * UTF-8, as the URL Standard's form-urlencoded serializer and parser use it
 * ("UTF-8 encode" and "UTF-8 decode without BOM" of the Encoding Standard).
 * A `char` is a Unicode scalar value.
 */
module Utf8 {
  import opened Options

  type Byte = b: int | 0 <= b < 256

  /** A byte that can follow the first byte of a multi-byte sequence. */
  predicate IsContinuation(b: Byte) {
    0x80 <= b < 0xC0
  }

  predicate IsScalar(cp: int) {
    0 <= cp < 0xD800 || 0xE000 <= cp < 0x11_0000
  }

  lemma DivMod64(x: nat)
    ensures x == 64 * (x / 64) + x % 64
    ensures 0 <= x % 64 < 64
  {
  }

  /** The one to four bytes that encode `c`. */
  function EncodeChar(c: char): (r: seq<Byte>)
    ensures 1 <= |r| <= 4
    ensures (c as int < 0x80) <==> |r| == 1
    ensures |r| == 1 ==> r[0] == c as int
    ensures forall i :: 1 <= i < |r| ==> IsContinuation(r[i])
  {
    var cp := c as int;
    var r0, q1 := cp % 64, cp / 64;
    var r1, q2 := q1 % 64, q1 / 64;
    var r2, q3 := q2 % 64, q2 / 64;
    if cp < 0x80 then [cp]
    else if cp < 0x800 then [0xC0 + q1, 0x80 + r0]
    else if cp < 0x1_0000 then [0xE0 + q2, 0x80 + r1, 0x80 + r0]
    else [0xF0 + q3, 0x80 + r2, 0x80 + r1, 0x80 + r0]
  }

  function Encode(s: string): (r: seq<Byte>)
    ensures |r| >= |s|
  {
    if s == [] then [] else EncodeChar(s[0]) + Encode(s[1..])
  }

  /**
   * Decodes the first scalar value of `b` and says how many bytes it took;
   * None for an ill-formed sequence (bad lead byte, missing continuation,
   * overlong form, surrogate, or a value beyond U+10FFFF).
   */
  function DecodeFirst(b: seq<Byte>): (r: Option<(char, nat)>)
    requires |b| > 0
    ensures r.Some? ==> 1 <= r.value.1 <= |b|
  {
    var b0: int := b[0];
    if b0 < 0x80 then
      Some((b0 as char, 1))
    else if 0xC2 <= b0 < 0xE0 && |b| >= 2 && IsContinuation(b[1]) then
      var cp := (b0 - 0xC0) * 64 + (b[1] as int - 0x80);
      Some((cp as char, 2))
    else if 0xE0 <= b0 < 0xF0 && |b| >= 3 && IsContinuation(b[1]) && IsContinuation(b[2]) then
      var cp := ((b0 - 0xE0) * 64 + (b[1] as int - 0x80)) * 64 + (b[2] as int - 0x80);
      if 0x800 <= cp && IsScalar(cp) then Some((cp as char, 3)) else None
    else if 0xF0 <= b0 < 0xF5 && |b| >= 4
            && IsContinuation(b[1]) && IsContinuation(b[2]) && IsContinuation(b[3]) then
      var cp := (((b0 - 0xF0) * 64 + (b[1] as int - 0x80)) * 64 + (b[2] as int - 0x80)) * 64 + (b[3] as int - 0x80);
      if 0x1_0000 <= cp < 0x11_0000 then Some((cp as char, 4)) else None
    else
      None
  }

  /** Decodes a whole byte sequence; None when any part of it is ill-formed. */
  function Decode(b: seq<Byte>): Option<string>
    decreases |b|
  {
    if b == [] then Some([])
    else match DecodeFirst(b)
      case None => None
      case Some((c, n)) =>
        match Decode(b[n..])
        case None => None
        case Some(rest) => Some([c] + rest)
  }

  /** Decoding the encoding of one character, whatever follows, gives that character back. */
  lemma DecodeFirstEncodeChar(c: char, rest: seq<Byte>)
    ensures DecodeFirst(EncodeChar(c) + rest) == Some((c, |EncodeChar(c)|))
  {
    var cp := c as int;
    var r0, q1 := cp % 64, cp / 64;
    var r1, q2 := q1 % 64, q1 / 64;
    var r2, q3 := q2 % 64, q2 / 64;
    DivMod64(cp);
    DivMod64(q1);
    DivMod64(q2);
    var b := EncodeChar(c) + rest;
    if cp < 0x80 {
    } else if cp < 0x800 {
      assert b[0] == 0xC0 + q1 && b[1] == 0x80 + r0;
      assert (b[0] as int - 0xC0) * 64 + (b[1] as int - 0x80) == cp;
    } else if cp < 0x1_0000 {
      assert b[0] == 0xE0 + q2 && b[1] == 0x80 + r1 && b[2] == 0x80 + r0;
      assert ((b[0] as int - 0xE0) * 64 + (b[1] as int - 0x80)) * 64 + (b[2] as int - 0x80) == cp;
    } else {
      assert b[0] == 0xF0 + q3 && b[1] == 0x80 + r2 && b[2] == 0x80 + r1 && b[3] == 0x80 + r0;
      assert (((b[0] as int - 0xF0) * 64 + (b[1] as int - 0x80)) * 64 + (b[2] as int - 0x80)) * 64 + (b[3] as int - 0x80) == cp;
    }
  }

  /** UTF-8 decoding inverts UTF-8 encoding, for every string. */
  lemma {:induction false} DecodeEncode(s: string)
    ensures Decode(Encode(s)) == Some(s)
  {
    if s != [] {
      var e := EncodeChar(s[0]);
      assert Encode(s) == e + Encode(s[1..]);
      DecodeFirstEncodeChar(s[0], Encode(s[1..]));
      assert (e + Encode(s[1..]))[|e|..] == Encode(s[1..]);
      DecodeEncode(s[1..]);
      assert [s[0]] + s[1..] == s;
    }
  }

  predicate IsAscii(s: string) {
    forall i :: 0 <= i < |s| ==> s[i] as int < 0x80
  }

  /** An ASCII string encodes to its own code points, one byte per character. */
  lemma {:induction false} EncodeAscii(s: string)
    requires IsAscii(s)
    ensures |Encode(s)| == |s|
    ensures forall i :: 0 <= i < |s| ==> Encode(s)[i] == s[i] as int
  {
    if s != [] {
      assert IsAscii(s[1..]) by {
        forall i | 0 <= i < |s[1..]| ensures s[1..][i] as int < 0x80 {
          assert s[1..][i] == s[i + 1];
        }
      }
      EncodeAscii(s[1..]);
    }
  }
}
