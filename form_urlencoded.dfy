/**
 * The application/x-www-form-urlencoded format of the URL Standard:
 * the serializer of section 5.2, which is what URLSearchParams.toString()
 * produces, and the parser of section 5.1, which is the independent
 * reference the serializer is proved against.
 */
module FormUrlencoded {
  import opened Options
  import Utf8

  type Byte = Utf8.Byte

  const Ampersand: Byte := 0x26
  const EqualsSign: Byte := 0x3D
  const Plus: Byte := 0x2B
  const Space: Byte := 0x20
  const Percent: Byte := 0x25

  /**
   * The bytes the serializer writes as themselves: ASCII alphanumerics and
   * `*`, `-`, `.`, `_` (everything else is in the form-urlencoded
   * percent-encode set).
   */
  predicate IsUnreserved(b: int) {
    (0x30 <= b <= 0x39) || (0x41 <= b <= 0x5A) || (0x61 <= b <= 0x7A)
    || b == 0x2A || b == 0x2D || b == 0x2E || b == 0x5F
  }

  predicate IsHexDigit(b: int) {
    (0x30 <= b <= 0x39) || (0x41 <= b <= 0x46) || (0x61 <= b <= 0x66)
  }

  /** The upper-case hexadecimal digit the serializer writes for `n`. */
  function HexDigit(n: int): (r: Byte)
    requires 0 <= n < 16
    ensures IsHexDigit(r) && IsUnreserved(r)
  {
    if n < 10 then 0x30 + n else 0x41 + (n - 10)
  }

  function HexValue(b: Byte): (r: int)
    requires IsHexDigit(b)
    ensures 0 <= r < 16
  {
    if b <= 0x39 then b - 0x30 else if b <= 0x46 then b - 0x41 + 10 else b - 0x61 + 10
  }

  lemma HexValueOfDigit(n: int)
    requires 0 <= n < 16
    ensures HexValue(HexDigit(n)) == n
  {
  }

  /** One byte, percent-encoded with the form-urlencoded set and space as plus. */
  function EncodeByte(b: Byte): (r: seq<Byte>)
    ensures forall i :: 0 <= i < |r| ==> IsEncodedByte(r[i])
  {
    if b == Space then [Plus]
    else if IsUnreserved(b) then [b]
    else [Percent, HexDigit(b / 16), HexDigit(b % 16)]
  }

  /** The bytes that can appear in the serializer's output inside a name or a value. */
  predicate IsEncodedByte(b: Byte) {
    IsUnreserved(b) || b == Plus || b == Percent
  }

  function PercentEncode(bs: seq<Byte>): (r: seq<Byte>)
    ensures forall i :: 0 <= i < |r| ==> IsEncodedByte(r[i])
  {
    if bs == [] then [] else EncodeByte(bs[0]) + PercentEncode(bs[1..])
  }

  /** "Percent-encode after encoding" a name or a value, with UTF-8. */
  function EncodeComponent(s: string): seq<Byte> {
    PercentEncode(Utf8.Encode(s))
  }

  function SerializePair(p: (string, string)): seq<Byte> {
    EncodeComponent(p.0) + [EqualsSign] + EncodeComponent(p.1)
  }

  function SerializeBytes(pairs: seq<(string, string)>): seq<Byte> {
    if pairs == [] then []
    else if |pairs| == 1 then SerializePair(pairs[0])
    else SerializePair(pairs[0]) + [Ampersand] + SerializeBytes(pairs[1..])
  }

  /** Every byte in `bs` is ASCII. */
  predicate AllAscii(bs: seq<Byte>) {
    forall i :: 0 <= i < |bs| ==> bs[i] < 0x80
  }

  /** Reads bytes as characters of the same code point. */
  function IsomorphicDecode(bs: seq<Byte>): (r: string)
    ensures |r| == |bs|
  {
    seq(|bs|, i requires 0 <= i < |bs| => bs[i] as char)
  }

  /** The application/x-www-form-urlencoded serializer of section 5.2 of the URL Standard. */
  function Serialize(pairs: seq<(string, string)>): string {
    IsomorphicDecode(SerializeBytes(pairs))
  }

  // ---------------------------------------------------------------------
  // The parser of section 5.1 of the URL Standard

  /** The first index of `x` in `bs`, or |bs| when there is none. */
  function IndexOf(bs: seq<Byte>, x: Byte): (r: nat)
    ensures r <= |bs|
    ensures r < |bs| ==> bs[r] == x
    ensures forall i :: 0 <= i < r ==> bs[i] != x
  {
    if bs == [] then 0 else if bs[0] == x then 0 else 1 + IndexOf(bs[1..], x)
  }

  /** Strictly splits `bs` on `sep`: k separators give k + 1 pieces. */
  function SplitOn(bs: seq<Byte>, sep: Byte): (r: seq<seq<Byte>>)
    ensures |r| >= 1
    decreases |bs|
  {
    var i := IndexOf(bs, sep);
    if i == |bs| then [bs] else [bs[..i]] + SplitOn(bs[i + 1..], sep)
  }

  function ReplacePlus(bs: seq<Byte>): (r: seq<Byte>)
    ensures |r| == |bs|
    ensures forall i :: 0 <= i < |bs| ==> r[i] == if bs[i] == Plus then Space else bs[i]
  {
    seq(|bs|, i requires 0 <= i < |bs| => if bs[i] == Plus then Space else bs[i])
  }

  /** Percent-decoding: `%` with two hexadecimal digits is one byte; anything else is kept. */
  function PercentDecode(bs: seq<Byte>): seq<Byte>
    decreases |bs|
  {
    if bs == [] then []
    else if bs[0] == Percent && |bs| >= 3 && IsHexDigit(bs[1]) && IsHexDigit(bs[2]) then
      [HexValue(bs[1]) * 16 + HexValue(bs[2])] + PercentDecode(bs[3..])
    else
      [bs[0]] + PercentDecode(bs[1..])
  }

  /** A name or value: plus signs become spaces, then percent-decoding, then UTF-8 decoding. */
  function DecodeComponent(bs: seq<Byte>): Option<string> {
    Utf8.Decode(PercentDecode(ReplacePlus(bs)))
  }

  /** One `&`-separated piece: the name is what precedes the first `=`, the value what follows it. */
  function ParsePiece(piece: seq<Byte>): Option<(string, string)> {
    var i := IndexOf(piece, EqualsSign);
    var name := piece[..i];
    var value := if i < |piece| then piece[i + 1..] else [];
    match (DecodeComponent(name), DecodeComponent(value))
    case (Some(n), Some(v)) => Some((n, v))
    case _ => None
  }

  function ParsePieces(pieces: seq<seq<Byte>>): Option<seq<(string, string)>> {
    if pieces == [] then Some([])
    else
      match ParsePieces(pieces[1..])
      case None => None
      case Some(rest) =>
        if pieces[0] == [] then Some(rest)
        else match ParsePiece(pieces[0])
          case None => None
          case Some(p) => Some([p] + rest)
  }

  /**
   * The application/x-www-form-urlencoded parser of section 5.1 of the URL
   * Standard. Where the standard substitutes U+FFFD for ill-formed UTF-8,
   * this one reports None.
   */
  function Parse(input: seq<Byte>): Option<seq<(string, string)>> {
    ParsePieces(SplitOn(input, Ampersand))
  }

  /** Parsing a string, as `new URLSearchParams(s)` does: UTF-8 encode, then parse. */
  function ParseString(s: string): Option<seq<(string, string)>> {
    Parse(Utf8.Encode(s))
  }

  // ---------------------------------------------------------------------
  // The serializer's output parses back to its input

  lemma ReplacePlusAppend(x: seq<Byte>, y: seq<Byte>)
    ensures ReplacePlus(x + y) == ReplacePlus(x) + ReplacePlus(y)
  {
  }

  /** Decoding the encoding of one byte, whatever follows, yields that byte first. */
  lemma DecodeEncodeByte(b: Byte, rest: seq<Byte>)
    ensures PercentDecode(ReplacePlus(EncodeByte(b) + rest)) == [b] + PercentDecode(ReplacePlus(rest))
  {
    ReplacePlusAppend(EncodeByte(b), rest);
    var r := ReplacePlus(rest);
    if b == Space {
      assert ReplacePlus([Plus]) == [Space];
      assert ([Space] + r)[1..] == r;
    } else if IsUnreserved(b) {
      assert ReplacePlus([b]) == [b];
      assert ([b] + r)[1..] == r;
    } else {
      var h, l := HexDigit(b / 16), HexDigit(b % 16);
      assert ReplacePlus([Percent, h, l]) == [Percent, h, l];
      var e := [Percent, h, l] + r;
      assert e[0] == Percent && e[1] == h && e[2] == l && e[3..] == r;
      HexValueOfDigit(b / 16);
      HexValueOfDigit(b % 16);
    }
  }

  /** Percent-decoding (after plus-to-space) inverts percent-encoding, for every byte sequence. */
  lemma {:induction false} DecodePercentEncode(bs: seq<Byte>)
    ensures PercentDecode(ReplacePlus(PercentEncode(bs))) == bs
  {
    if bs == [] {
      assert ReplacePlus([]) == [];
    } else {
      DecodeEncodeByte(bs[0], PercentEncode(bs[1..]));
      DecodePercentEncode(bs[1..]);
      assert [bs[0]] + bs[1..] == bs;
    }
  }

  /** A name or value decodes back to itself. */
  lemma DecodeEncodeComponent(s: string)
    ensures DecodeComponent(EncodeComponent(s)) == Some(s)
  {
    DecodePercentEncode(Utf8.Encode(s));
    Utf8.DecodeEncode(s);
  }

  lemma EncodedHasNo(s: string, x: Byte)
    requires !IsEncodedByte(x)
    ensures x !in EncodeComponent(s)
  {
  }

  lemma ParseSerializedPair(p: (string, string))
    ensures SerializePair(p) != []
    ensures Ampersand !in SerializePair(p)
    ensures ParsePiece(SerializePair(p)) == Some(p)
  {
    var n, v := EncodeComponent(p.0), EncodeComponent(p.1);
    var piece := n + [EqualsSign] + v;
    EncodedHasNo(p.0, Ampersand);
    EncodedHasNo(p.1, Ampersand);
    EncodedHasNo(p.0, EqualsSign);
    assert piece[|n|] == EqualsSign;
    var i := IndexOf(piece, EqualsSign);
    assert i == |n|;
    assert piece[..i] == n;
    assert piece[i + 1..] == v;
    DecodeEncodeComponent(p.0);
    DecodeEncodeComponent(p.1);
  }

  lemma SplitAtFirst(x: seq<Byte>, sep: Byte, y: seq<Byte>)
    requires sep !in x
    ensures SplitOn(x + [sep] + y, sep) == [x] + SplitOn(y, sep)
  {
    var bs := x + [sep] + y;
    var i := IndexOf(bs, sep);
    assert bs[|x|] == sep;
    assert i == |x|;
    assert bs[..i] == x && bs[i + 1..] == y;
  }

  lemma SplitWithout(x: seq<Byte>, sep: Byte)
    requires sep !in x
    ensures SplitOn(x, sep) == [x]
  {
  }

  /** The pieces of a serialization are exactly the serialized pairs, and they parse back. */
  lemma {:induction false} ParsePiecesSerialized(pairs: seq<(string, string)>)
    requires pairs != []
    ensures ParsePieces(SplitOn(SerializeBytes(pairs), Ampersand)) == Some(pairs)
  {
    var head := SerializePair(pairs[0]);
    ParseSerializedPair(pairs[0]);
    if |pairs| == 1 {
      SplitWithout(head, Ampersand);
      assert SerializeBytes(pairs) == head;
      var pieces := [head];
      assert pieces[0] == head && pieces[1..] == [];
      assert ParsePieces(pieces[1..]) == Some([]);
      assert ParsePiece(pieces[0]) == Some(pairs[0]);
      assert [pairs[0]] + [] == [pairs[0]];
      assert ParsePieces(pieces) == Some([pairs[0]]);
      assert [pairs[0]] == pairs;
    } else {
      SplitAtFirst(head, Ampersand, SerializeBytes(pairs[1..]));
      var pieces := [head] + SplitOn(SerializeBytes(pairs[1..]), Ampersand);
      assert pieces[0] == head && pieces[1..] == SplitOn(SerializeBytes(pairs[1..]), Ampersand);
      ParsePiecesSerialized(pairs[1..]);
      assert [pairs[0]] + pairs[1..] == pairs;
    }
  }

  lemma {:induction false} SerializedBytesAreAscii(pairs: seq<(string, string)>)
    ensures AllAscii(SerializeBytes(pairs))
  {
    if |pairs| > 1 {
      SerializedBytesAreAscii(pairs[1..]);
    }
  }

  lemma EncodeIsomorphicAscii(bs: seq<Byte>)
    requires AllAscii(bs)
    ensures Utf8.Encode(IsomorphicDecode(bs)) == bs
  {
    var s := IsomorphicDecode(bs);
    Utf8.EncodeAscii(s);
  }

  /**
   * Parsing a serialization gives back the same name-value pairs in the
   * same order, for every list of pairs.
   */
  lemma ParseSerialize(pairs: seq<(string, string)>)
    ensures ParseString(Serialize(pairs)) == Some(pairs)
  {
    SerializedBytesAreAscii(pairs);
    EncodeIsomorphicAscii(SerializeBytes(pairs));
    if pairs == [] {
      assert SplitOn([], Ampersand) == [[]];
      assert ParsePieces([[]]) == Some([]) by {
        var none: seq<seq<Byte>> := [[]];
        assert none[1..] == [];
      }
    } else {
      ParsePiecesSerialized(pairs);
    }
  }

  /** The serialization is empty exactly when there are no pairs. */
  lemma SerializeEmpty(pairs: seq<(string, string)>)
    ensures Serialize(pairs) == [] <==> pairs == []
  {
    if pairs != [] {
      ParseSerializedPair(pairs[0]);
      assert |SerializeBytes(pairs)| >= |SerializePair(pairs[0])|;
    }
  }

  /** A string made only of unreserved characters is serialized as itself. */
  lemma EncodeUnreserved(s: string)
    requires forall i :: 0 <= i < |s| ==> IsUnreserved(s[i] as int)
    ensures IsomorphicDecode(EncodeComponent(s)) == s
  {
    assert Utf8.IsAscii(s);
    Utf8.EncodeAscii(s);
    var bs := Utf8.Encode(s);
    PercentEncodeUnreserved(bs);
  }

  lemma {:induction false} PercentEncodeUnreserved(bs: seq<Byte>)
    requires forall i :: 0 <= i < |bs| ==> IsUnreserved(bs[i])
    ensures PercentEncode(bs) == bs
  {
    if bs != [] {
      PercentEncodeUnreserved(bs[1..]);
      assert [bs[0]] + bs[1..] == bs;
    }
  }

  predicate IsUnreservedString(s: string) {
    forall i :: 0 <= i < |s| ==> IsUnreserved(s[i] as int)
  }

  /** Pairs written out as `name=value` joined by `&`, without any escaping. */
  function JoinPlain(pairs: seq<(string, string)>): string {
    if pairs == [] then ""
    else if |pairs| == 1 then pairs[0].0 + "=" + pairs[0].1
    else pairs[0].0 + "=" + pairs[0].1 + "&" + JoinPlain(pairs[1..])
  }

  lemma IsomorphicDecodeAppend(x: seq<Byte>, y: seq<Byte>)
    ensures IsomorphicDecode(x + y) == IsomorphicDecode(x) + IsomorphicDecode(y)
  {
  }

  /** Pairs made only of unreserved characters serialize to themselves, unescaped. */
  lemma {:induction false} SerializeUnreserved(pairs: seq<(string, string)>)
    requires forall i :: 0 <= i < |pairs| ==> IsUnreservedString(pairs[i].0) && IsUnreservedString(pairs[i].1)
    ensures Serialize(pairs) == JoinPlain(pairs)
  {
    if pairs != [] {
      var (n, v) := pairs[0];
      var en, ev := EncodeComponent(n), EncodeComponent(v);
      EncodeUnreserved(n);
      EncodeUnreserved(v);
      IsomorphicDecodeAppend(en + [EqualsSign], ev);
      IsomorphicDecodeAppend(en, [EqualsSign]);
      assert IsomorphicDecode([EqualsSign]) == "=";
      assert IsomorphicDecode(SerializePair(pairs[0])) == n + "=" + v;
      if |pairs| > 1 {
        SerializeUnreserved(pairs[1..]);
        IsomorphicDecodeAppend(SerializePair(pairs[0]) + [Ampersand], SerializeBytes(pairs[1..]));
        IsomorphicDecodeAppend(SerializePair(pairs[0]), [Ampersand]);
        assert IsomorphicDecode([Ampersand]) == "&";
      }
    }
  }

  /** Two pairs of unreserved strings serialize to `a=b&c=d`. */
  lemma SerializeTwoUnreserved(a: string, b: string, c: string, d: string)
    requires IsUnreservedString(a) && IsUnreservedString(b)
    requires IsUnreservedString(c) && IsUnreservedString(d)
    ensures Serialize([(a, b), (c, d)]) == a + "=" + b + "&" + c + "=" + d
  {
    var pairs := [(a, b), (c, d)];
    SerializeUnreserved(pairs);
    assert pairs[1..] == [(c, d)];
  }
}
