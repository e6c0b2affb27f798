/**
 * The base 64 encoding of section 4 of RFC 4648 (alphabet A-Z a-z 0-9 + /,
 * '=' padding), as used by JavaScript's `btoa` and by `base64 -d` on the
 * target side of a probe deployment.
 */
module Base64 {
  import opened Wrappers

  newtype byte = x: int | 0 <= x < 256

  /** The 64-character alphabet, index i holding the character for value i. */
  const Upper: string := "ABCDEFGHIJKLMNOPQRSTUVWXYZ"
  const Lower: string := "abcdefghijklmnopqrstuvwxyz"
  const Digits: string := "0123456789"
  const Alphabet: string := Upper + Lower + Digits + "+/"

  const Pad: char := '='

  /** The alphabet character for a 6-bit value. */
  function CharOf(v: nat): (c: char)
    requires v < 64
    ensures c != Pad && c != '\''
  {
    if v < 26 then ('A' as int + v) as char
    else if v < 52 then ('a' as int + (v - 26)) as char
    else if v < 62 then ('0' as int + (v - 52)) as char
    else if v == 62 then '+'
    else '/'
  }

  /** The 6-bit value of an alphabet character, None for any other character. */
  function ValueOf(c: char): (r: Option<nat>)
    ensures r.Some? ==> r.value < 64 && CharOf(r.value) == c
  {
    if 'A' <= c <= 'Z' then Some(c as int - 'A' as int)
    else if 'a' <= c <= 'z' then Some(c as int - 'a' as int + 26)
    else if '0' <= c <= '9' then Some(c as int - '0' as int + 52)
    else if c == '+' then Some(62)
    else if c == '/' then Some(63)
    else None
  }

  /** CharOf spells out the alphabet of RFC 4648, table 1. */
  lemma AlphabetTable(v: nat)
    requires v < 64
    ensures |Alphabet| == 64 && Alphabet[v] == CharOf(v)
  {
    if v < 26 {
      assert Alphabet[v] == Upper[v];
    } else if v < 52 {
      assert Alphabet[v] == Lower[v - 26];
    } else if v < 62 {
      assert Alphabet[v] == Digits[v - 52];
    }
  }

  lemma ValueOfCharOf(v: nat)
    requires v < 64
    ensures ValueOf(CharOf(v)) == Some(v)
  {
  }

  predicate InAlphabet(c: char) {
    ValueOf(c).Some?
  }

  /** Three bytes as four characters. */
  function Quad(a: byte, b: byte, c: byte): string {
    [CharOf(a as nat / 4), CharOf(a as nat % 4 * 16 + b as nat / 16),
     CharOf(b as nat % 16 * 4 + c as nat / 64), CharOf(c as nat % 64)]
  }

  /** A final group of two bytes: three characters and one pad. */
  function Quad2(a: byte, b: byte): string {
    [CharOf(a as nat / 4), CharOf(a as nat % 4 * 16 + b as nat / 16), CharOf(b as nat % 16 * 4), Pad]
  }

  /** A final group of one byte: two characters and two pads. */
  function Quad1(a: byte): string {
    [CharOf(a as nat / 4), CharOf(a as nat % 4 * 16), Pad, Pad]
  }

  /** Base64 text of a byte string, padded to a multiple of four characters. */
  function Encode(bs: seq<byte>): (s: string)
    ensures |s| == (|bs| + 2) / 3 * 4
    ensures forall i :: 0 <= i < |s| ==> InAlphabet(s[i]) || s[i] == Pad
    decreases |bs|
  {
    if |bs| == 0 then ""
    else if |bs| == 1 then Quad1(bs[0])
    else if |bs| == 2 then Quad2(bs[0], bs[1])
    else Quad(bs[0], bs[1], bs[2]) + Encode(bs[3..])
  }

  /** Decode one group of four characters, honouring padding only when `last` holds. */
  function DecodeQuad(q: string, last: bool): Option<seq<byte>>
    requires |q| == 4
  {
    match (ValueOf(q[0]), ValueOf(q[1]), ValueOf(q[2]), ValueOf(q[3]))
    case (Some(v0), Some(v1), Some(v2), Some(v3)) =>
      Some([(v0 * 4 + v1 / 16) as byte, (v1 % 16 * 16 + v2 / 4) as byte, (v2 % 4 * 64 + v3) as byte])
    case (Some(v0), Some(v1), Some(v2), None) =>
      if last && q[3] == Pad && v2 % 4 == 0 then Some([(v0 * 4 + v1 / 16) as byte, (v1 % 16 * 16 + v2 / 4) as byte])
      else None
    case (Some(v0), Some(v1), None, None) =>
      if last && q[2] == Pad && q[3] == Pad && v1 % 16 == 0 then Some([(v0 * 4 + v1 / 16) as byte]) else None
    case _ => None
  }

  /** Bytes of a canonical Base64 text; None for text that is not canonical Base64. */
  function Decode(s: string): (r: Option<seq<byte>>)
    decreases |s|
  {
    if |s| == 0 then Some([])
    else if |s| < 4 then None
    else
      match DecodeQuad(s[..4], |s| == 4)
      case None => None
      case Some(head) =>
        match Decode(s[4..])
        case None => None
        case Some(tail) => Some(head + tail)
  }

  lemma {:induction false} DecodeQuadOfQuad(a: byte, b: byte, c: byte, last: bool)
    ensures DecodeQuad(Quad(a, b, c), last) == Some([a, b, c])
  {
    var v0, v1, v2, v3 := a as nat / 4, a as nat % 4 * 16 + b as nat / 16, b as nat % 16 * 4 + c as nat / 64, c as nat % 64;
    ValueOfCharOf(v0); ValueOfCharOf(v1); ValueOfCharOf(v2); ValueOfCharOf(v3);
    assert v0 * 4 + v1 / 16 == a as int;
    assert v1 % 16 * 16 + v2 / 4 == b as int;
    assert v2 % 4 * 64 + v3 == c as int;
  }

  lemma {:induction false} DecodeQuadOfQuad2(a: byte, b: byte)
    ensures DecodeQuad(Quad2(a, b), true) == Some([a, b])
  {
    var v0, v1, v2 := a as nat / 4, a as nat % 4 * 16 + b as nat / 16, b as nat % 16 * 4;
    ValueOfCharOf(v0); ValueOfCharOf(v1); ValueOfCharOf(v2);
    assert v0 * 4 + v1 / 16 == a as int;
    assert v1 % 16 * 16 + v2 / 4 == b as int;
  }

  lemma {:induction false} DecodeQuadOfQuad1(a: byte)
    ensures DecodeQuad(Quad1(a), true) == Some([a])
  {
    var v0, v1 := a as nat / 4, a as nat % 4 * 16;
    ValueOfCharOf(v0); ValueOfCharOf(v1);
    assert v0 * 4 + v1 / 16 == a as int;
  }

  /** Decoding a group followed by the rest decodes each in turn. */
  lemma DecodeGroup(q: string, rest: string, head: seq<byte>, tail: seq<byte>)
    requires |q| == 4 && DecodeQuad(q, |rest| == 0) == Some(head) && Decode(rest) == Some(tail)
    ensures Decode(q + rest) == Some(head + tail)
  {
    var s := q + rest;
    assert s[..4] == q && s[4..] == rest;
  }

  /** The last, padded group. */
  lemma DecodeEncodeShort(bs: seq<byte>)
    requires |bs| == 1 || |bs| == 2
    ensures Decode(Encode(bs)) == Some(bs)
  {
    if |bs| == 1 {
      DecodeQuadOfQuad1(bs[0]);
      DecodeGroup(Quad1(bs[0]), "", [bs[0]], []);
      assert Quad1(bs[0]) + "" == Encode(bs) && [bs[0]] + [] == bs;
    } else {
      DecodeQuadOfQuad2(bs[0], bs[1]);
      DecodeGroup(Quad2(bs[0], bs[1]), "", [bs[0], bs[1]], []);
      assert Quad2(bs[0], bs[1]) + "" == Encode(bs) && [bs[0], bs[1]] + [] == bs;
    }
  }

  /** A full group in front of any decodable rest. */
  lemma DecodeFullGroup(a: byte, b: byte, c: byte, rest: string, tail: seq<byte>)
    requires Decode(rest) == Some(tail)
    ensures Decode(Quad(a, b, c) + rest) == Some([a, b, c] + tail)
  {
    DecodeQuadOfQuad(a, b, c, |rest| == 0);
    DecodeGroup(Quad(a, b, c), rest, [a, b, c], tail);
  }

  /** A full group in front of a tail that round-trips. */
  lemma DecodeEncodeGroup(bs: seq<byte>)
    requires |bs| >= 3 && Decode(Encode(bs[3..])) == Some(bs[3..])
    ensures Decode(Encode(bs)) == Some(bs)
  {
    assert Encode(bs) == Quad(bs[0], bs[1], bs[2]) + Encode(bs[3..]);
    DecodeFullGroup(bs[0], bs[1], bs[2], Encode(bs[3..]), bs[3..]);
    SplitThree(bs);
  }

  lemma SplitThree<T>(s: seq<T>)
    requires |s| >= 3
    ensures [s[0], s[1], s[2]] + s[3..] == s
  {
  }

  /** Decoding the encoding of any byte string gives that byte string back. */
  lemma {:induction false} DecodeEncode(bs: seq<byte>)
    ensures Decode(Encode(bs)) == Some(bs)
    decreases |bs|
  {
    if |bs| == 1 || |bs| == 2 {
      DecodeEncodeShort(bs);
    } else if |bs| >= 3 {
      DecodeEncode(bs[3..]);
      DecodeEncodeGroup(bs);
    }
  }

  /** No Base64 text holds a single quote, so it cannot end a shell literal quoted with `'`. */
  lemma {:induction false} EncodeHasNoQuote(bs: seq<byte>)
    ensures '\'' !in Encode(bs)
  {
    var s := Encode(bs);
    forall i | 0 <= i < |s| ensures s[i] != '\'' {
      assert InAlphabet(s[i]) || s[i] == Pad;
    }
  }

  /**
   * JavaScript's `InvalidCharacterError` carries no index. The position is
   * added by this model, counted in characters of the text rather than in
   * UTF-16 code units, so that the contracts can say which character failed.
   */
  datatype BtoaError = InvalidCharacter(position: nat)

  /** The Latin-1 bytes of a text whose characters are all below 256. */
  function Latin1(text: string): (bs: seq<byte>)
    requires forall i :: 0 <= i < |text| ==> text[i] as int < 256
    ensures |bs| == |text|
    ensures forall i :: 0 <= i < |text| ==> bs[i] as int == text[i] as int
  {
    seq(|text|, i requires 0 <= i < |text| => text[i] as int as byte)
  }

  /** First position holding a character above 255, if any. */
  function FirstWide(text: string, from: nat): (r: Option<nat>)
    requires from <= |text|
    ensures r.None? ==> forall i :: from <= i < |text| ==> text[i] as int < 256
    ensures r.Some? ==> from <= r.value < |text| && text[r.value] as int >= 256
    ensures r.Some? ==> forall j :: from <= j < r.value ==> text[j] as int < 256
    decreases |text| - from
  {
    if from == |text| then None
    else if text[from] as int >= 256 then Some(from)
    else FirstWide(text, from + 1)
  }

  /**
   * JavaScript `btoa`: each character is one Latin-1 byte; a character above
   * 255 makes it throw InvalidCharacterError.
   */
  function Btoa(text: string): (r: Result<string, BtoaError>)
    ensures r.Success? <==> forall i :: 0 <= i < |text| ==> text[i] as int < 256
    ensures r.Failure? ==> r.error.position < |text| && text[r.error.position] as int >= 256
    ensures r.Failure? ==> forall j :: 0 <= j < r.error.position ==> text[j] as int < 256
    ensures r.Success? ==> Decode(r.value) == Some(Latin1(text))
    ensures r.Success? ==> '\'' !in r.value
  {
    match FirstWide(text, 0)
    case Some(i) => Failure(InvalidCharacter(i))
    case None =>
      DecodeEncode(Latin1(text));
      EncodeHasNoQuote(Latin1(text));
      Success(Encode(Latin1(text)))
  }
}
