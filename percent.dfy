/**
 * Percent-encoding of bytes (section 2.1 of RFC 3986) as the two encoders of the
 * model use it: ECMA-262's encodeURIComponent and the
 * application/x-www-form-urlencoded serializer of the WHATWG URL Standard
 * (section 5.2), which differ only in which bytes they leave alone and in writing
 * a space as '+'. DecodeBytes is the reference decoder the round trips are stated
 * against.
 */
module Percent {
  import opened Wrappers
  import opened Utf8

  predicate IsAsciiAlphanumeric(c: char) {
    'a' <= c <= 'z' || 'A' <= c <= 'Z' || '0' <= c <= '9'
  }

  /** uriUnreserved of ECMA-262: uriAlpha, DecimalDigit and uriMark. */
  predicate IsUriUnreserved(c: char) {
    IsAsciiAlphanumeric(c) || c in "-_.!~*'()"
  }

  /** The characters the application/x-www-form-urlencoded percent-encode set leaves alone. */
  predicate IsFormSafe(c: char) {
    IsAsciiAlphanumeric(c) || c in "*-._"
  }

  predicate IsUpperHex(c: char) {
    '0' <= c <= '9' || 'A' <= c <= 'F'
  }

  predicate IsHex(c: char) {
    IsUpperHex(c) || 'a' <= c <= 'f'
  }

  function HexValue(c: char): (v: int)
    requires IsHex(c)
    ensures 0 <= v < 16
  {
    if '0' <= c <= '9' then c as int - '0' as int
    else if 'A' <= c <= 'F' then c as int - 'A' as int + 10
    else c as int - 'a' as int + 10
  }

  function HexDigit(d: int): (c: char)
    requires 0 <= d < 16
    ensures IsUpperHex(c) && HexValue(c) == d
  {
    if d < 10 then ('0' as int + d) as char else ('A' as int + d - 10) as char
  }

  /** "%HH": one byte percent-encoded, with upper-case hexadecimal digits. */
  function Escape(b: Byte): (s: string)
    ensures |s| == 3 && s[0] == '%' && IsUpperHex(s[1]) && IsUpperHex(s[2])
    ensures HexValue(s[1]) * 16 + HexValue(s[2]) == b
  {
    ['%', HexDigit(b / 16), HexDigit(b % 16)]
  }

  /** Which of the two encoders is meant. */
  datatype EncodeSet = UriComponent | FormUrlencoded

  /** The characters that an encoder writes as themselves. */
  predicate Keeps(es: EncodeSet, c: char) {
    match es
    case UriComponent => IsUriUnreserved(c)
    case FormUrlencoded => IsFormSafe(c)
  }

  /** A character some output of the encoder can hold. */
  predicate Emits(es: EncodeSet, c: char) {
    Keeps(es, c) || c == '%' || IsUpperHex(c) || (es == FormUrlencoded && c == '+')
  }

  function EncodeByte(b: Byte, es: EncodeSet): (s: string)
    ensures forall i :: 0 <= i < |s| ==> Emits(es, s[i])
  {
    if es == FormUrlencoded && b == 0x20 then "+"
    else if b < 0x80 && Keeps(es, b as char) then [b as char]
    else Escape(b)
  }

  function EncodeBytes(bs: seq<Byte>, es: EncodeSet): (s: string)
    ensures forall i :: 0 <= i < |s| ==> Emits(es, s[i])
  {
    if bs == [] then [] else EncodeByte(bs[0], es) + EncodeBytes(bs[1..], es)
  }

  /**
   * Reference decoder: "%HH" (either case) stands for the byte HH, '+' for a
   * space when `plusIsSpace`, and any other ASCII character for its own code; a
   * '%' that is not followed by two hexadecimal digits, or a non-ASCII
   * character, is rejected.
   */
  function DecodeBytes(s: string, plusIsSpace: bool): Option<seq<Byte>>
    decreases |s|
  {
    if s == [] then Some([])
    else if s[0] == '%' then
      if |s| >= 3 && IsHex(s[1]) && IsHex(s[2]) then
        match DecodeBytes(s[3..], plusIsSpace)
        case None => None
        case Some(rest) => Some([HexValue(s[1]) * 16 + HexValue(s[2])] + rest)
      else None
    else if s[0] as int >= 0x80 then None
    else
      var b: Byte := if plusIsSpace && s[0] == '+' then 0x20 else s[0] as int;
      match DecodeBytes(s[1..], plusIsSpace)
      case None => None
      case Some(rest) => Some([b] + rest)
  }

  lemma DecodeEncodedByte(b: Byte, es: EncodeSet, tail: string, rest: seq<Byte>)
    requires DecodeBytes(tail, es == FormUrlencoded) == Some(rest)
    ensures DecodeBytes(EncodeByte(b, es) + tail, es == FormUrlencoded) == Some([b] + rest)
  {
    var s := EncodeByte(b, es) + tail;
    if es == FormUrlencoded && b == 0x20 {
      assert s[1..] == tail;
    } else if b < 0x80 && Keeps(es, b as char) {
      assert s[1..] == tail;
    } else {
      assert s[3..] == tail;
    }
  }

  /** Decoding undoes either encoder, byte for byte. */
  lemma {:induction false} DecodeEncodeBytes(bs: seq<Byte>, es: EncodeSet)
    ensures DecodeBytes(EncodeBytes(bs, es), es == FormUrlencoded) == Some(bs)
  {
    if bs != [] {
      DecodeEncodeBytes(bs[1..], es);
      DecodeEncodedByte(bs[0], es, EncodeBytes(bs[1..], es), bs[1..]);
      assert [bs[0]] + bs[1..] == bs;
    }
  }

  /** The encoders work byte by byte, so they distribute over concatenation. */
  lemma {:induction false} EncodeBytesAppend(a: seq<Byte>, b: seq<Byte>, es: EncodeSet)
    ensures EncodeBytes(a + b, es) == EncodeBytes(a, es) + EncodeBytes(b, es)
  {
    if a != [] {
      assert (a + b)[0] == a[0] && (a + b)[1..] == a[1..] + b;
      EncodeBytesAppend(a[1..], b, es);
      ConcatAssoc(EncodeByte(a[0], es), EncodeBytes(a[1..], es), EncodeBytes(b, es));
    } else {
      assert a + b == b;
    }
  }

  /** Associativity of concatenation over variables, so that the step in EncodeBytesAppend does not unfold the encodings. */
  lemma ConcatAssoc(x: string, y: string, z: string)
    ensures x + (y + z) == x + y + z
  {
  }

  /** Where there is no '+', reading '+' as a space makes no difference. */
  lemma {:induction false} DecodeBytesWithoutPlus(s: string)
    requires '+' !in s
    ensures DecodeBytes(s, true) == DecodeBytes(s, false)
    decreases |s|
  {
    if s != [] {
      if s[0] == '%' {
        if |s| >= 3 && IsHex(s[1]) && IsHex(s[2]) {
          assert '+' !in s[3..];
          DecodeBytesWithoutPlus(s[3..]);
        }
      } else {
        assert '+' !in s[1..];
        DecodeBytesWithoutPlus(s[1..]);
      }
    }
  }
}
