/**
 * UTF-8 (RFC 3629) over Unicode scalar values. JavaScript's encodeURIComponent and
 * the application/x-www-form-urlencoded serializer both UTF-8-encode a string
 * before percent-encoding its bytes; Decode is the inverse used to state their
 * round trips.
 */
module Utf8 {
  import opened Wrappers

  type Byte = b: int | 0 <= b < 256

  predicate IsContinuation(b: Byte) {
    0x80 <= b < 0xC0
  }

  /** The one to four bytes that encode the scalar value of `c`. */
  function EncodeChar(c: char): (bs: seq<Byte>)
    ensures 1 <= |bs| <= 4
    ensures |bs| == 1 <==> c as int < 0x80
    ensures |bs| == 1 ==> bs[0] == c as int
    ensures |bs| > 1 ==> forall i :: 0 <= i < |bs| ==> bs[i] >= 0x80
  {
    var n := c as int;
    if n < 0x80 then [n]
    else if n < 0x800 then [0xC0 + n / 64, 0x80 + n % 64]
    else if n < 0x10000 then [0xE0 + n / 4096, 0x80 + n / 64 % 64, 0x80 + n % 64]
    else [0xF0 + n / 262144, 0x80 + n / 4096 % 64, 0x80 + n / 64 % 64, 0x80 + n % 64]
  }

  function Encode(s: string): (bs: seq<Byte>)
    ensures |s| <= |bs| <= 4 * |s|
  {
    if s == [] then [] else EncodeChar(s[0]) + Encode(s[1..])
  }

  /**
   * Decodes the character at the head of `bs`: the character and the number of
   * bytes it occupies, or None when the head is not a shortest-form encoding of a
   * scalar value (stray continuation byte, truncated sequence, overlong form,
   * surrogate, or a value above U+10FFFF).
   */
  function DecodeChar(bs: seq<Byte>): (r: Option<(char, nat)>)
    requires bs != []
    ensures r.Some? ==> 1 <= r.value.1 <= |bs| && bs[..r.value.1] == EncodeChar(r.value.0)
  {
    var b0: int := bs[0];
    if b0 < 0x80 then
      Some((b0 as char, 1))
    else if 0xC2 <= b0 < 0xE0 && |bs| >= 2 && IsContinuation(bs[1]) then
      var n: int := (b0 - 0xC0) * 64 + (bs[1] as int - 0x80);
      TwoBytes(b0, bs[1]);
      Some((n as char, 2))
    else if 0xE0 <= b0 < 0xF0 && |bs| >= 3 && IsContinuation(bs[1]) && IsContinuation(bs[2]) then
      var n: int := (b0 - 0xE0) * 4096 + (bs[1] as int - 0x80) * 64 + (bs[2] as int - 0x80);
      if 0x800 <= n && !(0xD800 <= n < 0xE000) then
        ThreeBytes(b0, bs[1], bs[2]);
        Some((n as char, 3))
      else None
    else if 0xF0 <= b0 < 0xF5 && |bs| >= 4 && IsContinuation(bs[1]) && IsContinuation(bs[2]) && IsContinuation(bs[3]) then
      var n: int := (b0 - 0xF0) * 262144 + (bs[1] as int - 0x80) * 4096 + (bs[2] as int - 0x80) * 64 + (bs[3] as int - 0x80);
      if 0x10000 <= n < 0x110000 then
        FourBytes(b0, bs[1], bs[2], bs[3]);
        Some((n as char, 4))
      else None
    else
      None
  }

  lemma TwoBytes(b0: int, b1: Byte)
    requires 0xC2 <= b0 < 0xE0 && IsContinuation(b1)
    ensures var n := (b0 - 0xC0) * 64 + (b1 as int - 0x80);
      0x80 <= n < 0x800 && EncodeChar(n as char) == [b0, b1]
  {
    var n := (b0 - 0xC0) * 64 + (b1 as int - 0x80);
    assert n / 64 == b0 - 0xC0 && n % 64 == b1 as int - 0x80;
  }

  lemma ThreeBytes(b0: int, b1: Byte, b2: Byte)
    requires 0xE0 <= b0 < 0xF0 && IsContinuation(b1) && IsContinuation(b2)
    requires var n := (b0 - 0xE0) * 4096 + (b1 as int - 0x80) * 64 + (b2 as int - 0x80);
      0x800 <= n && !(0xD800 <= n < 0xE000)
    ensures var n := (b0 - 0xE0) * 4096 + (b1 as int - 0x80) * 64 + (b2 as int - 0x80);
      n < 0x10000 && EncodeChar(n as char) == [b0, b1, b2]
  {
    var n := (b0 - 0xE0) * 4096 + (b1 as int - 0x80) * 64 + (b2 as int - 0x80);
    var m := (b0 - 0xE0) * 64 + (b1 as int - 0x80);
    assert n == m * 64 + (b2 as int - 0x80);
    assert n / 64 == m && n % 64 == b2 as int - 0x80;
    assert m / 64 == b0 - 0xE0 && m % 64 == b1 as int - 0x80;
    assert n / 4096 == m / 64;
  }

  lemma FourBytes(b0: int, b1: Byte, b2: Byte, b3: Byte)
    requires 0xF0 <= b0 < 0xF5 && IsContinuation(b1) && IsContinuation(b2) && IsContinuation(b3)
    requires var n := (b0 - 0xF0) * 262144 + (b1 as int - 0x80) * 4096 + (b2 as int - 0x80) * 64 + (b3 as int - 0x80);
      0x10000 <= n < 0x110000
    ensures var n := (b0 - 0xF0) * 262144 + (b1 as int - 0x80) * 4096 + (b2 as int - 0x80) * 64 + (b3 as int - 0x80);
      EncodeChar(n as char) == [b0, b1, b2, b3]
  {
    var n := (b0 - 0xF0) * 262144 + (b1 as int - 0x80) * 4096 + (b2 as int - 0x80) * 64 + (b3 as int - 0x80);
    var m := (b0 - 0xF0) * 64 + (b1 as int - 0x80);
    var k := m * 64 + (b2 as int - 0x80);
    assert n == k * 64 + (b3 as int - 0x80);
    assert n / 64 == k && n % 64 == b3 as int - 0x80;
    assert k / 64 == m && k % 64 == b2 as int - 0x80;
    assert m / 64 == b0 - 0xF0 && m % 64 == b1 as int - 0x80;
    assert n / 4096 == k / 64;
    assert n / 262144 == m / 64;
  }

  function Decode(bs: seq<Byte>): (r: Option<string>)
    decreases |bs|
  {
    if bs == [] then Some([])
    else match DecodeChar(bs)
      case None => None
      case Some((c, k)) =>
        match Decode(bs[k..])
        case None => None
        case Some(rest) => Some([c] + rest)
  }

  lemma DecodeCharOfEncoding(c: char, rest: seq<Byte>)
    ensures DecodeChar(EncodeChar(c) + rest) == Some((c, |EncodeChar(c)|))
  {
    var n := c as int;
    if 0x80 <= n < 0x800 {
      DecodeTwo(n, rest);
    } else if 0x800 <= n < 0x10000 {
      DecodeThree(n, rest);
    } else if 0x10000 <= n {
      DecodeFour(n, rest);
    }
  }

  lemma DecodeTwo(n: int, rest: seq<Byte>)
    requires 0x80 <= n < 0x800
    ensures DecodeChar([0xC0 + n / 64, 0x80 + n % 64] + rest) == Some((n as char, 2))
  {
    var bs: seq<Byte> := [0xC0 + n / 64, 0x80 + n % 64] + rest;
    assert bs[0] == 0xC0 + n / 64 && bs[1] == 0x80 + n % 64;
    assert (bs[0] as int - 0xC0) * 64 + (bs[1] as int - 0x80) == n;
  }

  lemma DecodeThree(n: int, rest: seq<Byte>)
    requires 0x800 <= n < 0x10000 && !(0xD800 <= n < 0xE000)
    ensures DecodeChar([0xE0 + n / 4096, 0x80 + n / 64 % 64, 0x80 + n % 64] + rest) == Some((n as char, 3))
  {
    var bs: seq<Byte> := [0xE0 + n / 4096, 0x80 + n / 64 % 64, 0x80 + n % 64] + rest;
    var m := n / 64;
    assert n == m * 64 + n % 64;
    assert m == (m / 64) * 64 + m % 64;
    assert n / 4096 == m / 64;
    assert (bs[0] as int - 0xE0) * 4096 + (bs[1] as int - 0x80) * 64 + (bs[2] as int - 0x80) == n;
  }

  lemma DecodeFour(n: int, rest: seq<Byte>)
    requires 0x10000 <= n < 0x110000
    ensures DecodeChar([0xF0 + n / 262144, 0x80 + n / 4096 % 64, 0x80 + n / 64 % 64, 0x80 + n % 64] + rest)
         == Some((n as char, 4))
  {
    var bs: seq<Byte> := [0xF0 + n / 262144, 0x80 + n / 4096 % 64, 0x80 + n / 64 % 64, 0x80 + n % 64] + rest;
    var k := n / 64;
    var m := k / 64;
    assert n == k * 64 + n % 64;
    assert k == m * 64 + k % 64;
    assert m == (m / 64) * 64 + m % 64;
    assert n / 4096 == m;
    assert n / 262144 == m / 64;
    assert (bs[0] as int - 0xF0) * 262144 + (bs[1] as int - 0x80) * 4096 + (bs[2] as int - 0x80) * 64 + (bs[3] as int - 0x80) == n;
  }

  /** Decoding undoes encoding. */
  lemma {:induction false} DecodeEncode(s: string)
    ensures Decode(Encode(s)) == Some(s)
  {
    if s != [] {
      var head := EncodeChar(s[0]);
      assert Encode(s) == head + Encode(s[1..]);
      DecodeCharOfEncoding(s[0], Encode(s[1..]));
      assert Encode(s)[|head|..] == Encode(s[1..]);
      DecodeEncode(s[1..]);
      assert [s[0]] + s[1..] == s;
    }
  }

  /** Whatever decodes, decodes to the one string whose encoding it is. */
  lemma {:induction false} EncodeDecode(bs: seq<Byte>, s: string)
    requires Decode(bs) == Some(s)
    ensures Encode(s) == bs
    decreases |bs|
  {
    if bs != [] {
      var c, k, rest := DecodeStep(bs);
      EncodeDecode(bs[k..], rest);
      assert s[0] == c && s[1..] == rest;
      assert bs == bs[..k] + bs[k..];
    }
  }

  /** A successful decoding of bytes reads one character off the front and decodes the rest. */
  lemma DecodeStep(bs: seq<Byte>) returns (c: char, k: nat, rest: string)
    requires bs != [] && Decode(bs).Some?
    ensures 1 <= k <= |bs| && bs[..k] == EncodeChar(c)
    ensures Decode(bs[k..]) == Some(rest) && Decode(bs).value == [c] + rest
  {
    var r := DecodeChar(bs).value;
    c, k := r.0, r.1;
    rest := Decode(bs[k..]).value;
  }
}
