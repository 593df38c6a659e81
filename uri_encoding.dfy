/**
 * encodeURIComponent of ECMA-262 (section 19.2.6.5, by way of its Encode
 * abstract operation), over strings of Unicode scalar values, with the output
 * alphabet, the decode round trip and the byte-level reading of the algorithm
 * proved about it.
 */
module UriEncoding {
  import opened Wrappers
  import opened Utf8
  import opened Percent

  /** The %HH triples of a sequence of bytes. */
  function EscapeAll(bs: seq<Byte>): (s: string)
    ensures |s| == 3 * |bs|
  {
    if bs == [] then [] else Escape(bs[0]) + EscapeAll(bs[1..])
  }

  /**
   * The shape of encodeURIComponent's output: a concatenation of unreserved
   * characters and "%HH" triples whose digits are upper-case.
   */
  predicate IsEncodedComponent(s: string)
    decreases |s|
  {
    || s == []
    || (IsUriUnreserved(s[0]) && IsEncodedComponent(s[1..]))
    || (|s| >= 3 && s[0] == '%' && IsUpperHex(s[1]) && IsUpperHex(s[2]) && IsEncodedComponent(s[3..]))
  }

  lemma {:induction false} EscapeAllIsEncoded(bs: seq<Byte>, tail: string)
    requires IsEncodedComponent(tail)
    ensures IsEncodedComponent(EscapeAll(bs) + tail)
  {
    if bs != [] {
      EscapeAllIsEncoded(bs[1..], tail);
      var s := EscapeAll(bs) + tail;
      var e := Escape(bs[0]);
      assert s == e + (EscapeAll(bs[1..]) + tail);
      assert s[0] == e[0] && s[1] == e[1] && s[2] == e[2];
      assert s[3..] == EscapeAll(bs[1..]) + tail;
    } else {
      assert EscapeAll(bs) + tail == tail;
    }
  }

  /**
   * encodeURIComponent: each unreserved character is kept, every other
   * character is replaced by the "%HH" triples of its UTF-8 bytes.
   */
  function EncodeURIComponent(s: string): (r: string)
    ensures IsEncodedComponent(r)
    ensures |s| <= |r| <= 12 * |s|
  {
    if s == [] then []
    else if IsUriUnreserved(s[0]) then
      var rest := EncodeURIComponent(s[1..]);
      assert ([s[0]] + rest)[1..] == rest;
      [s[0]] + rest
    else
      var rest := EncodeURIComponent(s[1..]);
      EscapeAllIsEncoded(EncodeChar(s[0]), rest);
      EscapeAll(EncodeChar(s[0])) + rest
  }

  /** Every character of an encoded component is unreserved or '%'; none is a URL delimiter. */
  lemma {:induction false} EncodedAlphabet(r: string)
    requires IsEncodedComponent(r)
    ensures forall i :: 0 <= i < |r| ==> IsUriUnreserved(r[i]) || r[i] == '%'
    ensures forall i :: 0 <= i < |r| ==> r[i] !in "&=#?/ +"
    decreases |r|
  {
    if r != [] {
      if IsUriUnreserved(r[0]) && IsEncodedComponent(r[1..]) {
        EncodedAlphabet(r[1..]);
        assert forall i :: 1 <= i < |r| ==> r[i] == r[1..][i - 1];
      } else {
        EncodedAlphabet(r[3..]);
        assert forall i :: 3 <= i < |r| ==> r[i] == r[3..][i - 3];
      }
    }
  }

  lemma {:induction false} EscapeAllIsEncodeBytes(bs: seq<Byte>)
    requires forall i :: 0 <= i < |bs| ==> bs[i] >= 0x80
    ensures EscapeAll(bs) == EncodeBytes(bs, UriComponent)
  {
    if bs != [] {
      assert EncodeByte(bs[0], UriComponent) == Escape(bs[0]);
      assert forall i :: 0 <= i < |bs[1..]| ==> bs[1..][i] == bs[i + 1];
      EscapeAllIsEncodeBytes(bs[1..]);
    }
  }

  /**
   * The character-by-character algorithm is the byte-level one: UTF-8-encode
   * the whole string, then percent-encode every byte that is not unreserved.
   */
  lemma {:induction false} EncodeURIComponentBytewise(s: string)
    ensures EncodeURIComponent(s) == EncodeBytes(Utf8.Encode(s), UriComponent)
  {
    if s != [] {
      var c := s[0];
      EncodeURIComponentBytewise(s[1..]);
      EncodeBytesAppend(EncodeChar(c), Utf8.Encode(s[1..]), UriComponent);
      if IsUriUnreserved(c) {
        assert EncodeChar(c) == [c as int];
      } else if c as int < 0x80 {
        assert EncodeChar(c) == [c as int];
        assert EscapeAll([c as int]) == Escape(c as int);
      } else {
        EscapeAllIsEncodeBytes(EncodeChar(c));
      }
    }
  }

  /** The reference decoder: percent-decode to bytes, then UTF-8-decode. */
  function DecodeComponent(s: string): Option<string> {
    match DecodeBytes(s, false)
    case None => None
    case Some(bs) => Utf8.Decode(bs)
  }

  /** Decoding an encoded component gives back the original text. */
  lemma DecodeEncodeComponent(s: string)
    ensures DecodeComponent(EncodeURIComponent(s)) == Some(s)
  {
    EncodeURIComponentBytewise(s);
    DecodeEncodeBytes(Utf8.Encode(s), UriComponent);
    DecodeEncode(s);
  }

  /** Distinct texts have distinct encodings. */
  lemma EncodeURIComponentInjective(s: string, t: string)
    requires EncodeURIComponent(s) == EncodeURIComponent(t)
    ensures s == t
  {
    DecodeEncodeComponent(s);
    DecodeEncodeComponent(t);
  }
}
