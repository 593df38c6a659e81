/**
 * The application/x-www-form-urlencoded serializer of the WHATWG URL Standard
 * (section 5.2), which is what a URLSearchParams object turns into when it is
 * interpolated into a string, and a reference parser that reads the pairs back.
 */
module FormUrlencoded {
  import opened Wrappers
  import opened Utf8
  import opened Percent

  /** One name or value: its UTF-8 bytes, percent-encoded, with a space written as '+'. */
  function FormEncode(s: string): (r: string)
    ensures '&' !in r && '=' !in r && '#' !in r
  {
    EncodeBytes(Utf8.Encode(s), FormUrlencoded)
  }

  function SerializePair(name: string, value: string): (r: string)
  {
    FormEncode(name) + "=" + FormEncode(value)
  }

  /** The serializer: each pair as name=value, the pairs joined by '&', in order. */
  function Serialize(pairs: seq<(string, string)>): string
  {
    if pairs == [] then ""
    else if |pairs| == 1 then SerializePair(pairs[0].0, pairs[0].1)
    else SerializePair(pairs[0].0, pairs[0].1) + "&" + Serialize(pairs[1..])
  }

  /** Four pairs serialize to their pairs joined by '&'. */
  lemma SerializeFour(a: (string, string), b: (string, string), c: (string, string), d: (string, string))
    ensures Serialize([a, b, c, d])
         == SerializePair(a.0, a.1) + "&" + (SerializePair(b.0, b.1) + "&"
            + (SerializePair(c.0, c.1) + "&" + SerializePair(d.0, d.1)))
  {
    assert [a, b, c, d][1..] == [b, c, d];
    assert [b, c, d][1..] == [c, d];
    assert [c, d][1..] == [d];
    assert Serialize([c, d]) == SerializePair(c.0, c.1) + "&" + SerializePair(d.0, d.1);
    assert Serialize([b, c, d]) == SerializePair(b.0, b.1) + "&" + Serialize([c, d]);
  }

  /** The index of the first `c` in `s`, or |s| when there is none. */
  function IndexOf(s: string, c: char): (i: nat)
    ensures i <= |s|
    ensures forall j :: 0 <= j < i ==> s[j] != c
    ensures i < |s| ==> s[i] == c
  {
    if s == [] then 0 else if s[0] == c then 0 else 1 + IndexOf(s[1..], c)
  }

  /** Percent-decodes one name or value, '+' standing for a space, then UTF-8-decodes it. */
  function DecodeField(s: string): Option<string> {
    match DecodeBytes(s, true)
    case None => None
    case Some(bs) => Utf8.Decode(bs)
  }

  /** One non-empty piece split at its first '=' (none: the value is empty), both halves decoded. */
  function ParsePiece(piece: string): Option<(string, string)> {
    var j := IndexOf(piece, '=');
    var name := DecodeField(piece[..j]);
    var value := DecodeField(if j < |piece| then piece[j + 1..] else []);
    if name.None? || value.None? then None else Some((name.value, value.value))
  }

  /**
   * Reference parser: split at every '&', skip empty pieces and parse each of
   * the others.
   */
  function Parse(q: string): Option<seq<(string, string)>>
    decreases |q|
  {
    if q == [] then Some([])
    else
      var i := IndexOf(q, '&');
      var rest := if i < |q| then q[i + 1..] else [];
      match Parse(rest)
      case None => None
      case Some(tail) =>
        if i == 0 then Some(tail)
        else
          match ParsePiece(q[..i])
          case None => None
          case Some(pair) => Some([pair] + tail)
  }

  lemma DecodeFormEncode(s: string)
    ensures DecodeField(FormEncode(s)) == Some(s)
  {
    DecodeEncodeBytes(Utf8.Encode(s), FormUrlencoded);
    DecodeEncode(s);
  }

  lemma IndexOfAbsent(s: string, c: char)
    requires c !in s
    ensures IndexOf(s, c) == |s|
  {
  }

  lemma IndexOfFirst(a: string, c: char, b: string)
    requires c !in a
    ensures IndexOf(a + [c] + b, c) == |a|
  {
    var s := a + [c] + b;
    assert s[|a|] == c;
    assert forall j :: 0 <= j < |a| ==> s[j] == a[j];
  }

  lemma ParseSerializedPiece(name: string, value: string)
    ensures ParsePiece(SerializePair(name, value)) == Some((name, value))
  {
    var piece := SerializePair(name, value);
    IndexOfFirst(FormEncode(name), '=', FormEncode(value));
    DecodeFormEncode(name);
    DecodeFormEncode(value);
    var j := |FormEncode(name)|;
    assert piece[..j] == FormEncode(name);
    assert piece[j + 1..] == FormEncode(value);
  }

  lemma ParseLastPiece(name: string, value: string)
    ensures Parse(SerializePair(name, value)) == Some([(name, value)])
  {
    var piece := SerializePair(name, value);
    ParseSerializedPiece(name, value);
    IndexOfAbsent(piece, '&');
    assert |piece| > 0 && piece[..|piece|] == piece;
    assert Parse([]) == Some([]);
    assert [(name, value)] + [] == [(name, value)];
  }

  /** The parser reads a serialized pair off the front of a query. */
  lemma ParseFirstPiece(name: string, value: string, rest: string, tail: seq<(string, string)>)
    requires Parse(rest) == Some(tail)
    ensures Parse(SerializePair(name, value) + "&" + rest) == Some([(name, value)] + tail)
  {
    var piece := SerializePair(name, value);
    ParseSerializedPiece(name, value);
    var q := piece + "&" + rest;
    IndexOfFirst(piece, '&', rest);
    assert q[|piece| + 1..] == rest;
    assert q[..|piece|] == piece;
  }

  /** Parsing a serialized list of pairs gives back the same pairs in the same order. */
  lemma {:induction false} ParseSerialize(pairs: seq<(string, string)>)
    ensures Parse(Serialize(pairs)) == Some(pairs)
  {
    if |pairs| == 1 {
      ParseLastPiece(pairs[0].0, pairs[0].1);
      assert pairs == [(pairs[0].0, pairs[0].1)];
    } else if |pairs| > 1 {
      var rest := Serialize(pairs[1..]);
      assert Serialize(pairs) == SerializePair(pairs[0].0, pairs[0].1) + "&" + rest;
      ParseSerialize(pairs[1..]);
      ParseFirstPiece(pairs[0].0, pairs[0].1, rest, pairs[1..]);
      assert [pairs[0]] + pairs[1..] == pairs;
    }
  }

  /** Every character is one the serializer keeps, or a space. */
  predicate Plain(s: string) {
    forall c :: c in s ==> IsFormSafe(c) || c == ' '
  }

  /** Every character is one the serializer keeps. */
  predicate Safe(s: string) {
    forall c :: c in s ==> IsFormSafe(c)
  }

  /** A character the serializer keeps, or a space, is one byte written as itself or as '+'. */
  lemma PlainCharEncoding(c: char)
    requires IsFormSafe(c) || c == ' '
    ensures EncodeBytes(EncodeChar(c), FormUrlencoded) == [if c == ' ' then '+' else c]
  {
    assert EncodeChar(c) == [c as int];
    assert EncodeByte(c as int, FormUrlencoded) == [if c == ' ' then '+' else c];
    assert EncodeBytes([c as int], FormUrlencoded) == EncodeByte(c as int, FormUrlencoded) + EncodeBytes([], FormUrlencoded);
  }

  /** The serializer works character by character. */
  lemma FormEncodeCons(s: string)
    requires s != []
    ensures FormEncode(s) == EncodeBytes(EncodeChar(s[0]), FormUrlencoded) + FormEncode(s[1..])
  {
    assert Utf8.Encode(s) == EncodeChar(s[0]) + Utf8.Encode(s[1..]);
    EncodeBytesAppend(EncodeChar(s[0]), Utf8.Encode(s[1..]), FormUrlencoded);
  }

  /** A plain name or value is written with '+' for each space and is otherwise unchanged. */
  lemma {:induction false} FormEncodePlain(s: string)
    requires Plain(s)
    ensures FormEncode(s) == SpacesAsPlus(s)
  {
    if s != [] {
      var c := s[0];
      assert c in s;
      PlainCharEncoding(c);
      FormEncodeCons(s);
      FormEncodePlain(s[1..]);
      assert SpacesAsPlus(s) == [if c == ' ' then '+' else c] + SpacesAsPlus(s[1..]);
    }
  }

  function SpacesAsPlus(s: string): (r: string)
    ensures |r| == |s|
  {
    seq(|s|, i requires 0 <= i < |s| => if s[i] == ' ' then '+' else s[i])
  }

  /** A safe name or value is written unchanged. */
  lemma {:induction false} FormEncodeSafe(s: string)
    requires Safe(s)
    ensures FormEncode(s) == s
  {
    if s != [] {
      assert s[0] in s;
      PlainCharEncoding(s[0]);
      FormEncodeCons(s);
      FormEncodeSafe(s[1..]);
      assert s == [s[0]] + s[1..];
    }
  }

  /** The serialization never holds a '#', so no part of it is read as a fragment. */
  lemma {:induction false} SerializeHasNoHash(pairs: seq<(string, string)>)
    ensures '#' !in Serialize(pairs)
  {
    if |pairs| > 1 {
      SerializeHasNoHash(pairs[1..]);
    }
  }
}
