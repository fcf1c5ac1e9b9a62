/** `encodeURIComponent` (ECMA-262, section 19.2.6.5 in recent editions)
    and its inverse `decodeURIComponent`: every UTF-8 octet of a character
    outside the unescaped set becomes `%` and two upper-case hexadecimal
    digits, as section 2.1 of RFC 3986 writes percent-encoding. */
module UriComponent {
  import opened Basics
  import Utf8

  /** The characters left as they are: uriAlpha, DecimalDigit and uriMark. */
  predicate IsUnescaped(c: char) {
    ('A' <= c <= 'Z') || ('a' <= c <= 'z') || ('0' <= c <= '9') || c in "-_.!~*'()"
  }

  /** The characters an encoded component is made of. */
  predicate IsEncodedChar(c: char) {
    IsUnescaped(c) || c == '%'
  }

  function HexDigit(d: nat): (c: char)
    requires d < 16
    ensures IsUnescaped(c)
  {
    if d < 10 then ('0' as int + d) as char else ('A' as int + d - 10) as char
  }

  function HexValue(c: char): Option<nat> {
    if '0' <= c <= '9' then Some(c as int - '0' as int)
    else if 'A' <= c <= 'F' then Some(c as int - 'A' as int + 10)
    else if 'a' <= c <= 'f' then Some(c as int - 'a' as int + 10)
    else None
  }

  function EscapeOctets(b: seq<byte>): (r: string)
    ensures |r| == 3 * |b|
  {
    if b == [] then [] else ['%', HexDigit(b[0] / 16), HexDigit(b[0] % 16)] + EscapeOctets(b[1..])
  }

  /** `encodeURIComponent(s)`. */
  function Encode(s: string): (r: string)
    ensures |r| >= |s|
  {
    if s == [] then []
    else (if IsUnescaped(s[0]) then [s[0]] else EscapeOctets(Utf8.EncodeChar(s[0]))) + Encode(s[1..])
  }

  function Prepend(b: seq<byte>, o: Option<seq<byte>>): Option<seq<byte>> {
    match o
    case None => None
    case Some(rest) => Some(b + rest)
  }

  /** Percent-decoding to octets: `%XY` is the octet with hexadecimal value
      XY, any other character its own UTF-8 octets. */
  function DecodeOctets(s: string): Option<seq<byte>>
    decreases |s|
  {
    if s == [] then Some([])
    else if s[0] == '%' then
      if |s| >= 3 && HexValue(s[1]).Some? && HexValue(s[2]).Some? then
        Prepend([HexValue(s[1]).value * 16 + HexValue(s[2]).value], DecodeOctets(s[3..]))
      else None
    else Prepend(Utf8.EncodeChar(s[0]), DecodeOctets(s[1..]))
  }

  /** `decodeURIComponent(s)`: `None` where JavaScript throws a URIError. */
  function Decode(s: string): Option<string> {
    match DecodeOctets(s)
    case None => None
    case Some(b) => Utf8.Decode(b)
  }

  lemma HexValueOfHexDigit(d: nat)
    requires d < 16
    ensures HexValue(HexDigit(d)) == Some(d)
  {
  }

  lemma DecodeOctetsOfTriplet(x: byte, u: string)
    ensures DecodeOctets(['%', HexDigit(x / 16), HexDigit(x % 16)] + u) == Prepend([x], DecodeOctets(u))
  {
    var t := ['%', HexDigit(x / 16), HexDigit(x % 16)] + u;
    assert t[0] == '%' && t[1] == HexDigit(x / 16) && t[2] == HexDigit(x % 16);
    assert t[3..] == u;
    HexValueOfHexDigit(x / 16);
    HexValueOfHexDigit(x % 16);
    assert (x / 16) * 16 + x % 16 == x;
  }

  lemma PrependCons(b: seq<byte>, o: Option<seq<byte>>)
    requires b != []
    ensures Prepend([b[0]], Prepend(b[1..], o)) == Prepend(b, o)
  {
    match o
    case None =>
    case Some(r) => assert [b[0]] + (b[1..] + r) == b + r;
  }

  lemma {:induction false} DecodeOctetsOfEscape(b: seq<byte>, rest: string)
    ensures DecodeOctets(EscapeOctets(b) + rest) == Prepend(b, DecodeOctets(rest))
  {
    if b == [] {
      assert EscapeOctets(b) + rest == rest;
      match DecodeOctets(rest)
      case None =>
      case Some(r) => assert b + r == r;
    } else {
      var x := b[0];
      var u := EscapeOctets(b[1..]) + rest;
      assert EscapeOctets(b) + rest == ['%', HexDigit(x / 16), HexDigit(x % 16)] + u;
      DecodeOctetsOfTriplet(x, u);
      DecodeOctetsOfEscape(b[1..], rest);
      PrependCons(b, DecodeOctets(rest));
    }
  }

  lemma {:induction false} DecodeOctetsOfEncode(s: string)
    ensures DecodeOctets(Encode(s)) == Some(Utf8.Encode(s))
  {
    if s != [] {
      var c := s[0];
      DecodeOctetsOfEncode(s[1..]);
      if IsUnescaped(c) {
        var t := Encode(s);
        assert t == [c] + Encode(s[1..]);
        assert t[1..] == Encode(s[1..]);
      } else {
        DecodeOctetsOfEscape(Utf8.EncodeChar(c), Encode(s[1..]));
      }
    }
  }

  /** Decoding an encoded component gives the component back. */
  lemma DecodeEncode(s: string)
    ensures Decode(Encode(s)) == Some(s)
  {
    DecodeOctetsOfEncode(s);
    Utf8.DecodeEncode(s);
  }

  /** A component made only of unescaped characters is its own encoding. */
  lemma {:induction false} EncodeUnescaped(s: string)
    requires forall i :: 0 <= i < |s| ==> IsUnescaped(s[i])
    ensures Encode(s) == s
  {
    if s != [] {
      EncodeUnescaped(s[1..]);
      assert [s[0]] + s[1..] == s;
    }
  }

  /** Every other character grows to three or more. */
  lemma EncodeEscaped(c: char)
    requires !IsUnescaped(c)
    ensures |Encode([c])| == 3 * |Utf8.EncodeChar(c)| && Encode([c])[0] == '%'
  {
    assert Encode([c]) == EscapeOctets(Utf8.EncodeChar(c)) + Encode([]);
  }

  lemma {:induction false} EscapeOctetsAlphabet(b: seq<byte>)
    ensures forall i :: 0 <= i < |EscapeOctets(b)| ==> IsEncodedChar(EscapeOctets(b)[i])
  {
    if b != [] {
      EscapeOctetsAlphabet(b[1..]);
      var t := ['%', HexDigit(b[0] / 16), HexDigit(b[0] % 16)];
      assert EscapeOctets(b) == t + EscapeOctets(b[1..]);
    }
  }

  /** An encoded component is made of unescaped characters and `%` only. */
  lemma {:induction false} EncodeAlphabet(s: string)
    ensures forall i :: 0 <= i < |Encode(s)| ==> IsEncodedChar(Encode(s)[i])
  {
    if s != [] {
      EncodeAlphabet(s[1..]);
      if !IsUnescaped(s[0]) {
        EscapeOctetsAlphabet(Utf8.EncodeChar(s[0]));
      }
    }
  }

  /** An encoded component never holds the separators of a query string or
      a fragment, so it can stand as a query value or fragment verbatim. */
  lemma EncodeAvoidsSeparators(s: string)
    ensures Free(Encode(s), '&') && Free(Encode(s), '#') && Free(Encode(s), '=')
  {
    EncodeAlphabet(s);
    var t := Encode(s);
    forall i | 0 <= i < |t|
      ensures t[i] != '&' && t[i] != '#' && t[i] != '='
    {
      EncodedCharIsNoSeparator(t[i]);
    }
  }

  lemma EncodedCharIsNoSeparator(c: char)
    requires IsEncodedChar(c)
    ensures c != '&' && c != '#' && c != '='
  {
  }
}
