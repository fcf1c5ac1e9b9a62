/** Base 64 as `Buffer.toString('base64')` writes it: the alphabet of
    Table 1 and the `=` padding of section 4 of RFC 4648. */
module Base64 {
  import opened Basics

  /** Table 1 of RFC 4648: the character for a 6-bit value. */
  function CharOf(v: nat): char
    requires v < 64
  {
    if v < 26 then ('A' as int + v) as char
    else if v < 52 then ('a' as int + v - 26) as char
    else if v < 62 then ('0' as int + v - 52) as char
    else if v == 62 then '+'
    else '/'
  }

  /** The 6-bit value of a character of the alphabet. */
  function ValueOf(c: char): (r: Option<nat>)
    ensures r.Some? ==> r.value < 64
  {
    if 'A' <= c <= 'Z' then Some(c as int - 'A' as int)
    else if 'a' <= c <= 'z' then Some(c as int - 'a' as int + 26)
    else if '0' <= c <= '9' then Some(c as int - '0' as int + 52)
    else if c == '+' then Some(62)
    else if c == '/' then Some(63)
    else None
  }

  lemma ValueOfCharOf(v: nat)
    requires v < 64
    ensures ValueOf(CharOf(v)) == Some(v)
  {
  }

  predicate IsBase64Char(c: char) {
    ValueOf(c).Some? || c == '='
  }

  /** Each group of three octets becomes four characters; a final group of
      one or two octets is padded with `=` to four. */
  function Encode(b: seq<byte>): (r: string)
    ensures |r| == 4 * ((|b| + 2) / 3)
    decreases |b|
  {
    if |b| == 0 then []
    else if |b| == 1 then
      [CharOf(b[0] / 4), CharOf((b[0] % 4) * 16), '=', '=']
    else if |b| == 2 then
      [CharOf(b[0] / 4), CharOf((b[0] % 4) * 16 + b[1] / 16), CharOf((b[1] % 16) * 4), '=']
    else
      [CharOf(b[0] / 4), CharOf((b[0] % 4) * 16 + b[1] / 16), CharOf((b[1] % 16) * 4 + b[2] / 64), CharOf(b[2] % 64)]
      + Encode(b[3..])
  }

  /** The encoding uses only the alphabet and the padding character. */
  lemma {:induction false} EncodeAlphabet(b: seq<byte>)
    ensures forall i :: 0 <= i < |Encode(b)| ==> IsBase64Char(Encode(b)[i])
    decreases |b|
  {
    if |b| == 1 {
      ValueOfCharOf(b[0] / 4);
      ValueOfCharOf((b[0] % 4) * 16);
    } else if |b| == 2 {
      ValueOfCharOf(b[0] / 4);
      ValueOfCharOf((b[0] % 4) * 16 + b[1] / 16);
      ValueOfCharOf((b[1] % 16) * 4);
    } else if |b| >= 3 {
      var g := [CharOf(b[0] / 4), CharOf((b[0] % 4) * 16 + b[1] / 16), CharOf((b[1] % 16) * 4 + b[2] / 64), CharOf(b[2] % 64)];
      ValueOfCharOf(b[0] / 4);
      ValueOfCharOf((b[0] % 4) * 16 + b[1] / 16);
      ValueOfCharOf((b[1] % 16) * 4 + b[2] / 64);
      ValueOfCharOf(b[2] % 64);
      EncodeAlphabet(b[3..]);
      assert Encode(b) == g + Encode(b[3..]);
    }
  }

  /** Decodes one group of four characters; padding is accepted only in the
      last group, and only with its unused bits zero (RFC 4648, section 3.5). */
  function DecodeGroup(q: string, last: bool): Option<seq<byte>>
    requires |q| == 4
  {
    var v0, v1, v2, v3 := ValueOf(q[0]), ValueOf(q[1]), ValueOf(q[2]), ValueOf(q[3]);
    if v0.None? || v1.None? then None
    else if last && q[2] == '=' && q[3] == '=' then
      if v1.value % 16 == 0 then Some([v0.value * 4 + v1.value / 16]) else None
    else if v2.None? then None
    else if last && q[3] == '=' then
      if v2.value % 4 == 0 then Some([v0.value * 4 + v1.value / 16, (v1.value % 16) * 16 + v2.value / 4]) else None
    else if v3.None? then None
    else Some([v0.value * 4 + v1.value / 16, (v1.value % 16) * 16 + v2.value / 4, (v2.value % 4) * 64 + v3.value])
  }

  function Decode(s: string): Option<seq<byte>>
    decreases |s|
  {
    if s == [] then Some([])
    else if |s| < 4 then None
    else
      match DecodeGroup(s[..4], |s| == 4)
      case None => None
      case Some(g) =>
        match Decode(s[4..])
        case None => None
        case Some(rest) => Some(g + rest)
  }

  lemma DecodeGroupOfThree(b0: byte, b1: byte, b2: byte, last: bool)
    ensures DecodeGroup([CharOf(b0 / 4), CharOf((b0 % 4) * 16 + b1 / 16), CharOf((b1 % 16) * 4 + b2 / 64), CharOf(b2 % 64)], last)
            == Some([b0, b1, b2])
  {
    var v0, v1, v2, v3 := b0 / 4, (b0 % 4) * 16 + b1 / 16, (b1 % 16) * 4 + b2 / 64, b2 % 64;
    ValueOfCharOf(v0);
    ValueOfCharOf(v1);
    ValueOfCharOf(v2);
    ValueOfCharOf(v3);
    assert v0 * 4 + v1 / 16 == b0;
    assert (v1 % 16) * 16 + v2 / 4 == b1;
    assert (v2 % 4) * 64 + v3 == b2;
  }

  lemma DecodeGroupOfTwo(b0: byte, b1: byte)
    ensures DecodeGroup([CharOf(b0 / 4), CharOf((b0 % 4) * 16 + b1 / 16), CharOf((b1 % 16) * 4), '='], true)
            == Some([b0, b1])
  {
    var v0, v1, v2 := b0 / 4, (b0 % 4) * 16 + b1 / 16, (b1 % 16) * 4;
    ValueOfCharOf(v0);
    ValueOfCharOf(v1);
    ValueOfCharOf(v2);
    assert v0 * 4 + v1 / 16 == b0;
    assert (v1 % 16) * 16 + v2 / 4 == b1;
  }

  lemma DecodeGroupOfOne(b0: byte)
    ensures DecodeGroup([CharOf(b0 / 4), CharOf((b0 % 4) * 16), '=', '='], true) == Some([b0])
  {
    ValueOfCharOf(b0 / 4);
    ValueOfCharOf((b0 % 4) * 16);
  }

  lemma DecodeEncodeOne(b: seq<byte>)
    requires |b| == 1
    ensures Decode(Encode(b)) == Some(b)
  {
    var e := Encode(b);
    DecodeGroupOfOne(b[0]);
    assert e[..4] == e && e[4..] == [];
    assert [b[0]] + [] == b;
  }

  lemma DecodeEncodeTwo(b: seq<byte>)
    requires |b| == 2
    ensures Decode(Encode(b)) == Some(b)
  {
    var e := Encode(b);
    DecodeGroupOfTwo(b[0], b[1]);
    assert e == [CharOf(b[0] / 4), CharOf((b[0] % 4) * 16 + b[1] / 16), CharOf((b[1] % 16) * 4), '='];
    assert e[..4] == e && e[4..] == [];
    assert [b[0], b[1]] + [] == b;
  }

  /** The encoding of three or more octets: a first group that decodes to
      the first three octets, followed by the encoding of the rest. */
  lemma SplitEncoding(b: seq<byte>) returns (g: string, tail: string)
    requires |b| >= 3
    ensures |g| == 4 && Encode(b) == g + tail && tail == Encode(b[3..])
    ensures DecodeGroup(g, |Encode(b)| == 4) == Some(b[..3])
  {
    g := [CharOf(b[0] / 4), CharOf((b[0] % 4) * 16 + b[1] / 16), CharOf((b[1] % 16) * 4 + b[2] / 64), CharOf(b[2] % 64)];
    tail := Encode(b[3..]);
    DecodeGroupOfThree(b[0], b[1], b[2], |Encode(b)| == 4);
    assert [b[0], b[1], b[2]] == b[..3];
  }

  /** A string made of a decodable first group and a decodable rest
      decodes to the two results in sequence. */
  lemma DecodeAfterGroup(e: string, g: string, tail: string, b: seq<byte>)
    requires |g| == 4 && e == g + tail && |b| >= 3
    requires DecodeGroup(g, |e| == 4) == Some(b[..3])
    requires Decode(tail) == Some(b[3..])
    ensures Decode(e) == Some(b)
  {
    assert e[..4] == g && e[4..] == tail;
    assert b[..3] + b[3..] == b;
  }

  /** Decoding the encoding gives the octets back: the subscription body
      carries the link and nothing else. */
  lemma {:induction false} DecodeEncode(b: seq<byte>)
    ensures Decode(Encode(b)) == Some(b)
    decreases |b|
  {
    if |b| == 1 {
      DecodeEncodeOne(b);
    } else if |b| == 2 {
      DecodeEncodeTwo(b);
    } else if |b| >= 3 {
      var g, tail := SplitEncoding(b);
      DecodeEncode(b[3..]);
      DecodeAfterGroup(Encode(b), g, tail, b);
    }
  }
}
