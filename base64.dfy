/**
 * The base 64 encoding of section 4 of RFC 4648 (alphabet `A-Z a-z 0-9 + /`,
 * `=` padding), as Python's `base64.b64encode` produces it, and a decoder
 * that inverts it.
 */
module Base64 {
  import opened Wrappers
  import opened Utf8

  /** The character for a 6-bit value (Table 1 of RFC 4648). */
  function CharOf(i: int): (c: char)
    requires 0 <= i < 64
    ensures c != '='
  {
    if i < 26 then (65 + i) as char
    else if i < 52 then (97 + i - 26) as char
    else if i < 62 then (48 + i - 52) as char
    else if i == 62 then '+'
    else '/'
  }

  /** The 6-bit value of an alphabet character, `None` for anything else (including `=`). */
  function ValueOf(c: char): (r: Option<int>)
    ensures r.Some? ==> 0 <= r.value < 64 && CharOf(r.value) == c
  {
    if 'A' <= c <= 'Z' then Some(c as int - 65)
    else if 'a' <= c <= 'z' then Some(c as int - 97 + 26)
    else if '0' <= c <= '9' then Some(c as int - 48 + 52)
    else if c == '+' then Some(62)
    else if c == '/' then Some(63)
    else None
  }

  lemma ValueOfCharOf(i: int)
    requires 0 <= i < 64
    ensures ValueOf(CharOf(i)) == Some(i)
  {
  }

  predicate InAlphabet(c: char) {
    ValueOf(c).Some? || c == '='
  }

  /** The four characters for three octets. */
  function Group(b0: Byte, b1: Byte, b2: Byte): (r: string)
    ensures |r| == 4 && forall k :: 0 <= k < 4 ==> ValueOf(r[k]).Some?
  {
    var v := [b0 / 4, (b0 % 4) * 16 + b1 / 16, (b1 % 16) * 4 + b2 / 64, b2 % 64];
    ValueOfCharOf(v[0]);
    ValueOfCharOf(v[1]);
    ValueOfCharOf(v[2]);
    ValueOfCharOf(v[3]);
    [CharOf(v[0]), CharOf(v[1]), CharOf(v[2]), CharOf(v[3])]
  }

  /** The last, padded group for one or two remaining octets. */
  function Tail(b: seq<Byte>): (r: string)
    requires 1 <= |b| <= 2
    ensures |r| == 4 && r[3] == '=' && (|b| == 1 <==> r[2] == '=')
    ensures forall k :: 0 <= k < 4 ==> InAlphabet(r[k])
  {
    ValueOfCharOf(b[0] / 4);
    if |b| == 1 then
      ValueOfCharOf((b[0] % 4) * 16);
      [CharOf(b[0] / 4), CharOf((b[0] % 4) * 16), '=', '=']
    else
      ValueOfCharOf((b[0] % 4) * 16 + b[1] / 16);
      ValueOfCharOf((b[1] % 16) * 4);
      [CharOf(b[0] / 4), CharOf((b[0] % 4) * 16 + b[1] / 16), CharOf((b[1] % 16) * 4), '=']
  }

  /** `base64.b64encode(b).decode()`: four characters per started group of three octets. */
  function Encode(b: seq<Byte>): (r: string)
    ensures |r| == 4 * ((|b| + 2) / 3)
    ensures forall k :: 0 <= k < |r| ==> InAlphabet(r[k])
    decreases |b|
  {
    if |b| == 0 then ""
    else if |b| <= 2 then Tail(b)
    else Group(b[0], b[1], b[2]) + Encode(b[3..])
  }

  /** The octets of a group of four characters without padding. */
  function DecodeGroup(s: string): (r: Option<seq<Byte>>)
    requires |s| == 4
  {
    match (ValueOf(s[0]), ValueOf(s[1]), ValueOf(s[2]), ValueOf(s[3]))
    case (Some(v0), Some(v1), Some(v2), Some(v3)) =>
      Some([v0 * 4 + v1 / 16, (v1 % 16) * 16 + v2 / 4, (v2 % 4) * 64 + v3])
    case _ => None
  }

  /** The octets of a final padded group (`xx==` or `xxx=`); non-zero pad bits are rejected. */
  function DecodeTail(s: string): (r: Option<seq<Byte>>)
    requires |s| == 4
  {
    if s[2] == '=' && s[3] == '=' then
      match (ValueOf(s[0]), ValueOf(s[1]))
      case (Some(v0), Some(v1)) =>
        if v1 % 16 == 0 then Some([v0 * 4 + v1 / 16]) else None
      case _ => None
    else
      match (ValueOf(s[0]), ValueOf(s[1]), ValueOf(s[2]))
      case (Some(v0), Some(v1), Some(v2)) =>
        if v2 % 4 == 0 then Some([v0 * 4 + v1 / 16, (v1 % 16) * 16 + v2 / 4]) else None
      case _ => None
  }

  /** Decoding; `None` for text that is not canonical padded base 64. */
  function Decode(s: string): Option<seq<Byte>>
    decreases |s|
  {
    if |s| == 0 then Some([])
    else if |s| < 4 then None
    else if |s| == 4 && s[3] == '=' then DecodeTail(s)
    else
      match (DecodeGroup(s[..4]), Decode(s[4..]))
      case (Some(g), Some(rest)) => Some(g + rest)
      case _ => None
  }

  lemma DecodeOfGroup(b0: Byte, b1: Byte, b2: Byte)
    ensures DecodeGroup(Group(b0, b1, b2)) == Some([b0, b1, b2])
  {
    var v0, v1, v2, v3 := b0 / 4, (b0 % 4) * 16 + b1 / 16, (b1 % 16) * 4 + b2 / 64, b2 % 64;
    ValueOfCharOf(v0);
    ValueOfCharOf(v1);
    ValueOfCharOf(v2);
    ValueOfCharOf(v3);
    SplitThree(b0, b1, b2);
    assert DecodeGroup(Group(b0, b1, b2)) == Some([v0 * 4 + v1 / 16, (v1 % 16) * 16 + v2 / 4, (v2 % 4) * 64 + v3]);
  }

  /** Cutting three octets into four six-bit values and joining them again gives the octets back. */
  lemma SplitThree(b0: Byte, b1: Byte, b2: Byte)
    ensures var v1, v2 := (b0 % 4) * 16 + b1 / 16, (b1 % 16) * 4 + b2 / 64;
      (b0 / 4) * 4 + v1 / 16 == b0 && (v1 % 16) * 16 + v2 / 4 == b1 && (v2 % 4) * 64 + b2 % 64 == b2
  {
    var v1, v2 := (b0 % 4) * 16 + b1 / 16, (b1 % 16) * 4 + b2 / 64;
    assert v1 / 16 == b0 % 4 && v1 % 16 == b1 / 16;
    assert v2 / 4 == b1 % 16 && v2 % 4 == b2 / 64;
  }

  lemma DecodeOfTail(b: seq<Byte>)
    requires 1 <= |b| <= 2
    ensures DecodeTail(Tail(b)) == Some(b)
  {
    if |b| == 1 {
      DecodeOfTailOne(b[0]);
      assert b == [b[0]];
    } else {
      DecodeOfTailTwo(b[0], b[1]);
      assert b == [b[0], b[1]];
    }
  }

  lemma DecodeOfTailOne(b0: Byte)
    ensures DecodeTail(Tail([b0])) == Some([b0])
  {
    var v0, v1 := b0 / 4, (b0 % 4) * 16;
    ValueOfCharOf(v0);
    ValueOfCharOf(v1);
    var t := Tail([b0]);
    assert t == [CharOf(v0), CharOf(v1), '=', '='];
    assert v1 / 16 == b0 % 4 && v1 % 16 == 0;
  }

  lemma DecodeOfTailTwo(b0: Byte, b1: Byte)
    ensures DecodeTail(Tail([b0, b1])) == Some([b0, b1])
  {
    var v0, v1, v2 := b0 / 4, (b0 % 4) * 16 + b1 / 16, (b1 % 16) * 4;
    ValueOfCharOf(v0);
    ValueOfCharOf(v1);
    ValueOfCharOf(v2);
    var t := Tail([b0, b1]);
    assert t == [CharOf(v0), CharOf(v1), CharOf(v2), '='];
    SplitThree(b0, b1, 0);
    assert v2 % 4 == 0;
  }

  /** A full group followed by decodable text decodes to the group's octets followed by the rest's. */
  lemma DecodeGroupThen(g: string, rest: string)
    requires |g| == 4 && g[3] != '=' && DecodeGroup(g).Some? && Decode(rest).Some?
    ensures Decode(g + rest) == Some(DecodeGroup(g).value + Decode(rest).value)
  {
    var e := g + rest;
    assert e[..4] == g && e[4..] == rest;
  }

  /** Round trip: the receiver of `Encode(b)` recovers exactly `b`. */
  lemma {:induction false} DecodeEncode(b: seq<Byte>)
    ensures Decode(Encode(b)) == Some(b)
    decreases |b|
  {
    if 1 <= |b| <= 2 {
      DecodeOfTail(b);
    } else if |b| >= 3 {
      var g := Group(b[0], b[1], b[2]);
      DecodeOfGroup(b[0], b[1], b[2]);
      DecodeEncode(b[3..]);
      assert ValueOf(g[3]).Some?;
      DecodeGroupThen(g, Encode(b[3..]));
      assert b == [b[0], b[1], b[2]] + b[3..];
    }
  }
}
