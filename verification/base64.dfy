/**
 * The base64 encoding of section 4 of RFC 4648 (alphabet A-Z a-z 0-9 + /,
 * padding with '='), as used for audio payloads on the client socket.
 * Decoding accepts only well-formed text: a length that is a multiple of
 * four, alphabet characters, and padding only at the very end. Like
 * Python's decoder it does not insist that the unused bits of the last
 * group are zero.
 */
module Base64 {
  import opened Wrappers

  type byte = x: int | 0 <= x < 256

  /** The character for a 6-bit value. */
  function CharOf(v: int): (c: char)
    requires 0 <= v < 64
    ensures c != '='
    ensures ValueOf(c) == Some(v)
  {
    if v < 26 then ('A' as int + v) as char
    else if v < 52 then ('a' as int + (v - 26)) as char
    else if v < 62 then ('0' as int + (v - 52)) as char
    else if v == 62 then '+'
    else '/'
  }

  /** The 6-bit value of an alphabet character; None for any other character. */
  function ValueOf(c: char): (r: Option<int>)
    ensures r.Some? ==> 0 <= r.value < 64
    ensures c == '=' ==> r.None?
  {
    if 'A' <= c <= 'Z' then Some(c as int - 'A' as int)
    else if 'a' <= c <= 'z' then Some(c as int - 'a' as int + 26)
    else if '0' <= c <= '9' then Some(c as int - '0' as int + 52)
    else if c == '+' then Some(62)
    else if c == '/' then Some(63)
    else None
  }

  /** Three bytes as four characters. */
  function EncodeTriple(b0: byte, b1: byte, b2: byte): (s: string)
    ensures |s| == 4
  {
    [CharOf(b0 / 4), CharOf((b0 % 4) * 16 + b1 / 16), CharOf((b1 % 16) * 4 + b2 / 64), CharOf(b2 % 64)]
  }

  /** `base64.b64encode(data).decode()`. */
  function Encode(data: seq<byte>): (s: string)
    ensures |s| == 4 * ((|data| + 2) / 3)
    decreases |data|
  {
    if |data| == 0 then ""
    else if |data| == 1 then [CharOf(data[0] / 4), CharOf((data[0] % 4) * 16), '=', '=']
    else if |data| == 2 then
      [CharOf(data[0] / 4), CharOf((data[0] % 4) * 16 + data[1] / 16), CharOf((data[1] % 16) * 4), '=']
    else EncodeTriple(data[0], data[1], data[2]) + Encode(data[3..])
  }

  /** Four alphabet characters as three bytes. */
  function DecodeQuad(q: string): (r: Option<seq<byte>>)
    requires |q| == 4
    ensures r.Some? ==> |r.value| == 3
  {
    match (ValueOf(q[0]), ValueOf(q[1]), ValueOf(q[2]), ValueOf(q[3]))
    case (Some(v0), Some(v1), Some(v2), Some(v3)) =>
      Some([v0 * 4 + v1 / 16, (v1 % 16) * 16 + v2 / 4, (v2 % 4) * 64 + v3])
    case _ => None
  }

  /** The last group of the text, which may carry one or two padding characters. */
  function DecodeLastQuad(q: string): (r: Option<seq<byte>>)
    requires |q| == 4
    ensures r.Some? ==> 1 <= |r.value| <= 3
  {
    if DecodeQuad(q).Some? then DecodeQuad(q)
    else match (ValueOf(q[0]), ValueOf(q[1]), ValueOf(q[2]))
      case (Some(v0), Some(v1), None) =>
        if q[2] == '=' && q[3] == '=' then Some([v0 * 4 + v1 / 16]) else None
      case (Some(v0), Some(v1), Some(v2)) =>
        if q[3] == '=' then Some([v0 * 4 + v1 / 16, (v1 % 16) * 16 + v2 / 4]) else None
      case _ => None
  }

  /**
   * `base64.b64decode(text)` on strict base64: four characters per group,
   * padding only at the end. None for any other text, including text that
   * Python's non-validating decoder would accept after discarding
   * characters outside the alphabet.
   */
  function Decode(text: string): (r: Option<seq<byte>>)
    ensures r.Some? ==> |text| % 4 == 0
    ensures r.Some? ==> 3 * (|text| / 4) - 2 <= |r.value| <= 3 * (|text| / 4)
    decreases |text|
  {
    if |text| == 0 then Some([])
    else if |text| < 4 then None
    else if |text| == 4 then DecodeLastQuad(text)
    else match (DecodeQuad(text[..4]), Decode(text[4..]))
      case (Some(head), Some(tail)) => Some(head + tail)
      case _ => None
  }

  lemma DecodeEncodeTriple(b0: byte, b1: byte, b2: byte)
    ensures DecodeQuad(EncodeTriple(b0, b1, b2)) == Some([b0, b1, b2])
    ensures DecodeLastQuad(EncodeTriple(b0, b1, b2)) == Some([b0, b1, b2])
  {
    var s0, s1, s2, s3 := b0 / 4, (b0 % 4) * 16 + b1 / 16, (b1 % 16) * 4 + b2 / 64, b2 % 64;
    assert s1 / 16 == b0 % 4 && s1 % 16 == b1 / 16;
    assert s2 / 4 == b1 % 16 && s2 % 4 == b2 / 64;
    assert s0 * 4 + s1 / 16 == b0;
    assert (s1 % 16) * 16 + s2 / 4 == b1;
    assert (s2 % 4) * 64 + s3 == b2;
  }

  lemma DecodeEncodeOne(b0: byte)
    ensures Decode(Encode([b0])) == Some([b0])
  {
    var s0, s1 := b0 / 4, (b0 % 4) * 16;
    assert s1 / 16 == b0 % 4;
    assert s0 * 4 + s1 / 16 == b0;
    var q := Encode([b0]);
    assert q == [CharOf(s0), CharOf(s1), '=', '='];
    assert DecodeQuad(q).None? by { assert ValueOf(q[2]).None?; }
    assert ValueOf(q[0]) == Some(s0) && ValueOf(q[1]) == Some(s1);
    assert DecodeLastQuad(q) == Some([b0]);
  }

  lemma DecodeEncodeTwo(b0: byte, b1: byte)
    ensures Decode(Encode([b0, b1])) == Some([b0, b1])
  {
    var s0, s1, s2 := b0 / 4, (b0 % 4) * 16 + b1 / 16, (b1 % 16) * 4;
    assert s1 / 16 == b0 % 4 && s1 % 16 == b1 / 16;
    assert s2 / 4 == b1 % 16;
    assert s0 * 4 + s1 / 16 == b0;
    assert (s1 % 16) * 16 + s2 / 4 == b1;
    var q := Encode([b0, b1]);
    assert q == [CharOf(s0), CharOf(s1), CharOf(s2), '='];
    assert DecodeQuad(q).None? by { assert ValueOf(q[3]).None?; }
    assert ValueOf(q[0]) == Some(s0) && ValueOf(q[1]) == Some(s1) && ValueOf(q[2]) == Some(s2);
    assert DecodeLastQuad(q) == Some([b0, b1]);
  }

  /** Section 4 of RFC 4648 round trip: decoding the encoding gives the bytes back. */
  lemma {:induction false} DecodeEncode(data: seq<byte>)
    ensures Decode(Encode(data)) == Some(data)
    decreases |data|
  {
    if |data| == 0 {
    } else if |data| == 1 {
      DecodeEncodeOne(data[0]);
      assert data == [data[0]];
    } else if |data| == 2 {
      DecodeEncodeTwo(data[0], data[1]);
      assert data == [data[0], data[1]];
    } else {
      var rest := data[3..];
      assert Encode(data) == EncodeTriple(data[0], data[1], data[2]) + Encode(rest);
      assert data == [data[0], data[1], data[2]] + rest;
      if rest == [] {
        DecodeEncodeTriple(data[0], data[1], data[2]);
        var q := EncodeTriple(data[0], data[1], data[2]);
        assert Encode(data) == q;
        assert Decode(q) == DecodeLastQuad(q);
        assert data == [data[0], data[1], data[2]];
      } else {
        DecodeEncode(rest);
        DecodeTripleThen(data[0], data[1], data[2], rest);
      }
    }
  }

  /** A full group followed by a well-encoded rest decodes to the group's bytes followed by the rest. */
  lemma DecodeTripleThen(b0: byte, b1: byte, b2: byte, rest: seq<byte>)
    requires rest != [] && Decode(Encode(rest)) == Some(rest)
    ensures Decode(EncodeTriple(b0, b1, b2) + Encode(rest)) == Some([b0, b1, b2] + rest)
  {
    DecodeEncodeTriple(b0, b1, b2);
    DecodeAppend(EncodeTriple(b0, b1, b2), Encode(rest));
  }

  lemma DecodeAppend(head: string, tail: string)
    requires |head| == 4 && |tail| > 0
    ensures Decode(head + tail) == match (DecodeQuad(head), Decode(tail))
      case (Some(h), Some(t)) => Some(h + t)
      case _ => None
  {
    var text := head + tail;
    assert text[..4] == head && text[4..] == tail;
  }

  /** The encoding of nothing is the empty text, and only that text decodes to no bytes. */
  lemma {:induction false} DecodeEmptyOnlyFromEmpty(text: string)
    ensures Decode(text) == Some([]) <==> text == ""
    decreases |text|
  {
    if |text| > 4 {
      match (DecodeQuad(text[..4]), Decode(text[4..]))
      case (Some(head), Some(tail)) => assert |head + tail| >= 3;
      case _ =>
    }
  }
}
