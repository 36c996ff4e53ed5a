/**
 * Standard base64 (RFC 4648, section 4) over byte strings, used for the
 * opaque reference carried in the return URL.
 */
module Base64 {
  import opened Wrappers

  /** PHP strings are byte strings: every character is below 256. */
  predicate IsBytes(s: string) {
    forall i :: 0 <= i < |s| ==> s[i] as int < 256
  }

  /** The character for a 6-bit value. */
  function CharOf(v: int): (c: char)
    requires 0 <= v < 64
  {
    if v < 26 then ('A' as int + v) as char
    else if v < 52 then ('a' as int + v - 26) as char
    else if v < 62 then ('0' as int + v - 52) as char
    else if v == 62 then '+'
    else '/'
  }

  /** The 6-bit value of a base64 character; None for padding and characters outside the alphabet. */
  function ValueOf(c: char): (r: Option<int>)
    ensures r.Some? ==> 0 <= r.value < 64 && CharOf(r.value) == c
  {
    if 'A' <= c <= 'Z' then Some(c as int - 'A' as int)
    else if 'a' <= c <= 'z' then Some(c as int - 'a' as int + 26)
    else if '0' <= c <= '9' then Some(c as int - '0' as int + 52)
    else if c == '+' then Some(62)
    else if c == '/' then Some(63)
    else None
  }

  lemma ValueOfCharOf(v: int)
    requires 0 <= v < 64
    ensures ValueOf(CharOf(v)) == Some(v)
  {
  }

  function Byte(c: char): int { c as int }

  /** base64_encode: three bytes to four characters, the tail padded with '='. */
  function Encode(s: string): (r: string)
    requires IsBytes(s)
    ensures |r| % 4 == 0
    decreases |s|
  {
    if |s| == 0 then ""
    else if |s| == 1 then
      [CharOf(Byte(s[0]) / 4), CharOf((Byte(s[0]) % 4) * 16), '=', '=']
    else if |s| == 2 then
      [CharOf(Byte(s[0]) / 4), CharOf((Byte(s[0]) % 4) * 16 + Byte(s[1]) / 16),
       CharOf((Byte(s[1]) % 16) * 4), '=']
    else
      Block(Byte(s[0]), Byte(s[1]), Byte(s[2])) + Encode(s[3..])
  }

  /** The four characters for three full bytes. */
  function Block(b0: int, b1: int, b2: int): (r: string)
    requires 0 <= b0 < 256 && 0 <= b1 < 256 && 0 <= b2 < 256
  {
    [CharOf(b0 / 4), CharOf((b0 % 4) * 16 + b1 / 16), CharOf((b1 % 16) * 4 + b2 / 64), CharOf(b2 % 64)]
  }

  /** base64_decode on canonical input; None for input that is not canonical base64. */
  function Decode(t: string): (r: Option<string>)
    decreases |t|
  {
    if |t| == 0 then Some("")
    else if |t| < 4 then None
    else
      var v0, v1, v2, v3 := ValueOf(t[0]), ValueOf(t[1]), ValueOf(t[2]), ValueOf(t[3]);
      if v0.None? || v1.None? then None
      else if |t| == 4 && t[2] == '=' && t[3] == '=' then
        Some([(v0.value * 4 + v1.value / 16) as char])
      else if v2.None? then None
      else if |t| == 4 && t[3] == '=' then
        Some([(v0.value * 4 + v1.value / 16) as char, ((v1.value % 16) * 16 + v2.value / 4) as char])
      else if v3.None? then None
      else
        var rest := Decode(t[4..]);
        if rest.None? then None
        else Some([(v0.value * 4 + v1.value / 16) as char,
                   ((v1.value % 16) * 16 + v2.value / 4) as char,
                   ((v2.value % 4) * 64 + v3.value) as char] + rest.value)
  }

  /** The first byte is rebuilt from the first two 6-bit groups. */
  lemma FirstByte(b0: int, b1: int)
    requires 0 <= b0 < 256 && 0 <= b1 < 256
    ensures (b0 / 4) * 4 + ((b0 % 4) * 16 + b1 / 16) / 16 == b0
  {
  }

  /** The second byte is rebuilt from the second and third 6-bit groups. */
  lemma SecondByte(b0: int, b1: int, b2: int)
    requires 0 <= b0 < 256 && 0 <= b1 < 256 && 0 <= b2 < 256
    ensures ((b0 % 4) * 16 + b1 / 16) % 16 * 16 + ((b1 % 16) * 4 + b2 / 64) / 4 == b1
  {
  }

  /** Four characters carrying one byte and two padding characters decode to that byte. */
  lemma DecodeOneByte(b0: int)
    requires 0 <= b0 < 256
    ensures Decode([CharOf(b0 / 4), CharOf((b0 % 4) * 16), '=', '=']) == Some([b0 as char])
  {
    ValueOfCharOf(b0 / 4);
    ValueOfCharOf((b0 % 4) * 16);
    FirstByte(b0, 0);
  }

  /** Four characters carrying two bytes and one padding character decode to those bytes. */
  lemma DecodeTwoBytes(b0: int, b1: int)
    requires 0 <= b0 < 256 && 0 <= b1 < 256
    ensures Decode([CharOf(b0 / 4), CharOf((b0 % 4) * 16 + b1 / 16), CharOf((b1 % 16) * 4), '='])
            == Some([b0 as char, b1 as char])
  {
    ValueOfCharOf(b0 / 4);
    ValueOfCharOf((b0 % 4) * 16 + b1 / 16);
    ValueOfCharOf((b1 % 16) * 4);
    FirstByte(b0, b1);
    SecondByte(b0, b1, 0);
  }

  /** A full block of four characters decodes to its three bytes, followed by the decoding of the rest. */
  lemma DecodeFullBlock(b0: int, b1: int, b2: int, rest: string, decoded: string)
    requires 0 <= b0 < 256 && 0 <= b1 < 256 && 0 <= b2 < 256
    requires Decode(rest) == Some(decoded)
    ensures Decode(Block(b0, b1, b2) + rest) == Some([b0 as char, b1 as char, b2 as char] + decoded)
  {
    var block := Block(b0, b1, b2);
    var t := block + rest;
    ValueOfCharOf(b0 / 4);
    ValueOfCharOf((b0 % 4) * 16 + b1 / 16);
    ValueOfCharOf((b1 % 16) * 4 + b2 / 64);
    ValueOfCharOf(b2 % 64);
    FirstByte(b0, b1);
    SecondByte(b0, b1, b2);
    assert t[..4] == block && t[4..] == rest;
    assert t[2] != '=' && t[3] != '=';
  }

  /** One byte survives encoding and decoding. */
  lemma RoundTripOneByte(s: string)
    requires IsBytes(s) && |s| == 1
    ensures Decode(Encode(s)) == Some(s)
  {
    var b0 := Byte(s[0]);
    assert Encode(s) == [CharOf(b0 / 4), CharOf((b0 % 4) * 16), '=', '='];
    DecodeOneByte(b0);
    assert [b0 as char] == s;
  }

  /** Two bytes survive encoding and decoding. */
  lemma RoundTripTwoBytes(s: string)
    requires IsBytes(s) && |s| == 2
    ensures Decode(Encode(s)) == Some(s)
  {
    var b0, b1 := Byte(s[0]), Byte(s[1]);
    assert Encode(s) == [CharOf(b0 / 4), CharOf((b0 % 4) * 16 + b1 / 16), CharOf((b1 % 16) * 4), '='];
    DecodeTwoBytes(b0, b1);
    assert [b0 as char, b1 as char] == s;
  }

  /** Three leading bytes survive when the rest does. */
  lemma RoundTripBlock(s: string)
    requires IsBytes(s) && |s| >= 3
    requires Decode(Encode(s[3..])) == Some(s[3..])
    ensures Decode(Encode(s)) == Some(s)
  {
    var rest := s[3..];
    DecodeFullBlock(Byte(s[0]), Byte(s[1]), Byte(s[2]), Encode(rest), rest);
    SplitBlock(s);
  }

  /** A byte string is its first three characters, as bytes, followed by the rest. */
  lemma SplitBlock(s: string)
    requires |s| >= 3
    ensures [Byte(s[0]) as char, Byte(s[1]) as char, Byte(s[2]) as char] + s[3..] == s
  {
  }

  /** Decoding an encoding gives back the original bytes. */
  lemma {:induction false} DecodeEncode(s: string)
    requires IsBytes(s)
    ensures Decode(Encode(s)) == Some(s)
    decreases |s|
  {
    if |s| == 1 {
      RoundTripOneByte(s);
    } else if |s| == 2 {
      RoundTripTwoBytes(s);
    } else if |s| >= 3 {
      assert IsBytes(s[3..]);
      DecodeEncode(s[3..]);
      RoundTripBlock(s);
    }
  }
}
