/**
 * Base64 as used for the image payload of a data URL: the encoder of section 4 of RFC 4648
 * (Node's `Buffer.toString("base64")`) and the decoder of `Buffer.from(s, "base64")`, which
 * also takes the URL-safe letters of section 5, skips characters outside the alphabet and
 * ends at the first '='.
 */
module Base64 {
  import opened Wrappers

  type byte = x: int | 0 <= x < 256
  type sextet = x: int | 0 <= x < 64

  /** The character for a 6-bit value (Table 1 of RFC 4648). */
  function CharOf(v: sextet): (c: char)
    ensures c != '=' && c != ',' && c != ':' && c != ';'
  {
    if v < 26 then ('A' as int + v) as char
    else if v < 52 then ('a' as int + (v - 26)) as char
    else if v < 62 then ('0' as int + (v - 52)) as char
    else if v == 62 then '+'
    else '/'
  }

  /** The 6-bit value of a character the decoder accepts, or None for a character it skips. */
  function ValueOf(c: char): (r: Option<sextet>)
    ensures c == '=' ==> r.None?
  {
    if 'A' <= c <= 'Z' then Some(c as int - 'A' as int)
    else if 'a' <= c <= 'z' then Some(c as int - 'a' as int + 26)
    else if '0' <= c <= '9' then Some(c as int - '0' as int + 52)
    else if c == '+' || c == '-' then Some(62)
    else if c == '/' || c == '_' then Some(63)
    else None
  }

  /** Each 6-bit value is read back from its character. */
  lemma CharRoundTrip(v: sextet)
    ensures ValueOf(CharOf(v)) == Some(v)
  {
  }

  /** The 6-bit groups of `b`: three bytes make four groups; a final one or two bytes make two or three. */
  function EncodeGroups(b: seq<byte>): (x: seq<sextet>)
    ensures |x| == (4 * |b| + 2) / 3
    decreases |b|
  {
    if |b| >= 3 then
      [b[0] / 4, (b[0] % 4) * 16 + b[1] / 16, (b[1] % 16) * 4 + b[2] / 64, b[2] % 64]
        + EncodeGroups(b[3..])
    else if |b| == 2 then
      [b[0] / 4, (b[0] % 4) * 16 + b[1] / 16, (b[1] % 16) * 4]
    else if |b| == 1 then
      [b[0] / 4, (b[0] % 4) * 16]
    else
      []
  }

  function Chars(x: seq<sextet>): (s: string)
    ensures |s| == |x|
    ensures forall i :: 0 <= i < |x| ==> s[i] == CharOf(x[i])
  {
    if x == [] then "" else [CharOf(x[0])] + Chars(x[1..])
  }

  /** The '=' padding that completes the last quantum of `n` bytes. */
  function Padding(n: nat): string
  {
    if n % 3 == 1 then "==" else if n % 3 == 2 then "=" else ""
  }

  /** Base64 text of `b`: whole 4-character quanta, padded with '='. */
  function Encode(b: seq<byte>): (s: string)
    ensures |s| % 4 == 0 && |s| == 4 * ((|b| + 2) / 3)
    ensures forall i :: 0 <= i < |s| ==> s[i] != ',' && s[i] != ':' && s[i] != ';'
  {
    PaddedLength(|b|);
    var s := Chars(EncodeGroups(b)) + Padding(|b|);
    assert forall i :: |EncodeGroups(b)| <= i < |s| ==> s[i] == '=';
    s
  }

  lemma PaddedLength(n: nat)
    ensures (4 * n + 2) / 3 + |Padding(n)| == 4 * ((n + 2) / 3)
  {
    var q, r := n / 3, n % 3;
    assert n == 3 * q + r;
    assert (4 * n + 2) / 3 == 4 * q + (4 * r + 2) / 3;
    assert (n + 2) / 3 == q + (r + 2) / 3;
  }

  /** The 6-bit values the decoder reads from `s`. */
  function Sextets(s: string): seq<sextet>
  {
    if s == [] || s[0] == '=' then []
    else
      match ValueOf(s[0])
      case Some(v) => [v] + Sextets(s[1..])
      case None => Sextets(s[1..])
  }

  /** Bytes from 6-bit groups: four groups give three bytes; a trailing two or three give one or two. */
  function DecodeGroups(x: seq<sextet>): seq<byte>
  {
    if |x| < 2 then []
    else
      var x0: int, x1: int := x[0], x[1];
      var x2: int := if |x| >= 3 then x[2] else 0;
      var x3: int := if |x| >= 4 then x[3] else 0;
      var b0: byte := x0 * 4 + x1 / 16;
      var b1: byte := (x1 % 16) * 16 + x2 / 4;
      var b2: byte := (x2 % 4) * 64 + x3;
      if |x| >= 4 then [b0, b1, b2] + DecodeGroups(x[4..])
      else if |x| == 3 then [b0, b1]
      else [b0]
  }

  /** `Buffer.from(s, "base64")`. */
  function Decode(s: string): seq<byte>
  {
    DecodeGroups(Sextets(s))
  }

  /** The characters of encoded groups are read back, and padding stops the reader. */
  lemma {:induction false} SextetsOfChars(x: seq<sextet>, pad: string)
    requires pad == [] || pad[0] == '='
    ensures Sextets(Chars(x) + pad) == x
  {
    if x == [] {
      assert Chars(x) + pad == pad;
    } else {
      var s := Chars(x) + pad;
      assert s[0] == CharOf(x[0]);
      CharRoundTrip(x[0]);
      assert s[1..] == Chars(x[1..]) + pad;
      SextetsOfChars(x[1..], pad);
      assert x == [x[0]] + x[1..];
    }
  }

  lemma ThreeBytes(b0: byte, b1: byte, b2: byte)
    ensures (b0 / 4) * 4 + ((b0 % 4) * 16 + b1 / 16) / 16 == b0
    ensures (((b0 % 4) * 16 + b1 / 16) % 16) * 16 + ((b1 % 16) * 4 + b2 / 64) / 4 == b1
    ensures (((b1 % 16) * 4 + b2 / 64) % 4) * 64 + b2 % 64 == b2
  {
    assert ((b0 % 4) * 16 + b1 / 16) / 16 == b0 % 4;
    assert ((b0 % 4) * 16 + b1 / 16) % 16 == b1 / 16;
    assert ((b1 % 16) * 4 + b2 / 64) / 4 == b1 % 16;
    assert ((b1 % 16) * 4 + b2 / 64) % 4 == b2 / 64;
  }

  lemma TwoBytes(b0: byte, b1: byte)
    ensures (b0 / 4) * 4 + ((b0 % 4) * 16 + b1 / 16) / 16 == b0
    ensures (((b0 % 4) * 16 + b1 / 16) % 16) * 16 + ((b1 % 16) * 4) / 4 == b1
  {
    ThreeBytes(b0, b1, 0);
  }

  /** Decoding the groups of `b` gives back `b`. */
  lemma {:induction false} GroupsRoundTrip(b: seq<byte>)
    ensures DecodeGroups(EncodeGroups(b)) == b
    decreases |b|
  {
    var x := EncodeGroups(b);
    if |b| >= 3 {
      ThreeBytes(b[0], b[1], b[2]);
      assert x[4..] == EncodeGroups(b[3..]);
      GroupsRoundTrip(b[3..]);
      assert b == b[..3] + b[3..];
    } else if |b| == 2 {
      TwoBytes(b[0], b[1]);
    } else if |b| == 1 {
      TwoBytes(b[0], 0);
    }
  }

  /** Decoding the base64 text of any byte string gives that byte string back. */
  lemma RoundTrip(b: seq<byte>)
    ensures Decode(Encode(b)) == b
  {
    SextetsOfChars(EncodeGroups(b), Padding(|b|));
    GroupsRoundTrip(b);
  }
}
