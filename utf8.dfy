/**
 * `String.toByteArray()`: the UTF-8 encoding of text, the bytes `write`
 * hands to the port. A character here is a Unicode scalar value.
 */
module Utf8 {
  import opened Hex

  /** The one to four UTF-8 bytes of one scalar value. */
  function EncodeChar(c: char): (r: seq<byte>)
    ensures 1 <= |r| <= 4
    ensures (c as int < 0x80) <==> (|r| == 1)
    ensures |r| == 1 ==> r[0] == c as int
    ensures forall k :: 1 <= k < |r| ==> 0x80 <= r[k] < 0xC0
  {
    var cp := c as int;
    if cp < 0x80 then [cp]
    else if cp < 0x800 then [0xC0 + cp / 0x40, 0x80 + cp % 0x40]
    else if cp < 0x1_0000 then [0xE0 + cp / 0x1000, 0x80 + (cp / 0x40) % 0x40, 0x80 + cp % 0x40]
    else [0xF0 + cp / 0x4_0000, 0x80 + (cp / 0x1000) % 0x40, 0x80 + (cp / 0x40) % 0x40, 0x80 + cp % 0x40]
  }

  /** Each character contributes its own one to four bytes, in order. */
  function Encode(s: string): (r: seq<byte>)
    ensures |s| <= |r| <= 4 * |s|
    decreases |s|
  {
    if s == [] then [] else EncodeChar(s[0]) + Encode(s[1..])
  }

  /** Encoding distributes over concatenation: text sent in pieces gives the same bytes. */
  lemma {:induction false} EncodeConcat(s: string, t: string)
    ensures Encode(s + t) == Encode(s) + Encode(t)
    decreases |s|
  {
    if s == [] {
      assert s + t == t;
    } else {
      assert (s + t)[0] == s[0] && (s + t)[1..] == s[1..] + t;
      EncodeConcat(s[1..], t);
    }
  }

  /** The text whose characters are the given bytes below 0x80. */
  function AsciiText(b: seq<byte>): (s: string)
    requires forall i :: 0 <= i < |b| ==> b[i] < 0x80
    ensures |s| == |b| && forall i :: 0 <= i < |b| ==> s[i] as int == b[i]
  {
    seq(|b|, i requires 0 <= i < |b| => b[i] as char)
  }

  /** ASCII text encodes to its own character codes, one byte per character. */
  lemma {:induction false} EncodeAscii(b: seq<byte>)
    requires forall i :: 0 <= i < |b| ==> b[i] < 0x80
    ensures Encode(AsciiText(b)) == b
    decreases |b|
  {
    if b != [] {
      EncodeAscii(b[1..]);
      assert AsciiText(b)[1..] == AsciiText(b[1..]);
    }
  }
}
