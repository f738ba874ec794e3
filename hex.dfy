/**
 * Base-16 text. `HexValue` is Kotlin's `String.toInt(16)` on a string of hex
 * digits; `DecodeHex` is the plugin's `toByteArrayFromHexadecimal`, which cuts
 * the text into chunks of two characters, upper-cases each chunk, parses it
 * base 16 and narrows it to a byte. `EncodeHex` and `NatToHex` are the
 * inverse directions, used to state round trips.
 */
module Hex {

  /** A byte, seen unsigned. Kotlin's `toByte()` keeps the same eight bits as a signed value. */
  type byte = x: int | 0 <= x < 256

  predicate IsHexDigit(c: char) {
    ('0' <= c <= '9') || ('a' <= c <= 'f') || ('A' <= c <= 'F')
  }

  predicate IsHexString(s: string) {
    forall i :: 0 <= i < |s| ==> IsHexDigit(s[i])
  }

  /** The value of one hex digit; upper and lower case letters have the same value. */
  function DigitValue(c: char): (v: nat)
    requires IsHexDigit(c)
    ensures v < 16
    ensures ('0' <= c <= '9') ==> v == c as int - '0' as int
    ensures ('a' <= c <= 'f') ==> v == c as int - 'a' as int + 10
    ensures ('A' <= c <= 'F') ==> v == c as int - 'A' as int + 10
  {
    if '0' <= c <= '9' then c as int - '0' as int
    else if 'a' <= c <= 'f' then c as int - 'a' as int + 10
    else c as int - 'A' as int + 10
  }

  /** The upper-case digit for a value below 16. */
  function DigitChar(v: nat): (c: char)
    requires v < 16
    ensures IsHexDigit(c) && DigitValue(c) == v
    ensures !('a' <= c <= 'z')
  {
    if v < 10 then ('0' as int + v) as char else ('A' as int + v - 10) as char
  }

  /** `Char.uppercase()` restricted to the ASCII letters, the only ones a hex string holds. */
  function UpperChar(c: char): char {
    if 'a' <= c <= 'z' then (c as int - 32) as char else c
  }

  function Upper(s: string): string {
    seq(|s|, i requires 0 <= i < |s| => UpperChar(s[i]))
  }

  /** Upper-casing a hex string keeps it a hex string with the same digit values. */
  lemma UpperKeepsDigits(s: string)
    requires IsHexString(s)
    ensures |Upper(s)| == |s| && IsHexString(Upper(s))
    ensures forall i :: 0 <= i < |s| ==> DigitValue(Upper(s)[i]) == DigitValue(s[i])
  {
  }

  function Pow16(n: nat): (p: nat)
    ensures p >= 1
  {
    if n == 0 then 1 else 16 * Pow16(n - 1)
  }

  /** `toInt(16)` on a string of hex digits: the digits read most significant first. */
  function HexValue(s: string): (v: nat)
    requires IsHexString(s)
    ensures v < Pow16(|s|)
    decreases |s|
  {
    if s == [] then 0 else 16 * HexValue(s[..|s| - 1]) + DigitValue(s[|s| - 1])
  }

  /** Parsing does not depend on the case of the letters, so the chunk's `uppercase()` changes no value. */
  lemma {:induction false} HexValueIgnoresCase(s: string)
    requires IsHexString(s)
    ensures IsHexString(Upper(s)) && HexValue(Upper(s)) == HexValue(s)
    decreases |s|
  {
    UpperKeepsDigits(s);
    if s != [] {
      var p := s[..|s| - 1];
      assert Upper(s)[..|s| - 1] == Upper(p);
      HexValueIgnoresCase(p);
    }
  }

  /** A leading zero digit does not change the value `toInt(16)` reads. */
  lemma {:induction false} HexValueLeadingZero(s: string)
    requires IsHexString(s)
    ensures IsHexString("0" + s) && HexValue("0" + s) == HexValue(s)
    decreases |s|
  {
    if s == [] {
      assert "0" + s == "0";
    } else {
      var p := s[..|s| - 1];
      assert ("0" + s)[..|s|] == "0" + p;
      HexValueLeadingZero(p);
    }
  }

  function Min(a: int, b: int): int {
    if a <= b then a else b
  }

  /** Kotlin's `chunked(2)`: consecutive pieces of two characters, the last one shorter when |s| is odd. */
  function Chunked(s: string): (r: seq<string>)
    ensures |r| == (|s| + 1) / 2
    ensures forall i :: 0 <= i < |r| ==> r[i] == s[2 * i .. Min(2 * i + 2, |s|)]
    decreases |s|
  {
    if |s| == 0 then []
    else if |s| <= 2 then [s]
    else [s[..2]] + Chunked(s[2..])
  }

  /** One chunk of one or two hex digits, upper-cased, parsed base 16 and narrowed to a byte. */
  function ChunkByte(chunk: string): (b: byte)
    requires 1 <= |chunk| <= 2 && IsHexString(chunk)
    ensures |chunk| == 1 ==> b == DigitValue(chunk[0])
    ensures |chunk| == 2 ==> b == 16 * DigitValue(chunk[0]) + DigitValue(chunk[1])
  {
    HexValueIgnoresCase(chunk);
    assert |chunk| == 2 ==> chunk[..1][..0] == [];
    assert chunk[..|chunk| - 1][..0] == [];
    HexValue(Upper(chunk))
  }

  /**
   * `toByteArrayFromHexadecimal`: a string of 2k hex digits, in either case,
   * gives k bytes, byte i being the value of digits 2i and 2i+1; an odd
   * length is not refused and gives one more byte, the value of the last digit.
   */
  function DecodeHex(s: string): (r: seq<byte>)
    requires IsHexString(s)
    ensures |r| == (|s| + 1) / 2
    ensures forall i :: 0 <= i < |s| / 2 ==> r[i] == 16 * DigitValue(s[2 * i]) + DigitValue(s[2 * i + 1])
    ensures |s| % 2 == 1 ==> r[|r| - 1] == DigitValue(s[|s| - 1])
  {
    var chunks := Chunked(s);
    seq(|chunks|, i requires 0 <= i < |chunks| => ChunkByte(chunks[i]))
  }

  /** The two upper-case digits of every byte, in order: the inverse of `DecodeHex`. */
  function EncodeHex(b: seq<byte>): string
    decreases |b|
  {
    if b == [] then [] else [DigitChar(b[0] / 16), DigitChar(b[0] % 16)] + EncodeHex(b[1..])
  }

  lemma {:induction false} EncodeHexAt(b: seq<byte>)
    ensures |EncodeHex(b)| == 2 * |b| && IsHexString(EncodeHex(b))
    ensures forall i :: 0 <= i < |b| ==> EncodeHex(b)[2 * i] == DigitChar(b[i] / 16)
    ensures forall i :: 0 <= i < |b| ==> EncodeHex(b)[2 * i + 1] == DigitChar(b[i] % 16)
    decreases |b|
  {
    if b != [] {
      EncodeHexAt(b[1..]);
      var e := EncodeHex(b);
      assert e == [DigitChar(b[0] / 16), DigitChar(b[0] % 16)] + EncodeHex(b[1..]);
      forall i | 1 <= i < |b|
        ensures e[2 * i] == DigitChar(b[i] / 16) && e[2 * i + 1] == DigitChar(b[i] % 16)
      {
        assert e[2 * i] == EncodeHex(b[1..])[2 * (i - 1)];
        assert e[2 * i + 1] == EncodeHex(b[1..])[2 * (i - 1) + 1];
      }
    }
  }

  /** Round trip: decoding the hex text of any byte sequence gives the bytes back. */
  lemma DecodeEncodeHex(b: seq<byte>)
    ensures IsHexString(EncodeHex(b)) && DecodeHex(EncodeHex(b)) == b
  {
    EncodeHexAt(b);
    var r := DecodeHex(EncodeHex(b));
    forall i | 0 <= i < |b| ensures r[i] == b[i] {
      assert r[i] == 16 * (b[i] / 16) + b[i] % 16;
    }
  }

  /** The lower-case text of a byte sequence decodes to the same bytes as the upper-case text. */
  lemma DecodeHexIgnoresCase(s: string)
    requires IsHexString(s)
    ensures IsHexString(Upper(s)) && DecodeHex(Upper(s)) == DecodeHex(s)
  {
    UpperKeepsDigits(s);
    var t := Upper(s);
    var u, r := DecodeHex(t), DecodeHex(s);
    assert |u| == |r|;
    forall i | 0 <= i < |u| ensures u[i] == r[i] {
      if i < |s| / 2 {
        assert DigitValue(t[2 * i]) == DigitValue(s[2 * i]);
        assert DigitValue(t[2 * i + 1]) == DigitValue(s[2 * i + 1]);
      } else {
        assert DigitValue(t[|t| - 1]) == DigitValue(s[|s| - 1]);
      }
    }
  }

  /** The shortest upper-case hex numeral of n. */
  function NatToHex(n: nat): (s: string)
    ensures |s| >= 1 && IsHexString(s)
    decreases n
  {
    if n < 16 then [DigitChar(n)] else NatToHex(n / 16) + [DigitChar(n % 16)]
  }

  /** Round trip: `toInt(16)` of the hex numeral of n is n. */
  lemma {:induction false} HexValueOfNatToHex(n: nat)
    ensures HexValue(NatToHex(n)) == n
    decreases n
  {
    var s := NatToHex(n);
    if n < 16 {
      assert s[..0] == [];
    } else {
      HexValueOfNatToHex(n / 16);
      assert s[..|s| - 1] == NatToHex(n / 16);
    }
  }
}
