/** Lowercase hexadecimal text: the digest alphabet, Python's `int(text, 16)`
    on such text, and its inverse, which the proofs use to build digests
    with a chosen prefix value. */
module Hex {

  /** A lowercase hexadecimal digit, as `hexdigest()` produces them. */
  predicate IsHexDigit(c: char) {
    '0' <= c <= '9' || 'a' <= c <= 'f'
  }

  predicate IsHexString(s: string) {
    forall i :: 0 <= i < |s| ==> IsHexDigit(s[i])
  }

  /** A hexadecimal SHA-256 digest: 64 lowercase hex digits. */
  type HexDigest = s: string | |s| == 64 && IsHexString(s)
    witness seq(64, _ => '0')

  /** 16 to the power k. */
  function Pow16(k: nat): (p: nat)
    ensures p >= 1
  {
    if k == 0 then 1 else 16 * Pow16(k - 1)
  }

  /** The value of one hex digit. */
  function DigitValue(c: char): (v: nat)
    requires IsHexDigit(c)
    ensures v < 16
    ensures ('0' <= c <= '9') == (v < 10)
  {
    if '0' <= c <= '9' then (c as int) - ('0' as int) else (c as int) - ('a' as int) + 10
  }

  /** The lowercase hex digit for a value below 16. */
  function DigitChar(d: nat): (c: char)
    requires d < 16
    ensures IsHexDigit(c)
  {
    if d < 10 then ('0' as int + d) as char else ('a' as int + d - 10) as char
  }

  /** The digit written for a value reads back as that value. */
  lemma DigitCharValue(d: nat)
    requires d < 16
    ensures DigitValue(DigitChar(d)) == d
  {
  }

  /** The value of a digit is written as that digit. */
  lemma DigitValueChar(c: char)
    requires IsHexDigit(c)
    ensures DigitChar(DigitValue(c)) == c
  {
  }

  /** Big-endian base-16 reading of a hex string, as `int(s, 16)`, with the
      empty string read as 0. The value fits in |s| hex digits. */
  function ParseHex(s: string): (n: nat)
    requires IsHexString(s)
    ensures n < Pow16(|s|)
  {
    if s == [] then 0 else ParseHex(s[..|s| - 1]) * 16 + DigitValue(s[|s| - 1])
  }

  /** The `width`-digit lowercase hex text of n, with leading zeros. */
  function ToHex(n: nat, width: nat): (s: string)
    requires n < Pow16(width)
    ensures |s| == width && IsHexString(s)
  {
    if width == 0 then "" else ToHex(n / 16, width - 1) + [DigitChar(n % 16)]
  }

  /** Reading back the text of n gives n. */
  lemma {:induction false} ParseToHex(n: nat, width: nat)
    requires n < Pow16(width)
    ensures ParseHex(ToHex(n, width)) == n
  {
    if width > 0 {
      var s := ToHex(n, width);
      assert s[..|s| - 1] == ToHex(n / 16, width - 1);
      ParseToHex(n / 16, width - 1);
      DigitCharValue(n % 16);
    }
  }

  /** Writing the value of a hex string back at its own width gives the string. */
  lemma {:induction false} ToHexParse(s: string)
    requires IsHexString(s)
    ensures ToHex(ParseHex(s), |s|) == s
  {
    if s != [] {
      var init, last := s[..|s| - 1], s[|s| - 1];
      var q, d := ParseHex(init), DigitValue(last);
      assert (q * 16 + d) / 16 == q && (q * 16 + d) % 16 == d;
      ToHexParse(init);
      DigitValueChar(last);
      assert s == init + [last];
    }
  }
}
