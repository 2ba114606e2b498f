/** Lower-case hexadecimal text: how the client writes a digest and how the server checks one. */
module Hex {

  const DIGITS := "0123456789abcdef"

  predicate IsDigit(c: char) { c in DIGITS }

  /** What the server requires of a digest, and of the key of a cached file. */
  predicate ValidDigest(text: string)
  {
    |text| == 64 && forall c | c in text :: IsDigit(c)
  }

  function DigitValue(c: char): (v: nat)
    requires IsDigit(c)
    ensures v < 16 && DIGITS[v] == c
  {
    var v :| 0 <= v < 16 && DIGITS[v] == c;
    v
  }

  /** `v.toString(16)` for a non-negative integer. */
  function ToString16(n: nat): (s: string)
    ensures |s| > 0 && forall c | c in s :: IsDigit(c)
  {
    if n < 16 then [DIGITS[n]] else ToString16(n / 16) + [DIGITS[n % 16]]
  }

  /** `s.padStart(width, "0")`. */
  function PadStart(s: string, width: nat): string
  {
    if |s| >= width then s else seq(width - |s|, _ => '0') + s
  }

  /** The number that a string of digits writes down, most significant digit first. */
  function Value(s: string): nat
    requires forall c | c in s :: IsDigit(c)
  {
    if s == [] then 0 else 16 * Value(s[..|s| - 1]) + DigitValue(s[|s| - 1])
  }

  function Pow16(n: nat): (r: nat)
    ensures r > 0
  {
    if n == 0 then 1 else 16 * Pow16(n - 1)
  }

  lemma DigitOf(d: nat)
    requires d < 16
    ensures IsDigit(DIGITS[d]) && DigitValue(DIGITS[d]) == d
  {
  }

  lemma Snoc(s: string, d: nat)
    requires d < 16 && forall c | c in s :: IsDigit(c)
    ensures forall c | c in s + [DIGITS[d]] :: IsDigit(c)
    ensures Value(s + [DIGITS[d]]) == 16 * Value(s) + d
  {
    DigitOf(d);
    var t := s + [DIGITS[d]];
    assert t[..|t| - 1] == s;
  }

  lemma {:induction false} ValueOfToString(n: nat)
    ensures Value(ToString16(n)) == n
  {
    if n < 16 {
      DigitOf(n);
      Snoc([], n);
      assert ToString16(n) == [] + [DIGITS[n]];
    } else {
      ValueOfToString(n / 16);
      Snoc(ToString16(n / 16), n % 16);
    }
  }

  lemma {:induction false} LengthOfToString(n: nat, width: nat)
    requires 0 < width && n < Pow16(width)
    ensures |ToString16(n)| <= width
    decreases width
  {
    if n >= 16 {
      assert width > 1;
      LengthOfToString(n / 16, width - 1);
    }
  }

  lemma {:induction false} LeadingZeros(k: nat, s: string)
    requires forall c | c in s :: IsDigit(c)
    ensures forall c | c in seq(k, _ => '0') + s :: IsDigit(c)
    ensures Value(seq(k, _ => '0') + s) == Value(s)
    decreases k + |s|
  {
    var z := seq(k, _ => '0');
    var t := z + s;
    if s != [] {
      LeadingZeros(k, s[..|s| - 1]);
      assert t[..|t| - 1] == z + s[..|s| - 1];
    } else if k > 0 {
      LeadingZeros(k - 1, s);
      assert t == z && z[..k - 1] == seq(k - 1, _ => '0') + s;
    }
  }

  /** One padded word: eight digits that read back as the word. */
  lemma PaddedWord(n: nat)
    requires n < Pow16(8)
    ensures var s := PadStart(ToString16(n), 8);
            |s| == 8 && (forall c | c in s :: IsDigit(c)) && Value(s) == n
  {
    var s := ToString16(n);
    LengthOfToString(n, 8);
    ValueOfToString(n);
    LeadingZeros(8 - |s|, s);
  }
}
