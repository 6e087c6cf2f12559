/**
 Decimal rendering of naturals, as JavaScript's `String(n)` and `n.toString()`
 produce it, and `padStart` with a fill character.
 */
module Digits {

  import opened Numbers

  predicate IsDigit(c: char)
  {
    '0' <= c <= '9'
  }

  predicate AllDigits(s: string)
  {
    forall i :: 0 <= i < |s| ==> IsDigit(s[i])
  }

  function DigitChar(d: nat): (c: char)
    requires d < 10
    ensures IsDigit(c)
    ensures c as int - '0' as int == d
  {
    ('0' as int + d) as char
  }

  /** The number a string of decimal digits denotes, most significant digit first. */
  function DigitsValue(s: string): nat
    requires AllDigits(s)
    decreases |s|
  {
    if s == [] then 0
    else DigitsValue(s[..|s| - 1]) * 10 + (s[|s| - 1] as int - '0' as int)
  }

  /**
   The canonical decimal rendering of `n`: digits only, never empty, no leading
   zero except for `0` itself, and reading it back gives `n`.
   */
  function Decimal(n: nat): (s: string)
    ensures AllDigits(s)
    ensures |s| >= 1
    ensures |s| == 1 <==> n < 10
    ensures n == 0 ==> s == "0"
    ensures n > 0 ==> s[0] != '0'
    ensures DigitsValue(s) == n
    decreases n
  {
    if n < 10 then [DigitChar(n)]
    else
      var s := Decimal(n / 10) + [DigitChar(n % 10)];
      assert s[..|s| - 1] == Decimal(n / 10);
      s
  }

  function Pow10(k: nat): nat
  {
    if k == 0 then 1 else 10 * Pow10(k - 1)
  }

  /** A natural in [10^k, 10^(k+1)) has exactly k+1 decimal digits. */
  lemma {:induction false} DecimalLength(n: nat, k: nat)
    requires Pow10(k) <= n < Pow10(k + 1)
    ensures |Decimal(n)| == k + 1
    decreases k
  {
    if k > 0 {
      assert Pow10(k - 1) <= n / 10 < Pow10(k);
      DecimalLength(n / 10, k - 1);
    }
  }

  /**
   `s.padStart(width, fill)`: `s` unchanged when it is already `width` long or
   longer, otherwise `fill` repeated on the left up to `width` characters.
   */
  function PadStart(s: string, width: nat, fill: char): (r: string)
    ensures |r| == Max(|s|, width)
    ensures r[|r| - |s|..] == s
    ensures forall i :: 0 <= i < |r| - |s| ==> r[i] == fill
  {
    if |s| >= width then s else seq(width - |s|, _ => fill) + s
  }

  /** Leading zeros change neither the digit-ness nor the value of a digit string. */
  lemma {:induction false} ZeroPrefixValue(z: nat, s: string)
    requires AllDigits(s)
    ensures AllDigits(seq(z, _ => '0') + s)
    ensures DigitsValue(seq(z, _ => '0') + s) == DigitsValue(s)
    decreases |s|, z
  {
    var t := seq(z, _ => '0') + s;
    if s == [] {
      assert t == seq(z, _ => '0');
      if z > 0 {
        assert t[..|t| - 1] == seq(z - 1, _ => '0') + [];
        ZeroPrefixValue(z - 1, []);
      }
    } else {
      assert t[..|t| - 1] == seq(z, _ => '0') + s[..|s| - 1];
      ZeroPrefixValue(z, s[..|s| - 1]);
    }
  }

  /** Zero-padding a decimal rendering keeps it readable as the same number. */
  lemma PaddedDecimalValue(n: nat, width: nat)
    ensures AllDigits(PadStart(Decimal(n), width, '0'))
    ensures DigitsValue(PadStart(Decimal(n), width, '0')) == n
  {
    PaddedValue(Decimal(n), width);
  }

  lemma PaddedValue(s: string, width: nat)
    requires AllDigits(s)
    ensures AllDigits(PadStart(s, width, '0'))
    ensures DigitsValue(PadStart(s, width, '0')) == DigitsValue(s)
  {
    if |s| < width {
      assert PadStart(s, width, '0') == seq(width - |s|, _ => '0') + s;
      ZeroPrefixValue(width - |s|, s);
    } else {
      assert PadStart(s, width, '0') == s;
    }
  }
}
