/**
 * Decimal rendering of natural numbers as Python's `str(n)` and the format
 * specification `f"{n:0Wd}"` produce it, and the parse that inverts it.
 */
module Digits {

  predicate IsDigit(c: char) { '0' <= c <= '9' }

  predicate AllDigits(s: string) { forall i :: 0 <= i < |s| ==> IsDigit(s[i]) }

  function DigitValue(c: char): (d: nat)
    requires IsDigit(c)
    ensures d < 10
  {
    c as int - '0' as int
  }

  function DigitChar(d: nat): (c: char)
    requires d < 10
    ensures IsDigit(c) && DigitValue(c) == d
  {
    ('0' as int + d) as char
  }

  function Pow10(k: nat): (p: nat)
    ensures p >= 1
  {
    if k == 0 then 1 else 10 * Pow10(k - 1)
  }

  /** `str(n)`: the shortest rendering, most significant digit first. */
  function Decimal(n: nat): (s: string)
    ensures 1 <= |s| && AllDigits(s)
    ensures s[0] == '0' <==> n == 0
    decreases n
  {
    if n < 10 then [DigitChar(n)] else Decimal(n / 10) + [DigitChar(n % 10)]
  }

  function Zeros(k: nat): (s: string)
    ensures |s| == k && AllDigits(s)
  {
    seq(k, _ => '0')
  }

  /** `f"{n:0Wd}"`: zeros on the left up to `width` characters; a longer rendering is never cut. */
  function ZeroPad(n: nat, width: nat): (s: string)
    ensures AllDigits(s) && |s| >= width
    ensures |s| > width && |s| > 1 ==> s[0] != '0'
  {
    var d := Decimal(n);
    if |d| < width then Zeros(width - |d|) + d else d
  }

  /** The number a string of digits denotes (leading zeros allowed). */
  function Value(s: string): (v: nat)
    requires AllDigits(s)
    ensures v < Pow10(|s|)
  {
    if s == [] then 0 else 10 * Value(s[..|s| - 1]) + DigitValue(s[|s| - 1])
  }

  lemma {:induction false} ValueOfDecimal(n: nat)
    ensures Value(Decimal(n)) == n
    decreases n
  {
    var s := Decimal(n);
    if n < 10 {
      assert s[..|s| - 1] == [];
    } else {
      ValueOfDecimal(n / 10);
      assert s[..|s| - 1] == Decimal(n / 10);
    }
  }

  lemma {:induction false} ValueOfZeros(k: nat)
    ensures Value(Zeros(k)) == 0
  {
    if k > 0 {
      assert Zeros(k)[..k - 1] == Zeros(k - 1);
      ValueOfZeros(k - 1);
    }
  }

  /** Leading zeros do not change the value. */
  lemma {:induction false} ValueIgnoresLeadingZeros(k: nat, s: string)
    requires AllDigits(s)
    ensures AllDigits(Zeros(k) + s) && Value(Zeros(k) + s) == Value(s)
    decreases |s|
  {
    var t := Zeros(k) + s;
    if s == [] {
      assert t == Zeros(k);
      ValueOfZeros(k);
    } else {
      assert t[..|t| - 1] == Zeros(k) + s[..|s| - 1];
      ValueIgnoresLeadingZeros(k, s[..|s| - 1]);
    }
  }

  /** Parsing a padded rendering gives the number back, whatever the width. */
  lemma ZeroPadRoundTrip(n: nat, width: nat)
    ensures Value(ZeroPad(n, width)) == n
  {
    ValueOfDecimal(n);
    if |Decimal(n)| < width {
      PaddingKeepsValue(n, width);
    }
  }

  lemma PaddingKeepsValue(n: nat, width: nat)
    requires |Decimal(n)| < width
    ensures Value(ZeroPad(n, width)) == Value(Decimal(n))
  {
    var d := Decimal(n);
    ValueIgnoresLeadingZeros(width - |d|, d);
  }

  /** Distinct numbers never share a padded rendering, even at different widths. */
  lemma ZeroPadInjective(a: nat, wa: nat, b: nat, wb: nat)
    requires ZeroPad(a, wa) == ZeroPad(b, wb)
    ensures a == b
  {
    ZeroPadRoundTrip(a, wa);
    ZeroPadRoundTrip(b, wb);
  }

  lemma {:induction false} DecimalFits(n: nat, k: nat)
    requires 1 <= k && n < Pow10(k)
    ensures |Decimal(n)| <= k
    decreases k
  {
    if n >= 10 {
      DecimalFits(n / 10, k - 1);
    }
  }

  lemma {:induction false} Pow10Monotone(i: nat, j: nat)
    requires i <= j
    ensures Pow10(i) <= Pow10(j)
    decreases j
  {
    if i < j {
      Pow10Monotone(i, j - 1);
    }
  }

  /** `str(n)` has exactly k digits when 10^(k-1) <= n < 10^k. */
  lemma DecimalWidth(n: nat, k: nat)
    requires 1 <= k && Pow10(k - 1) <= n < Pow10(k)
    ensures |Decimal(n)| == k
  {
    DecimalFits(n, k);
    var d := Decimal(n);
    if |d| < k {
      ValueOfDecimal(n);
      Pow10Monotone(|d|, k - 1);
    }
  }

  /** The padded rendering has exactly `width` characters if and only if `n < 10^width`. */
  lemma ZeroPadExactWidth(n: nat, width: nat)
    requires width >= 1
    ensures |ZeroPad(n, width)| == width <==> n < Pow10(width)
  {
    var s := ZeroPad(n, width);
    if n < Pow10(width) {
      DecimalFits(n, width);
    }
    if |s| == width {
      ZeroPadRoundTrip(n, width);
    }
  }
}
