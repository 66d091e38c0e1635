/** Decimal digit strings: JavaScript's Number-to-string conversion for the
    non-negative integers the app formats (millisecond timestamps, days of the
    month) and the inverse reading of a digit string as a number. */
module Decimal {

  /** 10 to the power k. */
  function Pow10(k: nat): (r: nat)
    ensures r >= 1
  {
    if k == 0 then 1 else 10 * Pow10(k - 1)
  }

  predicate IsDigit(c: char) {
    '0' <= c <= '9'
  }

  predicate AllDigits(s: string) {
    forall i :: 0 <= i < |s| ==> IsDigit(s[i])
  }

  /** The character of a single decimal digit. */
  function DigitChar(d: nat): (c: char)
    requires d < 10
    ensures IsDigit(c)
  {
    ('0' as int + d) as char
  }

  /** The value of a digit character. */
  function DigitValue(c: char): (d: nat)
    requires IsDigit(c)
    ensures d < 10
  {
    c as int - '0' as int
  }

  lemma DigitValueOfChar(d: nat)
    requires d < 10
    ensures DigitValue(DigitChar(d)) == d
  {
  }

  /** `n + ""` for a non-negative integer below 10^21: its decimal digits,
      most significant first, with no leading zero. The result has exactly as
      many characters as `n` has digits. */
  function DecimalString(n: nat): (s: string)
    ensures AllDigits(s)
    ensures 1 <= |s|
    ensures n < Pow10(|s|)
    ensures |s| == 1 || Pow10(|s| - 1) <= n
    ensures s[0] == '0' ==> n == 0
  {
    if n < 10 then [DigitChar(n)]
    else
      var s' := DecimalString(n / 10);
      assert 10 * (n / 10) <= n < 10 * (n / 10 + 1);
      s' + [DigitChar(n % 10)]
  }

  /** Reads a string of decimal digits as a number (leading zeros allowed). */
  function ParseDecimal(s: string): (n: nat)
    requires AllDigits(s)
    ensures n < Pow10(|s|)
  {
    if |s| == 0 then 0
    else
      var p := ParseDecimal(s[..|s| - 1]);
      assert p <= Pow10(|s| - 1) - 1;
      p * 10 + DigitValue(s[|s| - 1])
  }

  /** Reading back the decimal string of `n` gives `n`. */
  lemma {:induction false} ParseDecimalString(n: nat)
    ensures ParseDecimal(DecimalString(n)) == n
  {
    var s := DecimalString(n);
    if n < 10 {
      assert s[..0] == [];
      DigitValueOfChar(n);
    } else {
      ParseDecimalString(n / 10);
      assert s[..|s| - 1] == DecimalString(n / 10);
      DigitValueOfChar(n % 10);
    }
  }

  /** A positive multiple of a positive number is at least that number. */
  lemma MultipleAtLeast(x: nat, b: nat)
    requires 1 <= x
    ensures b <= x * b
  {
  }

  /** a == q * b + r with 0 <= r < b determines the quotient and remainder. */
  lemma ModOfDecomposition(a: int, b: int, q: int, r: int)
    requires 0 < b && 0 <= r < b && a == q * b + r
    ensures a % b == r && a / b == q
  {
    var q', r' := a / b, a % b;
    assert a == q' * b + r';
    assert (q - q') * b == r' - r by {
      assert (q - q') * b == q * b - q' * b;
    }
    if q > q' {
      MultipleAtLeast(q - q', b);
    } else if q < q' {
      MultipleAtLeast(q' - q, b);
    }
  }

  /** The last k digits of a digit string read as the number modulo 10^k. */
  lemma {:induction false} ParseSuffix(s: string, k: nat)
    requires AllDigits(s) && k <= |s|
    ensures ParseDecimal(s[|s| - k..]) == ParseDecimal(s) % Pow10(k)
  {
    if k == 0 {
      assert s[|s|..] == [];
    } else {
      var p := s[..|s| - 1];
      var t := s[|s| - k..];
      ParseSuffix(p, k - 1);
      assert t[..|t| - 1] == p[|p| - (k - 1)..];
      assert t[|t| - 1] == s[|s| - 1];
      var P := ParseDecimal(p);
      var d := DigitValue(s[|s| - 1]);
      var M := Pow10(k - 1);
      assert ParseDecimal(t) == (P % M) * 10 + d;
      SuffixStep(P, d, M);
    }
  }

  /** Appending a digit commutes with taking the remainder modulo a power of ten. */
  lemma SuffixStep(P: nat, d: nat, M: nat)
    requires d < 10 && 1 <= M
    ensures (P % M) * 10 + d == (P * 10 + d) % (10 * M)
  {
    var q, r := P / M, P % M;
    assert P == q * M + r;
    assert P * 10 + d == q * (10 * M) + (r * 10 + d) by {
      assert P * 10 == (q * M) * 10 + r * 10;
      assert (q * M) * 10 == q * (10 * M);
    }
    assert r * 10 + d < 10 * M by {
      assert r <= M - 1;
      assert r * 10 <= (M - 1) * 10;
    }
    ModOfDecomposition(P * 10 + d, 10 * M, q, r * 10 + d);
  }

  /** Two digit strings of the same length that read as the same number are
      the same string. */
  lemma {:induction false} ParseDecimalInjective(s: string, t: string)
    requires AllDigits(s) && AllDigits(t) && |s| == |t|
    requires ParseDecimal(s) == ParseDecimal(t)
    ensures s == t
  {
    if |s| > 0 {
      var n := |s|;
      var ds, dt := DigitValue(s[n - 1]), DigitValue(t[n - 1]);
      var ps, pt := ParseDecimal(s[..n - 1]), ParseDecimal(t[..n - 1]);
      ModOfDecomposition(ps * 10 + ds, 10, ps, ds);
      ModOfDecomposition(pt * 10 + dt, 10, pt, dt);
      ParseDecimalInjective(s[..n - 1], t[..n - 1]);
      assert s[n - 1] == t[n - 1] by {
        assert (s[n - 1] as int) == ('0' as int) + ds;
      }
      assert s == s[..n - 1] + [s[n - 1]];
      assert t == t[..n - 1] + [t[n - 1]];
    }
  }

  /** Pow10 is strictly increasing. */
  lemma {:induction false} Pow10Monotone(i: nat, j: nat)
    requires i < j
    ensures Pow10(i) < Pow10(j)
  {
    if j != i + 1 {
      Pow10Monotone(i, j - 1);
    }
  }
}
