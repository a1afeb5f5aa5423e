/** Decimal digit strings of non-negative integers: what JavaScript's
    number-to-string conversion produces for a millisecond timestamp or a day
    of the month. */
module Digits {

  predicate IsDigit(c: char) {
    '0' <= c <= '9'
  }

  predicate IsDigits(s: string) {
    forall i :: 0 <= i < |s| ==> IsDigit(s[i])
  }

  function DigitChar(d: nat): (c: char)
    requires d < 10
    ensures IsDigit(c) && c as int - '0' as int == d
  {
    ('0' as int + d) as char
  }

  function DigitValue(c: char): (d: nat)
    requires IsDigit(c)
    ensures d < 10 && DigitChar(d) == c
  {
    c as int - '0' as int
  }

  /** The shortest decimal representation of `n` (no leading zeros). */
  function Decimal(n: nat): (s: string)
    ensures 1 <= |s| && IsDigits(s)
    ensures s[0] == '0' ==> n == 0 && s == "0"
    decreases n
  {
    if n < 10 then [DigitChar(n)] else Decimal(n / 10) + [DigitChar(n % 10)]
  }

  /** The value of a digit string, most significant digit first. */
  function Parse(s: string): nat
    requires IsDigits(s)
  {
    if |s| == 0 then 0 else 10 * Parse(s[..|s| - 1]) + DigitValue(s[|s| - 1])
  }

  /** Reading back a printed number gives the number. */
  lemma {:induction false} ParseDecimal(n: nat)
    ensures Parse(Decimal(n)) == n
    decreases n
  {
    var s := Decimal(n);
    if n < 10 {
      assert s[..|s| - 1] == [];
    } else {
      assert s[..|s| - 1] == Decimal(n / 10);
      ParseDecimal(n / 10);
    }
  }

  /** Distinct numbers print differently. */
  lemma DecimalInjective(a: nat, b: nat)
    requires Decimal(a) == Decimal(b)
    ensures a == b
  {
    ParseDecimal(a);
    ParseDecimal(b);
  }

  /** `a` is a trailing part of `b`. */
  predicate IsSuffix(a: string, b: string) {
    |a| <= |b| && b[|b| - |a|..] == a
  }

  function Pow10(k: nat): (p: nat)
    ensures p >= 1
  {
    if k == 0 then 1 else 10 * Pow10(k - 1)
  }

  /** The last `k` decimal digits of `n`, padded with zeros to width `k`. */
  function Fixed(n: nat, k: nat): (s: string)
    ensures |s| == k && IsDigits(s)
  {
    if k == 0 then [] else Fixed(n / 10, k - 1) + [DigitChar(n % 10)]
  }

  /** A number of at least `k` digits ends in its `k` low-order digits. */
  lemma {:induction false} DecimalSuffix(n: nat, k: nat)
    requires 1 <= k && n >= Pow10(k - 1)
    ensures |Decimal(n)| >= k
    ensures Decimal(n)[|Decimal(n)| - k..] == Fixed(n, k)
    decreases k
  {
    var s := Decimal(n);
    if k == 1 {
      assert Fixed(n, 1) == [DigitChar(n % 10)];
      assert s[|s| - 1] == DigitChar(n % 10);
    } else {
      assert n >= 10 * Pow10(k - 2);
      assert n / 10 >= Pow10(k - 2);
      DecimalSuffix(n / 10, k - 1);
      var t := Decimal(n / 10);
      assert s == t + [DigitChar(n % 10)];
      assert s[|s| - k..] == t[|t| - (k - 1)..] + [DigitChar(n % 10)];
    }
  }

  /** The low-order digits repeat with period `10^k`. */
  lemma {:induction false} FixedPeriodic(n: nat, k: nat)
    ensures Fixed(n + Pow10(k), k) == Fixed(n, k)
    decreases k
  {
    if k > 0 {
      var p := Pow10(k - 1);
      assert n + Pow10(k) == 10 * (n / 10 + p) + n % 10;
      assert (n + Pow10(k)) / 10 == n / 10 + p;
      assert (n + Pow10(k)) % 10 == n % 10;
      FixedPeriodic(n / 10, k - 1);
    }
  }
}
