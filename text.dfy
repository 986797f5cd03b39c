/**
 * Decimal rendering of integers, as Java's string concatenation performs it
 * (`"..." + n` calls `Integer.toString(n)`): an optional minus sign followed by
 * the decimal digits, most significant first, with no leading zeros.
 */
module Text {

  predicate IsDigit(c: char) {
    '0' <= c <= '9'
  }

  predicate AllDigits(s: string) {
    forall i :: 0 <= i < |s| ==> IsDigit(s[i])
  }

  function DigitChar(d: nat): (c: char)
    requires d < 10
    ensures IsDigit(c)
  {
    ('0' as int + d) as char
  }

  function DigitValue(c: char): (d: nat)
    requires IsDigit(c)
    ensures d < 10 && DigitChar(d) == c
  {
    c as int - '0' as int
  }

  /** The decimal digits of `n`; only zero itself starts with the digit zero. */
  function NatToString(n: nat): (s: string)
    ensures |s| >= 1 && AllDigits(s)
    ensures s[0] == '0' <==> n == 0
  {
    if n < 10 then [DigitChar(n)] else NatToString(n / 10) + [DigitChar(n % 10)]
  }

  /** The value a string of decimal digits denotes; the reading partner of NatToString. */
  function DecimalValue(s: string): nat
    requires AllDigits(s)
  {
    if s == [] then 0 else DecimalValue(s[..|s| - 1]) * 10 + DigitValue(s[|s| - 1])
  }

  lemma {:induction false} DecimalRoundTrip(n: nat)
    ensures DecimalValue(NatToString(n)) == n
  {
    if n >= 10 {
      var s := NatToString(n);
      assert s[..|s| - 1] == NatToString(n / 10);
      DecimalRoundTrip(n / 10);
    }
  }

  /** `Integer.toString(i)`: a minus sign for negative values, then the digits of |i|. */
  function IntToString(i: int): (s: string)
    ensures |s| >= 1
    ensures s[0] == '-' <==> i < 0
    ensures AllDigits(s[if i < 0 then 1 else 0..])
  {
    if i < 0 then "-" + NatToString(-i) else NatToString(i)
  }

  /** Reads back a string produced by IntToString. */
  function IntValue(s: string): int
    requires |s| >= 1
    requires AllDigits(s[if s[0] == '-' then 1 else 0..])
  {
    if s[0] == '-' then -(DecimalValue(s[1..]) as int) else DecimalValue(s)
  }

  lemma IntRoundTrip(i: int)
    ensures IntValue(IntToString(i)) == i
  {
    if i < 0 {
      assert IntToString(i)[1..] == NatToString(-i);
      DecimalRoundTrip(-i);
    } else {
      DecimalRoundTrip(i);
    }
  }

  /** Distinct integers are rendered as distinct strings. */
  lemma IntToStringInjective(i: int, j: int)
    requires IntToString(i) == IntToString(j)
    ensures i == j
  {
    IntRoundTrip(i);
    IntRoundTrip(j);
  }

  /**
   * An integer's text followed by something that does not start with a digit
   * can be split back unambiguously: the integer and the rest are both determined.
   */
  lemma IntTextThenNonDigit(i: int, j: int, s: string, t: string)
    requires |s| > 0 && |t| > 0 && !IsDigit(s[0]) && !IsDigit(t[0])
    requires IntToString(i) + s == IntToString(j) + t
    ensures i == j && s == t
  {
    var a, b := IntToString(i), IntToString(j);
    if |a| < |b| {
      DigitAfterSign(j, |a|);
    } else if |b| < |a| {
      DigitAfterSign(i, |b|);
    }
    assert a == (a + s)[..|a|];
    assert b == (b + t)[..|b|];
    assert s == (a + s)[|a|..];
    assert t == (b + t)[|b|..];
    IntToStringInjective(i, j);
  }

  /** Every character of an integer's text after the first is a digit. */
  lemma DigitAfterSign(i: int, k: nat)
    requires 1 <= k < |IntToString(i)|
    ensures IsDigit(IntToString(i)[k])
  {
    var s := IntToString(i);
    var start := if i < 0 then 1 else 0;
    assert s[k] == s[start..][k - start];
  }

  /** Stripping a known prefix from both sides of an equation. */
  lemma CancelPrefix(p: string, u: string, v: string)
    requires p + u == p + v
    ensures u == v
  {
    assert u == (p + u)[|p|..];
    assert v == (p + v)[|p|..];
  }

  /** A fixed prefix, an integer's text and a rest that starts with a non-digit split back uniquely. */
  lemma LabelledIntSplits(prefix: string, i: int, j: int, s: string, t: string)
    requires |s| > 0 && |t| > 0 && !IsDigit(s[0]) && !IsDigit(t[0])
    requires prefix + IntToString(i) + s == prefix + IntToString(j) + t
    ensures i == j && s == t
  {
    assert prefix + IntToString(i) + s == prefix + (IntToString(i) + s);
    assert prefix + IntToString(j) + t == prefix + (IntToString(j) + t);
    CancelPrefix(prefix, IntToString(i) + s, IntToString(j) + t);
    IntTextThenNonDigit(i, j, s, t);
  }
}
