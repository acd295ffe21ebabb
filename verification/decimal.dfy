/**
 * Decimal text of integers, as JavaScript's `Number.prototype.toString()`
 * produces it for integral values below 10^21: an optional minus sign followed by
 * the digits without leading zeros. The weather classifiers inspect this text,
 * so the model needs both the printer and a parser that undoes it.
 */
module Decimal {

  predicate IsDigit(c: char) {
    '0' <= c <= '9'
  }

  predicate AllDigits(s: string) {
    forall i :: 0 <= i < |s| ==> IsDigit(s[i])
  }

  function DigitChar(d: int): (c: char)
    requires 0 <= d <= 9
    ensures IsDigit(c)
    ensures DigitValue(c) == d
  {
    ('0' as int + d) as char
  }

  function DigitValue(c: char): (d: int)
    requires IsDigit(c)
    ensures 0 <= d <= 9
  {
    c as int - '0' as int
  }

  /** Digits of a natural number, most significant first. */
  function Natural(n: nat): (s: string)
    ensures |s| >= 1
    ensures AllDigits(s)
    ensures s[0] == '0' ==> n == 0
    decreases n
  {
    if n < 10 then [DigitChar(n)] else Natural(n / 10) + [DigitChar(n % 10)]
  }

  /** `n.toString()` for an integral `n`. */
  function ToDecimal(n: int): (s: string)
    ensures |s| >= 1
    ensures n < 0 <==> s[0] == '-'
    ensures n >= 0 ==> AllDigits(s)
  {
    if n < 0 then "-" + Natural(-n) else Natural(n)
  }

  /** Value of a string of decimal digits (the empty string reads as 0). */
  function Parse(s: string): nat
    requires AllDigits(s)
  {
    if |s| == 0 then 0 else Parse(s[..|s| - 1]) * 10 + DigitValue(s[|s| - 1])
  }

  /** The most significant decimal digit of `n`. */
  function LeadingDigit(n: nat): (d: nat)
    ensures d <= 9
    ensures n > 0 ==> d > 0
  {
    if n < 10 then n else LeadingDigit(n / 10)
  }

  /** Parsing the printed digits of `n` gives `n` back. */
  lemma {:induction false} ParseNatural(n: nat)
    ensures Parse(Natural(n)) == n
    decreases n
  {
    var s := Natural(n);
    if n >= 10 {
      assert s[..|s| - 1] == Natural(n / 10);
      ParseNatural(n / 10);
      assert DigitValue(s[|s| - 1]) == n % 10;
    }
  }

  /** Distinct integers print differently, so comparing the printed text compares the numbers. */
  lemma ToDecimalInjective(a: int, b: int)
    ensures ToDecimal(a) == ToDecimal(b) <==> a == b
  {
    if ToDecimal(a) == ToDecimal(b) {
      if a < 0 {
        assert Natural(-a) == ToDecimal(a)[1..] == ToDecimal(b)[1..] == Natural(-b);
        ParseNatural(-a);
        ParseNatural(-b);
      } else {
        ParseNatural(a);
        ParseNatural(b);
      }
    }
  }

  /** The first printed character of a natural number is its leading digit. */
  lemma {:induction false} FirstCharIsLeadingDigit(n: nat)
    ensures Natural(n)[0] == DigitChar(LeadingDigit(n))
    decreases n
  {
    if n >= 10 {
      FirstCharIsLeadingDigit(n / 10);
    }
  }

  /** For a three-digit number the leading digit is its hundreds digit. */
  lemma LeadingDigitOfThreeDigits(n: nat)
    requires 100 <= n <= 999
    ensures LeadingDigit(n) == n / 100
  {
    assert LeadingDigit(n) == LeadingDigit(n / 10);
    assert LeadingDigit(n / 10) == LeadingDigit(n / 10 / 10);
  }
}
