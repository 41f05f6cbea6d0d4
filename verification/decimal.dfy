/**
 * Decimal text as the page handles it: `BigNumber.toString()` renders a
 * count in canonical decimal, `parseInt` reads it back, and JavaScript's
 * `>` on two strings compares them character by character, which on the
 * digit texts the page compares is JavaScript's code-unit order.
 */
module DecimalText {
  import opened Wrappers

  predicate IsDigit(c: char) {
    '0' <= c <= '9'
  }

  predicate AllDigits(s: string) {
    forall i :: 0 <= i < |s| ==> IsDigit(s[i])
  }

  function DigitChar(d: nat): (c: char)
    requires d < 10
    ensures IsDigit(c)
  {
    ('0' as int + d) as char
  }

  function DigitValue(c: char): (d: nat)
    requires IsDigit(c)
    ensures d < 10
  {
    c as int - '0' as int
  }

  /** Canonical decimal: digits only, and no leading zero unless the number is zero. */
  predicate IsCanonical(s: string) {
    |s| >= 1 && AllDigits(s) && (s[0] == '0' ==> |s| == 1)
  }

  /** The text `BigNumber.toString()` produces for `n`. */
  function Decimal(n: nat): (s: string)
    ensures IsCanonical(s)
    ensures |s| == 1 <==> n < 10
    decreases n
  {
    if n < 10 then [DigitChar(n)]
    else Decimal(n / 10) + [DigitChar(n % 10)]
  }

  /** The value of a string of digits, most significant first. */
  function DigitsValue(s: string): nat
    requires AllDigits(s)
  {
    if |s| == 0 then 0
    else DigitsValue(s[..|s| - 1]) * 10 + DigitValue(s[|s| - 1])
  }

  /** The longest prefix of `s` made of digits. */
  function LeadingDigits(s: string): (t: string)
    ensures AllDigits(t)
    ensures |t| <= |s| && t == s[..|t|]
    ensures |t| < |s| ==> !IsDigit(s[|t|])
  {
    if |s| == 0 || !IsDigit(s[0]) then []
    else [s[0]] + LeadingDigits(s[1..])
  }

  /**
   * `parseInt(s)` on the strings the page feeds it: the value of the
   * leading run of decimal digits, or `None` (NaN) when `s` does not start
   * with a digit.
   */
  function ParseInt(s: string): (r: Option<nat>)
    ensures r.None? <==> |s| == 0 || !IsDigit(s[0])
  {
    var t := LeadingDigits(s);
    if |t| == 0 then None else Some(DigitsValue(t))
  }

  lemma LeadingDigitsOfDigits(s: string)
    requires AllDigits(s)
    ensures LeadingDigits(s) == s
  {
  }

  lemma {:induction false} DigitsValueOfDecimal(n: nat)
    ensures DigitsValue(Decimal(n)) == n
    decreases n
  {
    var s := Decimal(n);
    if n < 10 {
      assert s[..0] == [];
    } else {
      DigitsValueOfDecimal(n / 10);
      assert s[..|s| - 1] == Decimal(n / 10);
    }
  }

  /** `parseInt(n.toString())` gives `n` back. */
  lemma ParseDecimal(n: nat)
    ensures ParseInt(Decimal(n)) == Some(n)
  {
    LeadingDigitsOfDigits(Decimal(n));
    DigitsValueOfDecimal(n);
  }

  lemma DecimalInjective(a: nat, b: nat)
    ensures Decimal(a) == Decimal(b) <==> a == b
  {
    ParseDecimal(a);
    ParseDecimal(b);
  }

  /** Strict lexicographic order: JavaScript's `a < b` on the digit texts the page compares. */
  predicate StrLess(a: string, b: string) {
    if |a| == 0 then |b| > 0
    else if |b| == 0 then false
    else if a[0] != b[0] then a[0] < b[0]
    else StrLess(a[1..], b[1..])
  }

  /** Appending one character to two strings of the same length. */
  lemma {:induction false} StrLessSnoc(x: string, c: char, y: string, d: char)
    requires |x| == |y|
    ensures StrLess(x + [c], y + [d]) <==> StrLess(x, y) || (x == y && c < d)
  {
    if |x| > 0 {
      assert (x + [c])[1..] == x[1..] + [c];
      assert (y + [d])[1..] == y[1..] + [d];
      StrLessSnoc(x[1..], c, y[1..], d);
      if x[0] == y[0] {
        assert x == [x[0]] + x[1..] && y == [y[0]] + y[1..];
      }
    }
  }

  /**
   * On canonical decimals with the same number of digits, string order is
   * numeric order. Only a difference in digit count can make the two
   * disagree.
   */
  lemma {:induction false} StrLessAgreesOnEqualLength(a: nat, b: nat)
    requires |Decimal(a)| == |Decimal(b)|
    ensures StrLess(Decimal(a), Decimal(b)) <==> a < b
    decreases a
  {
    if a < 10 {
      assert b < 10;
      assert StrLess(Decimal(a), Decimal(b)) <==> DigitChar(a) < DigitChar(b);
    } else {
      assert b >= 10;
      StrLessAgreesOnEqualLength(a / 10, b / 10);
      StrLessSnoc(Decimal(a / 10), DigitChar(a % 10), Decimal(b / 10), DigitChar(b % 10));
      DecimalInjective(a / 10, b / 10);
    }
  }
}
