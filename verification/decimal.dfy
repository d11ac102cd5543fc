/**
 * Decimal text of integers, as Rust's `to_string` writes it for `i8`..`i64` and `usize`:
 * the digits of the magnitude without leading zeros, preceded by `-` only for a negative value.
 * A reader of that text (`ParseInt`) is its partner: rendering and then reading gives the value back.
 */
module Decimal {
  import opened Wrappers

  predicate IsDigit(ch: char) { '0' <= ch <= '9' }

  predicate AllDigits(s: string) { forall i :: 0 <= i < |s| ==> IsDigit(s[i]) }

  function DigitChar(d: nat): (ch: char)
    requires d < 10
    ensures IsDigit(ch) && ch as int - '0' as int == d
  {
    ('0' as int + d) as char
  }

  function DigitValue(ch: char): (d: nat)
    requires IsDigit(ch)
    ensures d < 10
  {
    ch as int - '0' as int
  }

  /** The decimal digits of `n`, most significant first. */
  function NatToDecimal(n: nat): (s: string)
    ensures |s| >= 1 && AllDigits(s)
    ensures n == 0 ==> s == "0"
    ensures |s| > 1 ==> s[0] != '0'
    decreases n
  {
    if n < 10 then [DigitChar(n)] else NatToDecimal(n / 10) + [DigitChar(n % 10)]
  }

  /** `x.to_string()` for a Rust integer `x`. */
  function IntToDecimal(x: int): (s: string)
    ensures |s| >= 1 && (s[0] == '-' <==> x < 0)
    ensures x < 0 ==> |s| >= 2 && AllDigits(s[1..])
    ensures x >= 0 ==> AllDigits(s)
  {
    if x < 0 then "-" + NatToDecimal(-x) else NatToDecimal(x)
  }

  /** The value of a string of digits, read most significant first. */
  function DigitsValue(s: string): nat
    requires AllDigits(s)
  {
    if s == [] then 0 else DigitsValue(s[..|s| - 1]) * 10 + DigitValue(s[|s| - 1])
  }

  /** Reads an optional `-` and then at least one digit; anything else is not a number. */
  function ParseInt(s: string): Option<int>
  {
    if |s| >= 2 && s[0] == '-' && AllDigits(s[1..]) then Some(-(DigitsValue(s[1..]) as int))
    else if |s| >= 1 && AllDigits(s) then Some(DigitsValue(s) as int)
    else None
  }

  lemma {:induction false} NatToDecimalValue(n: nat)
    ensures DigitsValue(NatToDecimal(n)) == n
    decreases n
  {
    if n >= 10 {
      var s := NatToDecimal(n);
      assert s[..|s| - 1] == NatToDecimal(n / 10);
      NatToDecimalValue(n / 10);
    }
  }

  /** The rendered text of a natural number reads back as that number. */
  lemma NatRoundTrip(n: nat)
    ensures ParseInt(NatToDecimal(n)) == Some(n)
  {
    NatToDecimalValue(n);
  }

  /** The rendering of a negative integer, a minus sign and then its magnitude, reads back as it. */
  lemma NegativeRoundTrip(m: nat)
    requires m > 0
    ensures ParseInt("-" + NatToDecimal(m)) == Some(-(m as int))
  {
    var d := NatToDecimal(m);
    var s := "-" + d;
    assert s[1..] == d;
    NatToDecimalValue(m);
    assert |s| >= 2 && s[0] == '-' && AllDigits(s[1..]);
  }

  /**
   * The rendered text of any integer reads back as that integer, and its first character
   * is a minus sign exactly when the integer is negative.
   */
  lemma IntRoundTrip(x: int)
    ensures ParseInt(IntToDecimal(x)) == Some(x)
    ensures |IntToDecimal(x)| >= 1 && (IntToDecimal(x)[0] == '-' <==> x < 0)
  {
    if x < 0 {
      NegativeRoundTrip(-x);
    } else {
      assert IsDigit(NatToDecimal(x)[0]);
      NatRoundTrip(x);
    }
  }

  /** Distinct integers have distinct renderings. */
  lemma IntToDecimalInjective(x: int, y: int)
    ensures IntToDecimal(x) == IntToDecimal(y) <==> x == y
  {
    IntRoundTrip(x);
    IntRoundTrip(y);
  }
}
