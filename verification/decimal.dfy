/**
 * Decimal text of integers, as JavaScript's template literal `${n}` writes a
 * whole number, and the reading that recovers the number from that text.
 */
module Decimal {
  import opened Wrappers

  predicate IsDigit(c: char) {
    '0' <= c <= '9'
  }

  predicate AllDigits(s: string) {
    forall k :: 0 <= k < |s| ==> IsDigit(s[k])
  }

  function DigitChar(d: nat): (c: char)
    requires d < 10
    ensures IsDigit(c)
  {
    (48 + d) as char
  }

  function DigitValue(c: char): (d: nat)
    requires IsDigit(c)
    ensures d < 10
  {
    (c as int - 48) as nat
  }

  /** The shortest decimal text of `n`, most significant digit first. */
  function NatText(n: nat): string
    decreases n
  {
    if n < 10 then [DigitChar(n)] else NatText(n / 10) + [DigitChar(n % 10)]
  }

  /** `${n}` for a whole number: a minus sign before the digits of |n| when n is negative. */
  function IntText(n: int): string {
    if n < 0 then "-" + NatText(-n) else NatText(n)
  }

  /** The value of a run of decimal digits (the empty run reads as 0). */
  function ParseNat(s: string): nat
    requires AllDigits(s)
  {
    if s == [] then 0 else 10 * ParseNat(s[..|s| - 1]) + DigitValue(s[|s| - 1])
  }

  /** Reads an optionally negative decimal integer; anything else is None. */
  function ParseInt(s: string): (r: Option<int>)
    ensures r.Some? ==> s != []
  {
    if |s| > 1 && s[0] == '-' && AllDigits(s[1..]) then Some(0 - ParseNat(s[1..]) as int)
    else if s != [] && AllDigits(s) then Some(ParseNat(s))
    else None
  }

  lemma {:induction false} NatTextRoundTrip(n: nat)
    ensures NatText(n) != [] && AllDigits(NatText(n))
    ensures n == 0 || NatText(n)[0] != '0'
    ensures ParseNat(NatText(n)) == n
    decreases n
  {
    if n >= 10 {
      NatTextRoundTrip(n / 10);
      var s := NatText(n);
      assert s[..|s| - 1] == NatText(n / 10);
      assert DigitValue(s[|s| - 1]) == n % 10;
    }
  }

  /**
   * Reading back the text of any integer gives that integer; the text is the
   * shortest one, with a minus sign only for negative numbers and no leading zero.
   */
  lemma IntTextRoundTrip(n: int)
    ensures IntText(n) != []
    ensures forall k :: 0 <= k < |IntText(n)| ==> IsDigit(IntText(n)[k]) || IntText(n)[k] == '-'
    ensures n < 0 <==> IntText(n)[0] == '-'
    ensures var digits := if n < 0 then IntText(n)[1..] else IntText(n);
      digits != [] && AllDigits(digits) && (n == 0 || digits[0] != '0')
    ensures ParseInt(IntText(n)) == Some(n)
  {
    if n < 0 {
      NatTextRoundTrip(-n);
      assert IntText(n)[1..] == NatText(-n);
    } else {
      NatTextRoundTrip(n);
    }
  }
}
