/**
 * Java's rendering of a `long` inside a string concatenation
 * (`name + time`): base-10 digits, no leading zeros, a leading '-'
 * for negative values. Integers are unbounded here; every `long`
 * is rendered by the same rule.
 */
module Decimal {

  predicate IsDigit(c: char) {
    '0' <= c <= '9'
  }

  predicate AllDigits(s: string) {
    forall i :: 0 <= i < |s| ==> IsDigit(s[i])
  }

  function DigitChar(d: nat): (c: char)
    requires d < 10
    ensures IsDigit(c)
  {
    ['0', '1', '2', '3', '4', '5', '6', '7', '8', '9'][d]
  }

  function DigitValue(c: char): (d: nat)
    requires IsDigit(c)
    ensures d < 10
  {
    (c as int - '0' as int) as nat
  }

  lemma DigitRoundTrip(d: nat)
    requires d < 10
    ensures DigitValue(DigitChar(d)) == d
  {
  }

  /** The decimal digits of `n`, most significant first. */
  function NatDigits(n: nat): (s: string)
    ensures |s| >= 1 && AllDigits(s)
    ensures s[0] == '0' ==> n == 0
    decreases n
  {
    if n < 10 then [DigitChar(n)] else NatDigits(n / 10) + [DigitChar(n % 10)]
  }

  /** The value of a string of decimal digits. */
  function ParseNat(s: string): nat
    requires AllDigits(s)
  {
    if s == [] then 0 else ParseNat(s[..|s| - 1]) * 10 + DigitValue(s[|s| - 1])
  }

  /** `Long.toString(v)`, the text Java appends for a `long`. */
  function LongString(v: int): (s: string)
    ensures |s| >= 1
    ensures s[0] == '-' <==> v < 0
    ensures v >= 0 ==> AllDigits(s)
    ensures v < 0 ==> AllDigits(s[1..]) && |s| >= 2
    ensures v < 0 ==> s[1] != '0'
    ensures v >= 0 && s[0] == '0' ==> v == 0
  {
    if v < 0 then "-" + NatDigits(-v) else NatDigits(v)
  }

  /** Reads back the text that `LongString` produces. */
  function ParseLong(s: string): int
    requires |s| >= 1
    requires if s[0] == '-' then AllDigits(s[1..]) else AllDigits(s)
  {
    if s[0] == '-' then -(ParseNat(s[1..]) as int) else ParseNat(s)
  }

  lemma {:induction false} NatDigitsRoundTrip(n: nat)
    ensures ParseNat(NatDigits(n)) == n
    decreases n
  {
    if n < 10 {
      DigitRoundTrip(n);
    } else {
      var s := NatDigits(n);
      NatDigitsRoundTrip(n / 10);
      assert s[..|s| - 1] == NatDigits(n / 10);
      DigitRoundTrip(n % 10);
    }
  }

  /** The time printed for a boat can always be read back exactly. */
  lemma LongStringRoundTrip(v: int)
    ensures ParseLong(LongString(v)) == v
  {
    if v < 0 {
      var digits := NatDigits(-v);
      assert LongString(v) == "-" + digits;
      assert ("-" + digits)[1..] == digits;
      NatDigitsRoundTrip(-v);
    } else {
      NatDigitsRoundTrip(v);
    }
  }
}
