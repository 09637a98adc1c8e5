/** strconv.Itoa and strconv.Atoi on unbounded integers. */
module Decimal {
  import opened Options

  const DIGITS := "0123456789"

  predicate IsDigit(c: char) {
    '0' <= c <= '9'
  }

  function DigitValue(c: char): nat
    requires IsDigit(c)
  {
    c as int - '0' as int
  }

  predicate AllDigits(s: string) {
    forall i :: 0 <= i < |s| ==> IsDigit(s[i])
  }

  lemma DigitRoundTrip(d: nat)
    requires d < 10
    ensures IsDigit(DIGITS[d]) && DigitValue(DIGITS[d]) == d
  {
  }

  function NatToString(n: nat): (s: string)
    ensures |s| > 0 && AllDigits(s)
  {
    DigitRoundTrip(n % 10);
    if n < 10 then [DIGITS[n]] else NatToString(n / 10) + [DIGITS[n % 10]]
  }

  function Itoa(n: int): string {
    if n < 0 then "-" + NatToString(-n) else NatToString(n)
  }

  function ParseNat(s: string): nat
    requires AllDigits(s)
  {
    if s == [] then 0 else 10 * ParseNat(s[..|s| - 1]) + DigitValue(s[|s| - 1])
  }

  /** None is the error return. */
  function Atoi(s: string): Option<int> {
    var signed := s != [] && (s[0] == '-' || s[0] == '+');
    var digits := if signed then s[1..] else s;
    if digits == [] || !AllDigits(digits) then None
    else
      var n: int := ParseNat(digits);
      Some(if signed && s[0] == '-' then -n else n)
  }

  lemma {:induction false} ParseNatRoundTrip(n: nat)
    ensures ParseNat(NatToString(n)) == n
  {
    DigitRoundTrip(n % 10);
    var s := NatToString(n);
    if n < 10 {
      assert s[..0] == [];
    } else {
      ParseNatRoundTrip(n / 10);
      assert s[..|s| - 1] == NatToString(n / 10);
    }
  }

  lemma AtoiOfDigits(s: string)
    requires s != [] && AllDigits(s)
    ensures Atoi(s) == Some(ParseNat(s))
  {
    assert IsDigit(s[0]);
  }

  lemma AtoiOfNegated(s: string)
    requires s != [] && AllDigits(s)
    ensures var n: int := ParseNat(s); Atoi("-" + s) == Some(-n)
  {
    assert ("-" + s)[1..] == s;
  }

  lemma {:induction false} NatRoundTrip(n: nat)
    ensures Atoi(Itoa(n)) == Some(n)
  {
    ParseNatRoundTrip(n);
    AtoiOfDigits(NatToString(n));
  }

  lemma {:induction false} NegativeRoundTrip(n: int, m: nat)
    requires m > 0 && n + m == 0
    ensures Atoi(Itoa(n)) == Some(n)
  {
    ParseNatRoundTrip(m);
    assert Itoa(n) == "-" + NatToString(m) by { assert -n == m; }
    AtoiOfNegated(NatToString(m));
  }

  /** Atoi reads back what Itoa writes, so Itoa is injective. */
  lemma {:induction false} AtoiOfItoa(n: int)
    ensures Atoi(Itoa(n)) == Some(n)
  {
    if n < 0 {
      NegativeRoundTrip(n, -n);
    } else {
      NatRoundTrip(n);
    }
  }

  /** n divided by ten, j times over. */
  function Shifted(n: nat, j: nat): nat {
    if j == 0 then n else Shifted(n / 10, j - 1)
  }

  /** Position j from the right is the last digit of n divided by ten j times, as a character counted from '0'. */
  lemma {:induction false} DecimalDigits(n: nat, j: nat)
    requires j < |NatToString(n)|
    ensures NatToString(n)[|NatToString(n)| - 1 - j] as int == '0' as int + Shifted(n, j) % 10
  {
    DigitRoundTrip(n % 10);
    if j > 0 { DecimalDigits(n / 10, j - 1); }
  }

  /** There is no leading zero, so the decimal form is as short as it can be. */
  lemma {:induction false} NoLeadingZero(n: nat)
    requires n > 0
    ensures NatToString(n)[0] != '0'
  {
    DigitRoundTrip(n % 10);
    if n >= 10 { NoLeadingZero(n / 10); }
  }
}
