/** The decimal text JavaScript produces for an integer-valued number
    (what the template literal `${id}` yields), and the fact that it is
    injective: two different ids never print the same. */
module NumberText {

  predicate IsDigit(c: char)
  {
    '0' <= c <= '9'
  }

  predicate AllDigits(s: string)
  {
    forall i :: 0 <= i < |s| ==> IsDigit(s[i])
  }

  function DigitChar(d: nat): (c: char)
    requires d < 10
    ensures IsDigit(c) && DigitValue(c) == d
  {
    "0123456789"[d]
  }

  function DigitValue(c: char): nat
    requires IsDigit(c)
  {
    c as nat - '0' as nat
  }

  /** Decimal digits of `n`, most significant first, without leading zeros. */
  function NatToDecimal(n: nat): (s: string)
    ensures |s| >= 1 && AllDigits(s)
    ensures n >= 10 ==> s[0] != '0'
    decreases n
  {
    if n < 10 then [DigitChar(n)] else NatToDecimal(n / 10) + [DigitChar(n % 10)]
  }

  /** The number a string of decimal digits denotes. */
  function DecimalValue(s: string): nat
    requires AllDigits(s)
    decreases |s|
  {
    if s == [] then 0 else DecimalValue(s[..|s| - 1]) * 10 + DigitValue(s[|s| - 1])
  }

  lemma {:induction false} DecimalRoundTrip(n: nat)
    ensures DecimalValue(NatToDecimal(n)) == n
    decreases n
  {
    if n >= 10 {
      var s := NatToDecimal(n);
      DecimalRoundTrip(n / 10);
      assert s[..|s| - 1] == NatToDecimal(n / 10);
    }
  }

  lemma NatToDecimalInjective(a: nat, b: nat)
    requires NatToDecimal(a) == NatToDecimal(b)
    ensures a == b
  {
    DecimalRoundTrip(a);
    DecimalRoundTrip(b);
  }

  /** `${n}` for an integer number: a minus sign before the magnitude when negative. */
  function NumberToString(n: int): (s: string)
    ensures |s| >= 1 && (s[0] == '-' <==> n < 0)
  {
    if n < 0 then "-" + NatToDecimal(-n) else NatToDecimal(n)
  }

  /** Different integers print differently, so the printed id identifies the id. */
  lemma NumberToStringInjective(m: int, n: int)
    ensures NumberToString(m) == NumberToString(n) <==> m == n
  {
    var sm, sn := NumberToString(m), NumberToString(n);
    if sm == sn && m < 0 {
      assert n < 0 by { assert sn[0] == '-'; }
      assert sm[1..] == NatToDecimal(-m);
      assert sn[1..] == NatToDecimal(-n);
      NatToDecimalInjective(-m, -n);
    } else if sm == sn {
      assert n >= 0 by { assert sn[0] != '-'; }
      assert sm == NatToDecimal(m) && sn == NatToDecimal(n);
      NatToDecimalInjective(m, n);
    }
  }
}
