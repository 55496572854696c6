/**
 * Decimal rendering of integers, as java.lang.Integer.toString does it,
 * with the reading back of a digit string to prove that nothing is lost.
 */
module Decimal {

  /** The character of one decimal digit. */
  function Digit(d: nat): (c: char)
    requires d < 10
    ensures '0' <= c <= '9'
    ensures (c as int) - ('0' as int) == d
  {
    (('0' as int) + d) as char
  }

  predicate IsDigits(s: string) {
    forall i :: 0 <= i < |s| ==> '0' <= s[i] <= '9'
  }

  /** Decimal digits of n, most significant first, with no leading zero ("0" for zero). */
  function NatDigits(n: nat): (s: string)
    ensures |s| >= 1 && IsDigits(s)
    ensures n > 0 ==> s[0] != '0'
    decreases n
  {
    if n < 10 then [Digit(n)] else NatDigits(n / 10) + [Digit(n % 10)]
  }

  /** Integer.toString(n): a minus sign for negative numbers, then the digits of |n|. */
  function IntToString(n: int): (s: string)
    ensures |s| >= 1
    ensures s[0] == '-' <==> n < 0
    ensures n >= 0 ==> IsDigits(s)
  {
    if n < 0 then "-" + NatDigits(-n) else NatDigits(n)
  }

  /** The number a digit string denotes. */
  function Value(s: string): nat
    requires IsDigits(s)
  {
    if s == [] then 0 else Value(s[..|s| - 1]) * 10 + ((s[|s| - 1] as int) - ('0' as int))
  }

  /** Reading the digits of n back gives n. */
  lemma {:induction false} ValueOfNatDigits(n: nat)
    ensures Value(NatDigits(n)) == n
    decreases n
  {
    var s := NatDigits(n);
    if n >= 10 {
      ValueOfNatDigits(n / 10);
      assert s[..|s| - 1] == NatDigits(n / 10);
    } else {
      assert s[..|s| - 1] == [];
    }
  }

  /** Integer.toString of a non-negative number reads back as that number. */
  lemma IntToStringRoundTrip(n: int)
    requires n >= 0
    ensures IsDigits(IntToString(n)) && Value(IntToString(n)) == n
  {
    ValueOfNatDigits(n);
  }
}
