// Decimal text of a whole number, as Java's String.valueOf(long) prints it.
module Decimal {

  function Digit(d: nat): char
    requires d < 10
  {
    ((('0' as int) + d) as char)
  }

  function Natural(n: nat): (s: string)
    ensures s != []
    ensures forall i :: 0 <= i < |s| ==> '0' <= s[i] <= '9'
  {
    if n < 10 then [Digit(n)] else Natural(n / 10) + [Digit(n % 10)]
  }

  function Pow10(k: nat): nat { if k == 0 then 1 else 10 * Pow10(k - 1) }

  lemma Pow19()
    ensures Pow10(19) == 10_000_000_000_000_000_000
  {
    assert Pow10(6) == 1_000_000;
    assert Pow10(12) == 1_000_000_000_000;
  }

  // A number below 10^k has at most k digits.
  lemma {:induction false} Digits(n: nat, k: nat)
    requires k >= 1 && n < Pow10(k)
    ensures |Natural(n)| <= k
  {
    if n >= 10 {
      assert k > 1 by { assert Pow10(1) == 10; }
      Digits(n / 10, k - 1);
    }
  }

  function Text(n: int): (s: string)
    ensures s != []
    ensures forall i :: 0 <= i < |s| ==> s[i] == '-' || '0' <= s[i] <= '9'
  {
    if n < 0 then "-" + Natural(-n) else Natural(n)
  }

  // Long.valueOf on digits only: the number that a digit string denotes.
  function Value(s: string): int {
    if s == [] then 0 else 10 * Value(s[..|s| - 1]) + (s[|s| - 1] as int - '0' as int)
  }

  lemma {:induction false} ValueOfNatural(n: nat)
    ensures Value(Natural(n)) == n
  {
    if n >= 10 {
      ValueOfNatural(n / 10);
      assert Natural(n)[..|Natural(n)| - 1] == Natural(n / 10);
    }
  }

  // Long.valueOf on any printed number.
  function Number(s: string): int {
    if s != [] && s[0] == '-' then -Value(s[1..]) else Value(s)
  }

  lemma {:induction false} NumberOfText(n: int)
    ensures Number(Text(n)) == n
  {
    if n < 0 {
      assert Text(n)[1..] == Natural(-n);
      ValueOfNatural(-n);
    } else {
      assert Natural(n)[0] != '-';
      ValueOfNatural(n);
    }
  }

  // Two different numbers never print alike.
  lemma {:induction false} TextInjective(m: int, n: int)
    requires Text(m) == Text(n)
    ensures m == n
  {
    NumberOfText(m);
    NumberOfText(n);
  }
}
