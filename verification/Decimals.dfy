/** Decimal rendering, as fmt's %d prints integers. */
module Decimals {

  function Digit(n: nat): char
    requires n < 10
  {
    "0123456789"[n]
  }

  function Natural(n: nat): (s: string)
    ensures |s| > 0
    ensures forall i :: 0 <= i < |s| ==> s[i] != '-'
  {
    if n < 10 then [Digit(n)] else Natural(n / 10) + [Digit(n % 10)]
  }

  function Integer(n: int): string {
    if n < 0 then "-" + Natural(-n) else Natural(n)
  }

  lemma DigitInjective(a: nat, b: nat)
    requires a < 10 && b < 10 && Digit(a) == Digit(b)
    ensures a == b
  {
  }

  lemma NaturalLength(n: nat)
    ensures |Natural(n)| == 1 <==> n < 10
  {
    if n >= 10 {
      assert |Natural(n)| == |Natural(n / 10)| + 1;
    }
  }

  lemma {:induction false} NaturalInjective(a: nat, b: nat)
    requires Natural(a) == Natural(b)
    ensures a == b
  {
    var s := Natural(a);
    NaturalLength(a);
    NaturalLength(b);
    if a < 10 {
      DigitInjective(a, b);
    } else {
      assert s[|s| - 1] == Digit(a % 10) == Digit(b % 10);
      assert s[..|s| - 1] == Natural(a / 10) == Natural(b / 10);
      NaturalInjective(a / 10, b / 10);
      DigitInjective(a % 10, b % 10);
    }
  }

  lemma SignShows(n: int)
    ensures |Integer(n)| > 0
    ensures Integer(n)[0] == '-' <==> n < 0
  {
  }

  lemma IntegerInjective(a: int, b: int)
    requires Integer(a) == Integer(b)
    ensures a == b
  {
    SignShows(a);
    SignShows(b);
    if a < 0 {
      assert Integer(a)[1..] == Natural(-a) && Integer(b)[1..] == Natural(-b);
      NaturalInjective(-a, -b);
    } else {
      NaturalInjective(a, b);
    }
  }
}
