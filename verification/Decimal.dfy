/** Decimal numerals, as sprintf's "%i" writes them and as the JSON parser reads them. */
module Decimal {

  predicate IsDigit(c: char) { '0' <= c <= '9' }

  function Digit(d: nat): (c: char)
    requires d < 10
    ensures IsDigit(c) && DigitValue(c) == d && (c == '0' <==> d == 0)
  {
    ['0', '1', '2', '3', '4', '5', '6', '7', '8', '9'][d]
  }

  function DigitValue(c: char): (d: nat)
    requires IsDigit(c)
    ensures d < 10 && (d == 0 <==> c == '0')
  {
    (c as int) - ('0' as int)
  }

  /** No leading zero, except for zero itself. */
  function Numeral(n: nat): (s: string)
    ensures |s| > 0 && forall i :: 0 <= i < |s| ==> IsDigit(s[i])
    ensures s[0] == '0' <==> n == 0
    ensures n == 0 ==> |s| == 1
  {
    if n < 10 then [Digit(n)] else Numeral(n / 10) + [Digit(n % 10)]
  }

  /** Reading digits after an accumulated value. */
  function Accumulate(acc: nat, s: string): (n: nat)
    requires forall i :: 0 <= i < |s| ==> IsDigit(s[i])
    decreases |s|
  {
    if s == [] then acc else Accumulate(acc * 10 + DigitValue(s[0]), s[1..])
  }

  lemma {:induction false} AccumulateLast(acc: nat, s: string, c: char)
    requires (forall i :: 0 <= i < |s| ==> IsDigit(s[i])) && IsDigit(c)
    ensures Accumulate(acc, s + [c]) == Accumulate(acc, s) * 10 + DigitValue(c)
    decreases |s|
  {
    if s != [] {
      assert (s + [c])[1..] == s[1..] + [c];
      AccumulateLast(acc * 10 + DigitValue(s[0]), s[1..], c);
    } else {
      assert (s + [c])[1..] == [];
      assert Accumulate(acc * 10 + DigitValue(c), []) == acc * 10 + DigitValue(c);
    }
  }

  lemma {:induction false} NumeralValue(n: nat)
    ensures Accumulate(0, Numeral(n)) == n
  {
    if n >= 10 {
      NumeralValue(n / 10);
      AccumulateLast(0, Numeral(n / 10), Digit(n % 10));
    } else {
      assert Numeral(n)[1..] == [];
      assert Accumulate(DigitValue(Digit(n)), []) == n;
    }
  }

  lemma NumeralInjective(m: nat, n: nat)
    requires Numeral(m) == Numeral(n)
    ensures m == n
  {
    NumeralValue(m);
    NumeralValue(n);
  }
}
