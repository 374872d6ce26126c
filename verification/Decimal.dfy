/** Decimal notation of natural numbers: `String(n)` and `padStart(2, '0')`. */
module Decimal {
  function DigitChar(d: nat): char
    requires d < 10
  {
    '0' + d as char
  }

  predicate IsDigit(c: char) {
    '0' <= c <= '9'
  }

  function Digits(n: nat): (s: string)
    ensures s != "" && forall i | 0 <= i < |s| :: IsDigit(s[i])
  {
    if n < 10 then [DigitChar(n)] else Digits(n / 10) + [DigitChar(n % 10)]
  }

  function Pad2(n: nat): string {
    if n < 10 then "0" + Digits(n) else Digits(n)
  }

  /** The number a digit string denotes. */
  function Value(s: string): nat
    requires forall i | 0 <= i < |s| :: IsDigit(s[i])
  {
    if s == "" then 0
    else
      assert IsDigit(s[|s| - 1]);
      10 * Value(s[..|s| - 1]) + (s[|s| - 1] as int - '0' as int)
  }

  lemma {:induction false} ValueOfDigits(n: nat)
    ensures Value(Digits(n)) == n
  {
    var s := Digits(n);
    if n >= 10 {
      ValueOfDigits(n / 10);
      assert s[..|s| - 1] == Digits(n / 10);
    } else {
      assert s[..0] == "";
    }
  }

  lemma DigitsInjective(m: nat, n: nat)
    ensures Digits(m) == Digits(n) <==> m == n
  {
    ValueOfDigits(m);
    ValueOfDigits(n);
  }

  lemma ValueOfPad2(n: nat)
    requires n < 100
    ensures |Pad2(n)| == 2 && (forall i | 0 <= i < 2 :: IsDigit(Pad2(n)[i])) && Value(Pad2(n)) == n
  {
    ValueOfDigits(n);
    if n < 10 {
      assert Pad2(n)[..1] == "0";
      assert "0"[..0] == "";
    } else {
      assert Digits(n / 10) == [DigitChar(n / 10)];
    }
  }

  lemma Pad2Injective(m: nat, n: nat)
    requires m < 100 && n < 100
    ensures Pad2(m) == Pad2(n) <==> m == n
  {
    ValueOfPad2(m);
    ValueOfPad2(n);
  }

  lemma FourDigits(n: nat)
    requires 1000 <= n <= 9999
    ensures |Digits(n)| == 4
  {
    assert |Digits(n / 1000)| == 1;
    assert |Digits(n / 100)| == 2 by { assert n / 100 / 10 == n / 1000; }
    assert |Digits(n / 10)| == 3 by { assert n / 10 / 10 == n / 100; }
  }
}
