/**
 * Decimal rendering of naturals, as done by Go's strconv.Itoa on the non-negative
 * values the Clerk feeds it (nrand never yields a negative number), and its inverse.
 */
module Decimal {

  predicate IsDigit(c: char) {
    '0' <= c <= '9'
  }

  predicate AllDigits(s: string) {
    forall i :: 0 <= i < |s| ==> IsDigit(s[i])
  }

  /** A canonical decimal numeral: non-empty, only digits, no leading zero except "0" itself. */
  predicate IsDecimal(s: string) {
    |s| > 0 && AllDigits(s) && (s[0] == '0' ==> |s| == 1)
  }

  function DigitValue(c: char): (d: nat)
    requires IsDigit(c)
    ensures d < 10
  {
    c as int - '0' as int
  }

  function Digit(d: nat): (c: char)
    requires d < 10
    ensures IsDigit(c) && DigitValue(c) == d
  {
    ('0' as int + d) as char
  }

  /** strconv.Itoa restricted to naturals: most significant digit first. */
  function Itoa(n: nat): (s: string)
    ensures IsDecimal(s)
    ensures s[0] == '0' <==> n == 0
  {
    if n < 10 then [Digit(n)] else Itoa(n / 10) + [Digit(n % 10)]
  }

  /** Reads a string of digits back as a natural. */
  function Atoi(s: string): nat
    requires AllDigits(s)
  {
    if s == [] then 0 else Atoi(s[..|s| - 1]) * 10 + DigitValue(s[|s| - 1])
  }

  /** Reading back a rendering gives the number rendered. */
  lemma {:induction false} AtoiItoa(n: nat)
    ensures Atoi(Itoa(n)) == n
  {
    if n >= 10 {
      var s := Itoa(n);
      assert s[..|s| - 1] == Itoa(n / 10);
      AtoiItoa(n / 10);
    }
  }

  /** A numeral with a non-zero leading digit denotes a positive number. */
  lemma {:induction false} AtoiPositive(s: string)
    requires |s| > 0 && AllDigits(s) && s[0] != '0'
    ensures Atoi(s) > 0
  {
    if |s| > 1 {
      AtoiPositive(s[..|s| - 1]);
    }
  }

  /** Every canonical numeral is the rendering of the number it denotes. */
  lemma {:induction false} ItoaAtoi(s: string)
    requires IsDecimal(s)
    ensures Itoa(Atoi(s)) == s
  {
    if |s| > 1 {
      var p := s[..|s| - 1];
      var c := s[|s| - 1];
      assert IsDecimal(p);
      AtoiPositive(p);
      ItoaAtoi(p);
      var n := Atoi(s);
      assert n == Atoi(p) * 10 + DigitValue(c);
      assert n / 10 == Atoi(p) && n % 10 == DigitValue(c);
      assert Digit(DigitValue(c)) == c;
      assert s == p + [c];
    }
  }

  /** Distinct naturals have distinct renderings. */
  lemma ItoaInjective(m: nat, n: nat)
    requires Itoa(m) == Itoa(n)
    ensures m == n
  {
    AtoiItoa(m);
    AtoiItoa(n);
  }
}
