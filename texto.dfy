/** Decimal digits in strings: rendering and reading natural numbers. */
module Texto {

  predicate EhDigito(c: char)
  {
    '0' <= c <= '9'
  }

  ghost predicate SoDigitos(s: string)
  {
    forall i :: 0 <= i < |s| ==> EhDigito(s[i])
  }

  /** The decimal digit `d` as a character. */
  function Digito(d: nat): (c: char)
    requires d < 10
    ensures EhDigito(c)
  {
    ('0' as int + d) as char
  }

  function ValorDigito(c: char): int
  {
    c as int - '0' as int
  }

  /** `n` in decimal, without leading zeros (as `str(n)` writes it). */
  function Decimal(n: nat): (s: string)
    ensures |s| >= 1 && SoDigitos(s)
  {
    if n < 10 then [Digito(n)] else Decimal(n / 10) + [Digito(n % 10)]
  }

  /** The value of a string of decimal digits. */
  function LerDecimal(s: string): nat
    requires SoDigitos(s)
  {
    if s == [] then 0 else 10 * LerDecimal(s[..|s| - 1]) + ValorDigito(s[|s| - 1])
  }

  /** Reading back what `Decimal` writes gives the number. */
  lemma {:induction false} LerDecimalDeDecimal(n: nat)
    ensures LerDecimal(Decimal(n)) == n
  {
    var s := Decimal(n);
    if n >= 10 {
      LerDecimalDeDecimal(n / 10);
      assert s[..|s| - 1] == Decimal(n / 10);
    }
  }

  /** The longest run of digits at the end of `s`. */
  function SufixoDigitos(s: string): (d: string)
    ensures |d| <= |s| && d == s[|s| - |d|..] && SoDigitos(d)
  {
    if s == [] || !EhDigito(s[|s| - 1]) then []
    else SufixoDigitos(s[..|s| - 1]) + [s[|s| - 1]]
  }

  /** Digits that follow a non-digit are exactly the trailing run. */
  lemma {:induction false} SufixoDigitosDe(p: string, d: string)
    requires SoDigitos(d)
    requires p != [] && !EhDigito(p[|p| - 1])
    ensures SufixoDigitos(p + d) == d
  {
    if d == [] {
      assert p + d == p;
    } else {
      var s := p + d;
      assert s[..|s| - 1] == p + d[..|d| - 1];
      SufixoDigitosDe(p, d[..|d| - 1]);
    }
  }
}
