/** Decimal numerals: `str(n)` and `int(s)` on ASCII digits. */
module Decimal {

  predicate IsDigit(c: char) {
    '0' <= c <= '9'
  }

  predicate AllDigits(s: string) {
    forall i :: 0 <= i < |s| ==> IsDigit(s[i])
  }

  /** A numeral as `0|[1-9][0-9]*`. */
  predicate IsNumeral(s: string) {
    s != [] && AllDigits(s) && (|s| > 1 ==> s[0] != '0')
  }

  function DigitOf(d: nat): (c: char)
    requires d < 10
    ensures IsDigit(c) && ValueOf(c) == d
  {
    '0' + d as char
  }

  function ValueOf(c: char): (d: nat)
    requires IsDigit(c)
    ensures d < 10
  {
    (c - '0') as int
  }

  function Show(n: nat): (s: string)
    ensures IsNumeral(s)
    ensures n > 0 ==> s[0] != '0'
  {
    if n < 10 then [DigitOf(n)] else Show(n / 10) + [DigitOf(n % 10)]
  }

  function Read(s: string): nat
    requires AllDigits(s)
  {
    if s == [] then 0 else 10 * Read(s[..|s| - 1]) + ValueOf(s[|s| - 1])
  }

  lemma {:induction false} ReadShow(n: nat)
    ensures Read(Show(n)) == n
  {
    if n < 10 {
      assert Show(n)[..0] == [];
    } else {
      ReadShow(n / 10);
      assert Show(n)[..|Show(n)| - 1] == Show(n / 10);
    }
  }

  lemma {:induction false} ReadGrows(s: string)
    requires AllDigits(s) && s != [] && s[0] != '0'
    ensures Read(s) > 0
  {
    if |s| > 1 {
      ReadGrows(s[..|s| - 1]);
    }
  }

  lemma {:induction false} ShowRead(s: string)
    requires IsNumeral(s)
    ensures Show(Read(s)) == s
  {
    if |s| == 1 {
      assert Read(s[..0]) == 0;
      assert DigitOf(ValueOf(s[0])) == s[0];
    } else {
      var front := s[..|s| - 1];
      ReadGrows(front);
      ShowRead(front);
      assert DigitOf(ValueOf(s[|s| - 1])) == s[|s| - 1];
      assert s == front + [s[|s| - 1]];
    }
  }

  lemma ShowInjective(m: nat, n: nat)
    requires Show(m) == Show(n)
    ensures m == n
  {
    ReadShow(m);
    ReadShow(n);
  }
}
