/**
 * Decimal renderings of integers, as produced by Go's `strconv.FormatUint(n, 10)`
 * and JavaScript's `Number.prototype.toString()` on integers, and their parsing
 * back by JavaScript's `parseInt(s, 10)`.
 */
module Decimal {

  predicate IsDigit(c: char) {
    '0' <= c <= '9'
  }

  /** The regular expression `^\d*$`: ASCII digits only, the empty string included. */
  predicate AllDigits(s: string) {
    forall i :: 0 <= i < |s| ==> IsDigit(s[i])
  }

  function DigitChar(d: nat): (c: char)
    requires d < 10
    ensures IsDigit(c)
  {
    ('0' as int + d) as char
  }

  function DigitValue(c: char): (d: nat)
    requires IsDigit(c)
    ensures d < 10 && DigitChar(d) == c
  {
    c as int - '0' as int
  }

  /** The number a digit string denotes, read most significant digit first. */
  function Value(s: string): nat
    requires AllDigits(s)
  {
    if s == [] then 0 else Value(s[..|s| - 1]) * 10 + DigitValue(s[|s| - 1])
  }

  /** The shortest decimal rendering of `n`. */
  function Show(n: nat): (s: string)
    ensures AllDigits(s) && |s| >= 1
    ensures s[0] == '0' ==> n == 0
  {
    if n < 10 then [DigitChar(n)] else Show(n / 10) + [DigitChar(n % 10)]
  }

  /** Reading a rendering back gives the number rendered. */
  lemma {:induction false} ValueShow(n: nat)
    ensures Value(Show(n)) == n
  {
    var s := Show(n);
    if n < 10 {
      assert s[..0] == [];
    } else {
      ValueShow(n / 10);
      assert s[..|s| - 1] == Show(n / 10);
      assert DigitValue(s[|s| - 1]) == n % 10;
    }
  }

  /** Distinct numbers have distinct renderings. */
  lemma ShowInjective(a: nat, b: nat)
    requires Show(a) == Show(b)
    ensures a == b
  {
    ValueShow(a);
    ValueShow(b);
  }

  /** JavaScript's rendering of an integer-valued number: a minus sign before negatives. */
  function IntString(n: int): (s: string)
    ensures |s| >= 1
  {
    if n < 0 then "-" + Show(-n) else Show(n)
  }

  /** The strings `IntString` produces, together with every digit string (the empty one included). */
  predicate Numeral(s: string) {
    AllDigits(s) || (|s| >= 2 && s[0] == '-' && AllDigits(s[1..]))
  }

  /** `parseInt(s, 10)` on a non-empty numeral. */
  function ParseInt(s: string): int
    requires Numeral(s) && s != ""
  {
    if s[0] == '-' then -(Value(s[1..]) as int) else Value(s)
  }

  /** Rendering an integer and parsing it back is the identity. */
  lemma ParseIntString(n: int)
    ensures Numeral(IntString(n)) && ParseInt(IntString(n)) == n
  {
    var s := IntString(n);
    if n < 0 {
      assert s[1..] == Show(-n);
      ValueShow(-n);
    } else {
      ValueShow(n);
    }
  }
}
