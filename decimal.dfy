/**
 * Decimal digit strings: the text JavaScript produces for a non-negative
 * integer in a template literal, and the value `parseInt` reads back from a
 * string of ASCII digits.
 */
module Decimal {

  /** The regular-expression class `[0-9]` (and the complement of `\D`). */
  predicate IsDigit(c: char) {
    '0' <= c <= '9'
  }

  ghost predicate AllDigits(s: string) {
    forall i :: 0 <= i < |s| ==> IsDigit(s[i])
  }

  function DigitValue(c: char): nat
    requires IsDigit(c)
  {
    c as int - '0' as int
  }

  function DigitChar(d: nat): char
    requires d < 10
  {
    ('0' as int + d) as char
  }

  /** `${n}` for a non-negative integer: at least one digit, and no leading zero. */
  function NatToString(n: nat): (r: string)
    ensures r != [] && AllDigits(r)
    ensures |r| > 1 ==> r[0] != '0'
    decreases n
  {
    if n < 10 then [DigitChar(n)] else NatToString(n / 10) + [DigitChar(n % 10)]
  }

  /** The value of a digit string, most significant digit first. */
  function ParseDigits(s: string): nat
    requires AllDigits(s)
    decreases |s|
  {
    if s == [] then 0 else ParseDigits(s[..|s| - 1]) * 10 + DigitValue(s[|s| - 1])
  }

  /** Reading back the text of a number gives the number. */
  lemma {:induction false} ParseNatToString(n: nat)
    ensures ParseDigits(NatToString(n)) == n
    decreases n
  {
    var r := NatToString(n);
    if n < 10 {
      assert r[..|r| - 1] == [];
    } else {
      ParseNatToString(n / 10);
      assert r[..|r| - 1] == NatToString(n / 10);
    }
  }

  ghost predicate AllZeros(z: string) {
    forall i :: 0 <= i < |z| ==> z[i] == '0'
  }

  /**
   * Every non-empty digit string is some zeros followed by the text of its
   * value: `parseInt` reads "007" as 7 and "000" as 0.
   */
  lemma {:induction false} ZeroPadded(s: string)
    requires s != [] && AllDigits(s)
    ensures exists z :: AllZeros(z) && s == z + NatToString(ParseDigits(s))
    decreases |s|
  {
    var t, c := s[..|s| - 1], s[|s| - 1];
    assert s == t + [c];
    if t == [] {
      assert DigitChar(DigitValue(c)) == c;
      assert AllZeros([]) && s == [] + NatToString(ParseDigits(s));
    } else {
      var u, d := ParseDigits(t), DigitValue(c);
      assert ParseDigits(s) == u * 10 + d;
      ZeroPadded(t);
      var z :| AllZeros(z) && t == z + NatToString(u);
      ZeroPaddedStep(z, u, c);
      var w :| AllZeros(w) && z + NatToString(u) + [c] == w + NatToString(u * 10 + d);
      assert s == w + NatToString(ParseDigits(s));
    }
  }

  /** Appending a digit to a padded number gives a padded text of ten times it plus the digit. */
  lemma ZeroPaddedStep(z: string, u: nat, c: char)
    requires AllZeros(z) && IsDigit(c)
    ensures exists w :: AllZeros(w) && z + NatToString(u) + [c] == w + NatToString(u * 10 + DigitValue(c))
  {
    var d := DigitValue(c);
    assert DigitChar(d) == c;
    if u == 0 {
      var w := z + "0";
      assert AllZeros(w);
      assert z + NatToString(u) + [c] == w + NatToString(d);
    } else {
      var v := u * 10 + d;
      assert v / 10 == u && v % 10 == d;
      assert z + NatToString(u) + [c] == z + NatToString(v);
    }
  }

  /** The zero padding can be told apart from the number: a padded text has one value. */
  lemma ZeroPaddedUnique(y: string, z: string, m: nat, n: nat)
    requires AllZeros(y) && AllZeros(z) && y + NatToString(m) == z + NatToString(n)
    ensures |y| == |z| && m == n
  {
    var a, b := NatToString(m), NatToString(n);
    assert |y| == |z| by {
      assert (y + a)[|y|] == a[0] && (z + b)[|z|] == b[0];
    }
    assert a == (y + a)[|y|..] && b == (z + b)[|z|..];
    NatToStringInjective(m, n);
  }

  /** Distinct numbers have distinct texts. */
  lemma NatToStringInjective(m: nat, n: nat)
    requires NatToString(m) == NatToString(n)
    ensures m == n
  {
    ParseNatToString(m);
    ParseNatToString(n);
  }
}
