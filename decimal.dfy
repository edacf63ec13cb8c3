/**
 * Decimal rendering of unsigned integers, as C# string interpolation writes a `uint`
 * (`$"{n}"`: base ten, no sign, no leading zeros), and its inverse.
 */
module Decimal {

  predicate IsDigit(c: char) {
    '0' <= c <= '9'
  }

  predicate AllDigits(s: string) {
    forall i :: 0 <= i < |s| ==> IsDigit(s[i])
  }

  /** How `$"{n}"` writes a number: at least one digit, and no leading zero unless it is "0". */
  predicate Canonical(s: string) {
    AllDigits(s) && s != [] && (s[0] == '0' ==> |s| == 1)
  }

  function DigitChar(d: nat): (c: char)
    requires d < 10
    ensures IsDigit(c)
  {
    ('0' as int + d) as char
  }

  function DigitValue(c: char): (d: nat)
    requires IsDigit(c)
    ensures d < 10 && DigitChar(d) == c
  {
    c as int - '0' as int
  }

  /** The decimal digits of `n`: non-empty, digits only, and no leading zero. */
  function Show(n: nat): (s: string)
    ensures Canonical(s)
    ensures s[0] == '0' <==> n == 0
    decreases n
  {
    if n < 10 then [DigitChar(n)] else Show(n / 10) + [DigitChar(n % 10)]
  }

  /** The number a string of digits denotes in base ten. */
  function Value(s: string): nat
    requires AllDigits(s)
  {
    if s == [] then 0 else Value(s[..|s| - 1]) * 10 + DigitValue(s[|s| - 1])
  }

  /** Reading back what `Show` writes gives the number again. */
  lemma {:induction false} ValueShow(n: nat)
    ensures Value(Show(n)) == n
    decreases n
  {
    if n >= 10 {
      var s := Show(n);
      assert s[..|s| - 1] == Show(n / 10);
      ValueShow(n / 10);
    }
  }

  /** Digits that do not start with '0' denote a positive number. */
  lemma {:induction false} ValuePositive(s: string)
    requires AllDigits(s) && s != [] && s[0] != '0'
    ensures Value(s) > 0
    decreases |s|
  {
    if |s| > 1 {
      ValuePositive(s[..|s| - 1]);
    }
  }

  /** Writing out the number a canonical digit string denotes gives that string back. */
  lemma {:induction false} ShowValue(s: string)
    requires Canonical(s)
    ensures Show(Value(s)) == s
    decreases |s|
  {
    var init, d := s[..|s| - 1], DigitValue(s[|s| - 1]);
    if init == [] {
      assert Value(s) == d;
      assert s == [s[0]];
    } else {
      assert init[0] == s[0] != '0';
      ValuePositive(init);
      ShowValue(init);
      var n := Value(s);
      assert n == Value(init) * 10 + d;
      assert n / 10 == Value(init) && n % 10 == d;
      assert s == init + [s[|s| - 1]];
    }
  }

  /** Different numbers are written differently. */
  lemma ShowInjective(m: nat, n: nat)
    requires Show(m) == Show(n)
    ensures m == n
  {
    ValueShow(m);
    ValueShow(n);
  }

  /** Splits `s` into its longest all-digit prefix and the rest. */
  function SpanDigits(s: string): (r: (string, string))
    ensures r.0 + r.1 == s
    ensures AllDigits(r.0)
    ensures r.1 == [] || !IsDigit(r.1[0])
  {
    if s == [] || !IsDigit(s[0]) then ([], s)
    else
      var tail := SpanDigits(s[1..]);
      ([s[0]] + tail.0, tail.1)
  }

  /** A run of digits followed by a non-digit (or by nothing) is split exactly there. */
  lemma {:induction false} SpanDigitsSplit(a: string, b: string)
    requires AllDigits(a)
    requires b == [] || !IsDigit(b[0])
    ensures SpanDigits(a + b) == (a, b)
  {
    if a != [] {
      assert (a + b)[1..] == a[1..] + b;
      SpanDigitsSplit(a[1..], b);
      assert [a[0]] + a[1..] == a;
    } else {
      assert a + b == b;
    }
  }

  /** The decimal form of `n`, followed by text that does not start with a digit, is split back into the two. */
  lemma SpanShow(n: nat, rest: string)
    requires rest == [] || !IsDigit(rest[0])
    ensures SpanDigits(Show(n) + rest) == (Show(n), rest)
  {
    SpanDigitsSplit(Show(n), rest);
  }
}
