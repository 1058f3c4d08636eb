/** C's `atoi`, which both shells use to read the number in a `!n` history
    reference, and the decimal spelling of a number that it reads back. */
module Numerals {

  /** The characters C's `isspace` accepts in the "C" locale. */
  predicate IsSpace(c: char)
  {
    c == ' ' || c == '\t' || c == '\n' || c == '\r' || c == '\U{B}' || c == '\U{C}'
  }

  predicate IsDigit(c: char) { '0' <= c <= '9' }

  predicate AllDigits(s: string) { forall k :: 0 <= k < |s| ==> IsDigit(s[k]) }

  function DigitValue(c: char): (d: nat)
    requires IsDigit(c)
    ensures d < 10
  {
    c as int - '0' as int
  }

  function Digit(d: nat): (c: char)
    requires d < 10
    ensures IsDigit(c) && DigitValue(c) == d
  {
    ('0' as int + d) as char
  }

  /** The number a string of decimal digits denotes, most significant first. */
  function DigitsValue(ds: string): nat
    requires AllDigits(ds)
  {
    if ds == [] then 0
    else
      assert AllDigits(ds[..|ds| - 1]);
      10 * DigitsValue(ds[..|ds| - 1]) + DigitValue(ds[|ds| - 1])
  }

  /** First position at or after `i` that is not white space (or the end). */
  function SkipSpace(s: string, i: nat): (j: nat)
    requires i <= |s|
    ensures i <= j <= |s| && (j < |s| ==> !IsSpace(s[j]))
    decreases |s| - i
  {
    if i == |s| || !IsSpace(s[i]) then i else SkipSpace(s, i + 1)
  }

  /** End of the run of digits that starts at `i`. */
  function SpanDigits(s: string, i: nat): (j: nat)
    requires i <= |s|
    ensures i <= j <= |s| && AllDigits(s[i..j]) && (j < |s| ==> !IsDigit(s[j]))
    decreases |s| - i
  {
    if i == |s| || !IsDigit(s[i]) then i
    else
      var j := SpanDigits(s, i + 1);
      assert s[i..j] == [s[i]] + s[i + 1..j];
      j
  }

  /** `atoi`: skips white space, reads an optional sign and then as many
      decimal digits as follow; no digits read as 0. */
  function Atoi(s: string): int
  {
    var i := SkipSpace(s, 0);
    if i < |s| && (s[i] == '-' || s[i] == '+') then
      var v: int := DigitsValue(s[i + 1..SpanDigits(s, i + 1)]);
      if s[i] == '-' then -v else v
    else
      DigitsValue(s[i..SpanDigits(s, i)])
  }

  /** The decimal spelling of `n`, without leading zeros. */
  function Decimal(n: nat): (s: string)
    ensures s != [] && AllDigits(s)
  {
    if n < 10 then [Digit(n)] else Decimal(n / 10) + [Digit(n % 10)]
  }

  lemma {:induction false} DecimalValue(n: nat)
    ensures DigitsValue(Decimal(n)) == n
  {
    if n >= 10 {
      var s := Decimal(n);
      assert s[..|s| - 1] == Decimal(n / 10);
      DecimalValue(n / 10);
    }
  }

  /** `atoi` reads back the decimal spelling of every natural number. */
  lemma AtoiDecimal(n: nat)
    ensures Atoi(Decimal(n)) == n
  {
    var s := Decimal(n);
    assert !IsSpace(s[0]) && s[0] != '-' && s[0] != '+';
    assert SkipSpace(s, 0) == 0;
    assert SpanDigits(s, 0) == |s|;
    assert s[0..|s|] == s;
    DecimalValue(n);
  }
}
