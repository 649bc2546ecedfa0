/**
  Decimal text and integers: C's `atoi`, which the parser applies to index
  literals, and the `%ld` conversion `scanTokens` uses for error positions.
*/
module Numerals {
  import opened Lexer

  /** The value of a digit character. */
  function DigitValue(c: char): (d: nat)
    requires IsDigit(c)
    ensures d < 10
  {
    (c as int) - ('0' as int)
  }

  /** The character of a decimal digit. */
  function DigitChar(d: nat): (c: char)
    requires d < 10
    ensures IsDigit(c) && DigitValue(c) == d
  {
    ('0' as int + d) as char
  }

  /** The length of the run of digits that starts `t`. */
  function LeadingDigits(t: string): (n: nat)
    ensures n <= |t|
    ensures forall k :: 0 <= k < n ==> IsDigit(t[k])
    ensures n < |t| ==> !IsDigit(t[n])
  {
    if |t| == 0 || !IsDigit(t[0]) then 0
    else
      var n := 1 + LeadingDigits(t[1..]);
      assert forall k :: 1 <= k < n ==> t[k] == t[1..][k - 1];
      n
  }

  /** The number a string of digits denotes, most significant digit first. */
  function DecimalValue(d: string): nat
    requires forall k :: 0 <= k < |d| ==> IsDigit(d[k])
  {
    if |d| == 0 then 0 else 10 * DecimalValue(d[..|d| - 1]) + DigitValue(d[|d| - 1])
  }

  /** The index of the first character of `t` at or after `i` that is not a C-locale space. */
  function SkipWhite(t: string, i: nat): (r: nat)
    requires i <= |t|
    ensures i <= r <= |t|
    ensures forall k :: i <= k < r ==> IsSpace(t[k])
    ensures r < |t| ==> !IsSpace(t[r])
    decreases |t| - i
  {
    if i < |t| && IsSpace(t[i]) then SkipWhite(t, i + 1) else i
  }

  /**
    `atoi`: leading white space, an optional sign, then the longest run of
    digits; no digits give 0.
  */
  function Atoi(t: string): int
  {
    var i := SkipWhite(t, 0);
    var negative := i < |t| && t[i] == '-';
    var j := if i < |t| && (t[i] == '-' || t[i] == '+') then i + 1 else i;
    var digits := t[j..][..LeadingDigits(t[j..])];
    var n: int := DecimalValue(digits);
    if negative then -n else n
  }

  /** The decimal text of a natural number, without leading zeros. */
  function NatToString(n: nat): (t: string)
    ensures |t| > 0
    ensures forall k :: 0 <= k < |t| ==> IsDigit(t[k])
    decreases n
  {
    if n < 10 then [DigitChar(n)] else NatToString(n / 10) + [DigitChar(n % 10)]
  }

  /** Reading back the decimal text of a number gives the number. */
  lemma {:induction false} DecimalValueOfNatToString(n: nat)
    ensures DecimalValue(NatToString(n)) == n
    decreases n
  {
    var t := NatToString(n);
    if n >= 10 {
      DecimalValueOfNatToString(n / 10);
      assert t[..|t| - 1] == NatToString(n / 10);
    }
  }

  /** `atoi` reads back the text of a natural number, with or without a `-` before it. */
  lemma AtoiNatToString(n: nat)
    ensures Atoi(NatToString(n)) == n
    ensures Atoi("-" + NatToString(n)) == -(n as int)
  {
    var t := NatToString(n);
    DecimalValueOfNatToString(n);
    assert LeadingDigits(t) == |t|;
    assert SkipWhite(t, 0) == 0;
    assert t[0..] == t;
    var u := "-" + t;
    assert SkipWhite(u, 0) == 0;
    assert u[1..] == t;
    assert t[..|t|] == t;
    assert u[0] == '-' && !IsSpace(u[0]);
  }
}
