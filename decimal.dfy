/**
 * Decimal text of unsigned integers: the rendering of Rust's `to_string` and the parsing of
 * Rust's `str::parse` for unsigned integer types, as used for port numbers and for the numeric
 * settings of the configuration panel.
 */
module Decimal {
  import opened Errors

  predicate IsDigit(c: char)
  {
    '0' <= c <= '9'
  }

  predicate AllDigits(s: string)
  {
    forall i :: 0 <= i < |s| ==> IsDigit(s[i])
  }

  function DigitValue(c: char): (d: nat)
    requires IsDigit(c)
    ensures d < 10
  {
    c as int - '0' as int
  }

  function DigitChar(d: nat): (c: char)
    requires d < 10
    ensures IsDigit(c) && DigitValue(c) == d
  {
    (d + '0' as int) as char
  }

  /** The value of a string of decimal digits, most significant digit first. */
  function Value(s: string): nat
    requires AllDigits(s)
  {
    if |s| == 0 then 0 else 10 * Value(s[..|s| - 1]) + DigitValue(s[|s| - 1])
  }

  /** The shortest decimal text of n: digits only, no leading zero, reading back as n. */
  function Decimal(n: nat): (s: string)
    ensures 1 <= |s| && AllDigits(s) && Value(s) == n
    ensures |s| > 1 ==> s[0] != '0'
  {
    if n < 10 then [DigitChar(n)]
    else
      var s := Decimal(n / 10) + [DigitChar(n % 10)];
      assert s[..|s| - 1] == Decimal(n / 10);
      s
  }

  /** The digits of an unsigned number: Rust accepts one leading '+' before them. */
  function UnsignedDigits(s: string): string
  {
    if |s| > 0 && s[0] == '+' then s[1..] else s
  }

  /**
   * Parsing an unsigned integer whose type holds values up to max: after an optional '+' there
   * must be at least one digit, nothing but digits, and a value that fits.
   */
  function ParseUnsigned(s: string, max: nat): (r: Option<nat>)
    ensures r.Some? ==> r.value <= max
  {
    var d := UnsignedDigits(s);
    if |d| > 0 && AllDigits(d) && Value(d) <= max then Some(Value(d)) else None
  }

  /** Every value that fits reads back from its decimal text, with or without a '+' sign. */
  lemma ParseDecimal(n: nat, max: nat)
    requires n <= max
    ensures ParseUnsigned(Decimal(n), max) == Some(n)
    ensures ParseUnsigned("+" + Decimal(n), max) == Some(n)
  {
    var s := Decimal(n);
    assert s[0] != '+';
    assert ("+" + s)[1..] == s;
  }

  /** Texts that parse denote a number that fits; a value that does not fit is refused. */
  lemma ParseTooLarge(n: nat, max: nat)
    requires n > max
    ensures ParseUnsigned(Decimal(n), max) == None
  {
    assert Decimal(n)[0] != '+';
  }
}
