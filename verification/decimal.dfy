/**
 * Decimal integers as text: the prefix parse `Number.parseInt` performs on
 * a string (radix 10) and the formatting a template literal applies to an
 * integer. The two are proved inverse to each other.
 */
module Decimal {
  import opened Values

  predicate IsDigit(c: char) {
    '0' <= c <= '9'
  }

  function DigitValue(c: char): (d: nat)
    requires IsDigit(c)
    ensures d < 10
  {
    c as int - '0' as int
  }

  function DigitChar(d: nat): (c: char)
    requires d < 10
    ensures IsDigit(c) && DigitValue(c) == d
  {
    ('0' as int + d) as char
  }

  predicate AllDigits(s: string) {
    forall i :: 0 <= i < |s| ==> IsDigit(s[i])
  }

  /** The longest prefix of `s` made of decimal digits. */
  function LeadingDigits(s: string): (ds: string)
    ensures ds <= s && AllDigits(ds)
    ensures |ds| < |s| ==> !IsDigit(s[|ds|])
  {
    if |s| == 0 || !IsDigit(s[0]) then [] else [s[0]] + LeadingDigits(s[1..])
  }

  /** The number a string of decimal digits denotes, most significant first. */
  function DigitsValue(ds: string): nat
    requires AllDigits(ds)
  {
    if |ds| == 0 then 0 else DigitsValue(ds[..|ds| - 1]) * 10 + DigitValue(ds[|ds| - 1])
  }

  /** The value of the digit run that starts `s`; `None` when there is none. */
  function Magnitude(s: string): Option<nat> {
    var ds := LeadingDigits(s);
    if ds == [] then None else Some(DigitsValue(ds))
  }

  /**
   * `Number.parseInt(s)`: an optional sign followed by the longest run of
   * decimal digits; `None` stands for `NaN` (no digit after the sign).
   */
  function ParseIntPrefix(s: string): Option<int> {
    if |s| > 0 && s[0] == '-' then
      match Magnitude(s[1..])
      case None => None
      case Some(m) => Some(0 - m as int)
    else if |s| > 0 && s[0] == '+' then
      match Magnitude(s[1..])
      case None => None
      case Some(m) => Some(m)
    else
      match Magnitude(s)
      case None => None
      case Some(m) => Some(m)
  }

  /** The decimal text of a natural number, without leading zeros. */
  function FormatNat(n: nat): (s: string)
    ensures |s| > 0 && AllDigits(s)
    ensures n >= 10 ==> s[0] != '0'
  {
    if n < 10 then [DigitChar(n)] else FormatNat(n / 10) + [DigitChar(n % 10)]
  }

  /** `${n}` for an integer `n`. */
  function FormatInt(n: int): (s: string)
    ensures |s| > 0
    ensures s[0] == '-' <==> n < 0
  {
    if n < 0 then "-" + FormatNat(-n) else FormatNat(n)
  }

  lemma {:induction false} DigitsValueOfFormat(n: nat)
    ensures DigitsValue(FormatNat(n)) == n
    decreases n
  {
    if n >= 10 {
      var s := FormatNat(n);
      assert s[..|s| - 1] == FormatNat(n / 10);
      DigitsValueOfFormat(n / 10);
    }
  }

  lemma {:induction false} LeadingDigitsOfDigits(ds: string, rest: string)
    requires AllDigits(ds)
    requires |rest| == 0 || !IsDigit(rest[0])
    ensures LeadingDigits(ds + rest) == ds
    decreases |ds|
  {
    if |ds| > 0 {
      assert (ds + rest)[1..] == ds[1..] + rest;
      LeadingDigitsOfDigits(ds[1..], rest);
    }
  }

  /** A digit run followed by a non-digit has exactly that run's value. */
  lemma MagnitudeOfDigits(ds: string, rest: string)
    requires |ds| > 0 && AllDigits(ds)
    requires |rest| == 0 || !IsDigit(rest[0])
    ensures Magnitude(ds + rest) == Some(DigitsValue(ds))
  {
    LeadingDigitsOfDigits(ds, rest);
  }

  /**
   * Round trip: parsing the decimal text of `n`, followed by anything that
   * does not continue the digit run, gives `n` back.
   */
  lemma ParseFormatRoundTrip(n: int, rest: string)
    requires |rest| == 0 || !IsDigit(rest[0])
    ensures ParseIntPrefix(FormatInt(n) + rest) == Some(n)
  {
    if n < 0 {
      ParseFormatNegative(-n, rest, FormatInt(n) + rest);
    } else {
      ParseFormatNatural(n, rest);
    }
  }

  lemma ParseFormatNatural(n: nat, rest: string)
    requires |rest| == 0 || !IsDigit(rest[0])
    ensures ParseIntPrefix(FormatNat(n) + rest) == Some(n)
  {
    var s := FormatNat(n) + rest;
    assert s[0] == FormatNat(n)[0];
    MagnitudeOfDigits(FormatNat(n), rest);
    DigitsValueOfFormat(n);
    ParseUnsigned(s);
  }

  lemma ParseFormatNegative(m: nat, rest: string, s: string)
    requires m > 0 && (|rest| == 0 || !IsDigit(rest[0]))
    requires s == "-" + FormatNat(m) + rest
    ensures ParseIntPrefix(s) == Some(0 - m)
  {
    assert s[0] == '-' && s[1..] == FormatNat(m) + rest;
    MagnitudeOfDigits(FormatNat(m), rest);
    DigitsValueOfFormat(m);
    ParseNegative(s);
  }

  /** Text starting with a digit is read without a sign. */
  lemma ParseUnsigned(s: string)
    requires |s| > 0 && IsDigit(s[0])
    ensures Magnitude(s).Some? ==> ParseIntPrefix(s) == Some(Magnitude(s).value as int)
  {
  }

  /** Text starting with a minus sign is read as the negated digit run after it. */
  lemma ParseNegative(s: string)
    requires |s| > 0 && s[0] == '-'
    ensures Magnitude(s[1..]).Some? ==> ParseIntPrefix(s) == Some(0 - Magnitude(s[1..]).value)
  {
  }
}
