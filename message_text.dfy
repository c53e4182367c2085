/** Decimal numerals inside message texts.  The message arrays of rutil/Errdes.cxx print
    each error's number in decimal; `Decimal` writes such a numeral and `PrintedNumber`
    reads back the number a `NAME number ...` text prints after its name. */
module MessageText {

  predicate IsDigit(c: char)
  {
    '0' <= c <= '9'
  }

  predicate AllDigits(s: string)
  {
    forall i :: 0 <= i < |s| ==> IsDigit(s[i])
  }

  function DigitChar(d: nat): (c: char)
    requires d < 10
    ensures IsDigit(c) && c as int - '0' as int == d
  {
    ('0' as int + d) as char
  }

  /** The decimal numeral of `n`, without leading zeros. */
  function Decimal(n: nat): (s: string)
    ensures |s| > 0 && AllDigits(s)
    ensures n >= 10 ==> s[0] != '0'
  {
    if n < 10 then [DigitChar(n)] else Decimal(n / 10) + [DigitChar(n % 10)]
  }

  /** The number a string of digits denotes. */
  function DigitsValue(s: string): nat
    requires AllDigits(s)
  {
    if |s| == 0 then 0
    else DigitsValue(s[..|s| - 1]) * 10 + (s[|s| - 1] as int - '0' as int)
  }

  lemma {:induction false} DecimalRoundTrip(n: nat)
    ensures DigitsValue(Decimal(n)) == n
  {
    if n >= 10 {
      var s := Decimal(n);
      assert s[..|s| - 1] == Decimal(n / 10);
      DecimalRoundTrip(n / 10);
    }
  }

  /** The longest prefix of `s` made of digits. */
  function DigitPrefix(s: string): (p: string)
    ensures AllDigits(p) && |p| <= |s| && p == s[..|p|]
    ensures |p| < |s| ==> !IsDigit(s[|p|])
  {
    if |s| == 0 || !IsDigit(s[0]) then "" else [s[0]] + DigitPrefix(s[1..])
  }

  /** What follows the first space of `s`; empty when `s` has none. */
  function AfterFirstSpace(s: string): (r: string)
    ensures |r| <= |s|
  {
    if |s| == 0 then "" else if s[0] == ' ' then s[1..] else AfterFirstSpace(s[1..])
  }

  /** The number that a `NAME number ...` text prints right after its name. */
  function PrintedNumber(s: string): nat
  {
    DigitsValue(DigitPrefix(AfterFirstSpace(s)))
  }

  lemma {:induction false} AfterFirstSpaceOfName(name: string, rest: string)
    requires ' ' !in name
    ensures AfterFirstSpace(name + " " + rest) == rest
  {
    if |name| > 0 {
      assert (name + " " + rest)[1..] == name[1..] + " " + rest;
      AfterFirstSpaceOfName(name[1..], rest);
    } else {
      assert name + " " + rest == [' '] + rest;
    }
  }

  lemma {:induction false} DigitPrefixOfNumeral(digits: string, rest: string)
    requires AllDigits(digits)
    requires rest == [] || !IsDigit(rest[0])
    ensures DigitPrefix(digits + rest) == digits
  {
    if |digits| > 0 {
      assert (digits + rest)[1..] == digits[1..] + rest;
      DigitPrefixOfNumeral(digits[1..], rest);
    } else {
      assert digits + rest == rest;
    }
  }

  /** A text written as a name without spaces, a space, the numeral of `n` and then
      nothing or a space and more prints `n`. */
  lemma PrintedNumberOf(name: string, n: nat, rest: string)
    requires ' ' !in name
    requires rest == [] || rest[0] == ' '
    ensures PrintedNumber(name + " " + Decimal(n) + rest) == n
  {
    assert name + " " + Decimal(n) + rest == name + " " + (Decimal(n) + rest);
    AfterFirstSpaceOfName(name, Decimal(n) + rest);
    DigitPrefixOfNumeral(Decimal(n), rest);
    DecimalRoundTrip(n);
  }
}
