/** JavaScript's conversions between numbers and decimal strings, for the
    integer values the application handles: `String(n)`, `Number(s)` and
    `parseInt(s)`. A result of `None` stands for `NaN`. */
module JsNumber {
  import opened Wrappers
  import JsString

  predicate IsDigit(c: char) {
    '0' <= c <= '9'
  }

  predicate AllDigits(s: string) {
    forall i :: 0 <= i < |s| ==> IsDigit(s[i])
  }

  function DigitValue(c: char): (d: nat)
    requires IsDigit(c)
    ensures d < 10
  {
    c as int - '0' as int
  }

  function DigitChar(d: nat): (c: char)
    requires d < 10
    ensures IsDigit(c) && DigitValue(c) == d
  {
    ('0' as int + d) as char
  }

  /** The decimal digits of `n`, most significant first, without leading zeros. */
  function NatToString(n: nat): (r: string)
    ensures |r| >= 1 && AllDigits(r)
    ensures r[0] == '0' ==> n == 0
  {
    if n < 10 then [DigitChar(n)] else NatToString(n / 10) + [DigitChar(n % 10)]
  }

  /** `String(n)` for an integer `n`: its decimal form, with a leading `-` when negative. */
  function IntToString(n: int): (r: string)
    ensures |r| >= 1
    ensures forall i :: 0 <= i < |r| ==> IsDigit(r[i]) || r[i] == '-'
  {
    if n < 0 then "-" + NatToString(-n) else NatToString(n)
  }

  /** The value of a run of decimal digits (the empty run has value 0). */
  function DigitsValue(s: string): nat
    requires AllDigits(s)
  {
    if s == [] then 0 else DigitsValue(s[..|s| - 1]) * 10 + DigitValue(s[|s| - 1])
  }

  /** Reading back the digits of `n` gives `n`. */
  lemma {:induction false} DigitsValueOfNatToString(n: nat)
    ensures DigitsValue(NatToString(n)) == n
  {
    if n >= 10 {
      var p := NatToString(n / 10);
      var s := p + [DigitChar(n % 10)];
      assert s[..|s| - 1] == p;
      DigitsValueOfNatToString(n / 10);
    }
  }

  /** An optional sign followed by one or more digits, as `Number` reads it once
      white space is trimmed; anything else is `NaN`. */
  function ParseSignedDecimal(s: string): Option<int> {
    if |s| > 0 && (s[0] == '-' || s[0] == '+') then
      var digits := s[1..];
      if |digits| > 0 && AllDigits(digits) then
        var v: int := DigitsValue(digits);
        Some(if s[0] == '-' then -v else v)
      else None
    else if |s| > 0 && AllDigits(s) then Some(DigitsValue(s))
    else None
  }

  /** `Number(s)` for a string: surrounding white space is ignored, a blank string
      is 0, a signed decimal integer is its value, and anything else is `NaN`. */
  function StringToNumber(s: string): Option<int> {
    var t := JsString.Trim(s);
    if t == "" then Some(0) else ParseSignedDecimal(t)
  }

  /** Digits are not white space. */
  lemma DigitIsNotWhitespace(c: char)
    requires IsDigit(c)
    ensures !JsString.IsJsWhitespace(c)
  {
  }

  /** A string with no white space at either end is its own trim. */
  lemma TrimOfUnpadded(s: string)
    requires s != [] && !JsString.IsJsWhitespace(s[0]) && !JsString.IsJsWhitespace(s[|s| - 1])
    ensures JsString.Trim(s) == s
  {
    assert JsString.TrimStart(s) == s;
    assert JsString.TrimEnd(s) == s;
  }

  /** `Number(String(n)) == n` for every integer `n`. */
  lemma StringToNumberOfIntToString(n: int)
    ensures StringToNumber(IntToString(n)) == Some(n)
  {
    if n < 0 {
      var digits := NatToString(-n);
      var s := "-" + digits;
      assert s[1..] == digits && s[0] == '-' && s[|s| - 1] == digits[|digits| - 1];
      DigitIsNotWhitespace(s[|s| - 1]);
      TrimOfUnpadded(s);
      DigitsValueOfNatToString(-n);
      assert ParseSignedDecimal(s) == Some(n);
    } else {
      NumberOfNatToString(n);
    }
  }

  /** `Number(String(n)) == n` for a natural number `n`. */
  lemma NumberOfNatToString(n: nat)
    ensures StringToNumber(NatToString(n)) == Some(n)
  {
    var s := NatToString(n);
    DigitIsNotWhitespace(s[0]);
    DigitIsNotWhitespace(s[|s| - 1]);
    TrimOfUnpadded(s);
    DigitsValueOfNatToString(n);
    assert IsDigit(s[0]) && s[0] != '-' && s[0] != '+';
    assert ParseSignedDecimal(s) == Some(DigitsValue(s));
  }

  /** The longest run of digits at the start of `s`. */
  function DigitPrefix(s: string): (r: string)
    ensures |r| <= |s| && r == s[..|r|] && AllDigits(r)
    ensures |r| < |s| ==> !IsDigit(s[|r|])
  {
    if s != [] && IsDigit(s[0]) then
      var r := DigitPrefix(s[1..]);
      assert s[..1 + |r|] == [s[0]] + r;
      [s[0]] + r
    else []
  }

  /** `parseInt(s)` with no radix: leading white space is skipped, then an optional
      sign and the longest run of digits are read; with no digit the result is `NaN`.
      Hexadecimal `0x` prefixes are not part of this model. */
  function ParseInt(s: string): (r: Option<int>)
  {
    var t := JsString.TrimStart(s);
    var negative := |t| > 0 && t[0] == '-';
    var rest := if |t| > 0 && (t[0] == '-' || t[0] == '+') then t[1..] else t;
    var digits := DigitPrefix(rest);
    if digits == "" then None
    else var v: int := DigitsValue(digits);
      Some(if negative then -v else v)
  }

  /** `parseInt` stops at the first non-digit: trailing text after a number is ignored. */
  lemma {:induction false} ParseIntIgnoresSuffix(n: nat, suffix: string)
    requires suffix == [] || !IsDigit(suffix[0])
    ensures ParseInt(NatToString(n) + suffix) == Some(n)
  {
    var d := NatToString(n);
    var s := d + suffix;
    assert s[0] == d[0];
    ParseIntOfDigitStart(s);
    DigitPrefixOfDigitsThenOther(d, suffix);
    DigitsValueOfNatToString(n);
  }

  /** A text that starts with a digit is read from its first character on. */
  lemma ParseIntOfDigitStart(s: string)
    requires s != [] && IsDigit(s[0])
    ensures ParseInt(s) == Some(DigitsValue(DigitPrefix(s)))
  {
    assert !JsString.IsJsWhitespace(s[0]);
    assert JsString.TrimStart(s) == s;
  }

  lemma {:induction false} DigitPrefixOfDigitsThenOther(digits: string, suffix: string)
    requires AllDigits(digits)
    requires suffix == [] || !IsDigit(suffix[0])
    ensures DigitPrefix(digits + suffix) == digits
  {
    if digits != [] {
      assert (digits + suffix)[1..] == digits[1..] + suffix;
      DigitPrefixOfDigitsThenOther(digits[1..], suffix);
    } else {
      assert digits + suffix == suffix;
    }
  }

  /** JavaScript truthiness of a number: `NaN` and 0 are falsy. */
  predicate NumberTruthy(x: Option<int>) {
    x.Some? && x.value != 0
  }
}
