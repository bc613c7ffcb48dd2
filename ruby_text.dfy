/** The two conversions between integers and text that the client relies on:
    `Integer#to_s` (the status code in the generic error message) and
    `String#to_i` (the `Retry-After` header in the retry wait hook). */
module RubyText {

  predicate IsDigit(c: char) {
    '0' <= c <= '9'
  }

  predicate AllDigits(s: string) {
    forall i :: 0 <= i < |s| ==> IsDigit(s[i])
  }

  /** The white space `String#to_i` skips before the number:
      space, tab, newline, vertical tab, form feed and carriage return. */
  predicate IsSpace(c: char) {
    c == ' ' || c == '\t' || c == '\n' || c as int == 11 || c as int == 12 || c == '\r'
  }

  function DigitValue(c: char): (d: nat)
    requires IsDigit(c)
    ensures d < 10
  {
    c as int - '0' as int
  }

  function DigitChar(d: nat): (c: char)
    requires d < 10
    ensures IsDigit(c) && DigitValue(c) == d
  {
    ('0' as int + d) as char
  }

  /** The number a string of decimal digits denotes, most significant digit first. */
  function Value(digits: string): nat
    requires AllDigits(digits)
  {
    if digits == [] then 0
    else 10 * Value(digits[..|digits| - 1]) + DigitValue(digits[|digits| - 1])
  }

  /** `Integer#to_s` on a non-negative integer: its shortest decimal numeral. */
  function ToS(n: nat): (s: string)
    ensures s != [] && AllDigits(s)
    ensures |s| > 1 ==> s[0] != '0'
  {
    if n < 10 then [DigitChar(n)] else ToS(n / 10) + [DigitChar(n % 10)]
  }

  /** The input without the white space that leads it. */
  function SkipSpace(s: string): (r: string)
    ensures |r| <= |s| && r == s[|s| - |r|..]
    ensures r == [] || !IsSpace(r[0])
  {
    if s != [] && IsSpace(s[0]) then SkipSpace(s[1..]) else s
  }

  /** The digits of the numeral that starts the input. A single `_` between two
      digits is a separator and is dropped; anything else ends the numeral. */
  function Numeral(s: string): (d: string)
    ensures AllDigits(d)
    ensures d == [] <==> (s == [] || !IsDigit(s[0]))
  {
    if s == [] || !IsDigit(s[0]) then []
    else if |s| >= 3 && s[1] == '_' && IsDigit(s[2]) then [s[0]] + Numeral(s[2..])
    else [s[0]] + Numeral(s[1..])
  }

  /** `String#to_i` in base 10: skip leading white space, read one optional
      sign, then the numeral that follows; 0 when there is no numeral. */
  function ToI(s: string): (n: int)
    ensures n < 0 ==> SkipSpace(s) != [] && SkipSpace(s)[0] == '-'
    ensures n != 0 ==> var t := SkipSpace(s);
      t != [] && (IsDigit(t[0]) || (t[0] in "+-" && |t| > 1 && IsDigit(t[1])))
  {
    var t := SkipSpace(s);
    if t != [] && t[0] == '-' then -(Value(Numeral(t[1..])) as int)
    else if t != [] && t[0] == '+' then Value(Numeral(t[1..]))
    else Value(Numeral(t))
  }

  /** Appending a digit multiplies the value by ten and adds the digit. */
  lemma ValueSnoc(s: string, c: char)
    requires AllDigits(s) && IsDigit(c)
    ensures AllDigits(s + [c]) && Value(s + [c]) == 10 * Value(s) + DigitValue(c)
  {
    assert (s + [c])[..|s + [c]| - 1] == s;
  }

  /** A string of digits is read whole: no character ends the numeral early. */
  lemma {:induction false} NumeralOfDigits(s: string)
    requires AllDigits(s)
    ensures Numeral(s) == s
  {
    if s != [] {
      NumeralOfDigits(s[1..]);
      assert s == [s[0]] + s[1..];
    }
  }

  /** `Integer#to_s` and the numeral's value are inverse. */
  lemma {:induction false} ValueOfToS(n: nat)
    ensures Value(ToS(n)) == n
  {
    if n >= 10 {
      ValueOfToS(n / 10);
      ValueSnoc(ToS(n / 10), DigitChar(n % 10));
    }
  }

  /** A string made only of decimal digits reads as the number it denotes. */
  lemma DigitsToI(s: string)
    requires s != [] && AllDigits(s)
    ensures ToI(s) == Value(s)
  {
    assert SkipSpace(s) == s;
    NumeralOfDigits(s);
  }

  /** `n.to_s.to_i == n` for every non-negative integer. */
  lemma ToIToS(n: nat)
    ensures ToI(ToS(n)) == n
  {
    DigitsToI(ToS(n));
    ValueOfToS(n);
  }

  /** A string whose first visible character is no digit and no sign reads as 0. */
  lemma ToINoNumeral(s: string)
    requires SkipSpace(s) == [] || !(IsDigit(SkipSpace(s)[0]) || SkipSpace(s)[0] in "+-")
    ensures ToI(s) == 0
  {
  }

  /** `String#include?`: `t` occurs in `s` as a contiguous piece. */
  predicate Includes(s: string, t: string) {
    exists i :: 0 <= i <= |s| && t <= s[i..]
  }

  /** The numeral at the head of `d + rest` is `d` when `rest` starts with
      neither a digit nor an underscore. */
  lemma {:induction false} NumeralStops(d: string, rest: string)
    requires AllDigits(d)
    requires rest == [] || !(IsDigit(rest[0]) || rest[0] == '_')
    ensures Numeral(d + rest) == d
  {
    if d != [] {
      assert (d + rest)[1..] == d[1..] + rest;
      NumeralStops(d[1..], rest);
      assert d == [d[0]] + d[1..];
    }
  }

  /** A string that starts with a digit is read from its first character. */
  lemma ToIDigitFirst(s: string)
    requires s != [] && IsDigit(s[0])
    ensures ToI(s) == Value(Numeral(s))
  {
    assert !IsSpace(s[0]);
    assert SkipSpace(s) == s;
  }

  /** Text that follows a number without a digit or an underscore does not
      change what `to_i` reads: `"#{n}: ...".to_i == n`. */
  lemma ToIPrefix(n: nat, rest: string)
    requires rest == [] || !(IsDigit(rest[0]) || rest[0] == '_')
    ensures ToI(ToS(n) + rest) == n
  {
    var d := ToS(n);
    assert (d + rest)[0] == d[0];
    ToIDigitFirst(d + rest);
    NumeralStops(d, rest);
    ValueOfToS(n);
  }

  /** `to_i` reads the leading digits of a header and ignores what follows
      them ("120 s" reads as 120). */
  lemma ToILeadingDigits(d: string, rest: string)
    requires d != [] && AllDigits(d)
    requires rest == [] || !(IsDigit(rest[0]) || rest[0] == '_')
    ensures ToI(d + rest) == Value(d)
  {
    assert (d + rest)[0] == d[0];
    ToIDigitFirst(d + rest);
    NumeralStops(d, rest);
  }
}
