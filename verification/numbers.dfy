/** Character classes used by the tokenizer and the variable substitutor.
    Each stands for one regular expression of au.js, over a single character. */
module Chars {

  /** `\d` in a JavaScript regular expression: an ASCII decimal digit. */
  predicate IsDigit(c: char)
  {
    '0' <= c <= '9'
  }

  /** `isNumber`: the characters a number token is built from (`/\d|\.|e/`). */
  predicate IsNumberChar(c: char)
  {
    IsDigit(c) || c == '.' || c == 'e'
  }

  /** `[\w\d]`: the characters of a variable name. */
  predicate IsWordChar(c: char)
  {
    ('a' <= c <= 'z') || ('A' <= c <= 'Z') || IsDigit(c) || c == '_'
  }

  /** `\s` in a JavaScript regular expression: the WhiteSpace and LineTerminator
      code points of ECMAScript (tab, line feed, vertical tab, form feed,
      carriage return, the space separators of Unicode category Zs, the line
      and paragraph separators, and the byte order mark). */
  predicate IsSpace(c: char)
  {
    c == '\t' || c == '\n' || c == '\U{000B}' || c == '\U{000C}' || c == '\r'
    || c == ' ' || c == '\U{00A0}' || c == '\U{1680}'
    || ('\U{2000}' <= c <= '\U{200A}')
    || c == '\U{2028}' || c == '\U{2029}' || c == '\U{202F}' || c == '\U{205F}'
    || c == '\U{3000}' || c == '\U{FEFF}'
  }

  lemma {:induction false} ClassesAreDisjoint(c: char)
    ensures IsSpace(c) ==> !IsNumberChar(c) && !IsWordChar(c)
    ensures IsNumberChar(c) ==> c != '(' && c != ')'
  {
  }
}

/** Decimal numerals: the value of the number buffer (`parseFloat`) and the
    decimal text of a position in an error message. Arithmetic is exact. */
module Numbers {
  import opened Core
  import opened Chars

  predicate AllDigits(s: string)
  {
    forall i :: 0 <= i < |s| ==> IsDigit(s[i])
  }

  function DigitValue(c: char): nat
    requires IsDigit(c)
  {
    c as int - '0' as int
  }

  function Digit(d: nat): char
    requires d < 10
  {
    ('0' as int + d) as char
  }

  /** The value of a string of decimal digits, most significant first. */
  function DigitsValue(s: string): nat
    requires AllDigits(s)
  {
    if s == [] then 0 else 10 * DigitsValue(s[..|s| - 1]) + DigitValue(s[|s| - 1])
  }

  function Pow10(n: nat): (r: nat)
    ensures r >= 1
  {
    if n == 0 then 1 else 10 * Pow10(n - 1)
  }

  /** The end of the run of digits that starts at `i`. */
  function DigitsEnd(s: string, i: nat): (j: nat)
    requires i <= |s|
    ensures i <= j <= |s|
    ensures AllDigits(s[i..j])
    ensures j < |s| ==> !IsDigit(s[j])
    decreases |s| - i
  {
    if i < |s| && IsDigit(s[i]) then
      var j := DigitsEnd(s, i + 1);
      assert s[i..j] == [s[i]] + s[i + 1..j];
      j
    else i
  }

  /** `parseFloat` on the number buffer, whose characters are digits, `.` and
      `e`: the value of the longest prefix of the form digits [`.` digits]
      [`e` digits], or None (NaN) when that prefix holds no digit before the
      exponent. Rounding to a double is not modelled. */
  function ParseFloat(buf: string): (r: Option<real>)
    ensures r.Some? ==> r.value >= 0.0
  {
    var a := DigitsEnd(buf, 0);
    var dot := a < |buf| && buf[a] == '.';
    var b := if dot then DigitsEnd(buf, a + 1) else a;
    var fraction := if dot then buf[a + 1..b] else "";
    if a == 0 && fraction == [] then None
    else
      var whole: real := DigitsValue(buf[..a]) as real;
      var part: real := DigitsValue(fraction) as real / Pow10(|fraction|) as real;
      assert part >= 0.0;
      var mantissa := whole + part;
      if b + 1 < |buf| && buf[b] == 'e' && IsDigit(buf[b + 1]) then
        var c := DigitsEnd(buf, b + 1);
        var scale: real := Pow10(DigitsValue(buf[b + 1..c])) as real;
        assert mantissa * scale >= 0.0;
        Some(mantissa * scale)
      else
        Some(mantissa)
  }

  /** The buffer is a number exactly when it starts with a digit, or with a
      point followed by a digit: `parseFloat` yields NaN in every other case. */
  lemma {:induction false} ParseFloatDefinedIff(buf: string)
    ensures ParseFloat(buf).Some? <==>
              (|buf| > 0 && IsDigit(buf[0])) || (|buf| > 1 && buf[0] == '.' && IsDigit(buf[1]))
  {
    var a := DigitsEnd(buf, 0);
    if |buf| > 0 && IsDigit(buf[0]) {
      assert AllDigits(buf[0..a]);
      assert a != 0;
    } else {
      assert a == 0;
      if |buf| > 1 && buf[0] == '.' && IsDigit(buf[1]) {
        var b := DigitsEnd(buf, 1);
        assert AllDigits(buf[1..b]);
        assert b > 1;
      } else if |buf| > 0 && buf[0] == '.' {
        assert DigitsEnd(buf, 1) == 1;
      }
    }
  }

  /** A buffer of digits alone is read as its decimal value. */
  lemma {:induction false} ParseFloatOfDigits(s: string)
    requires s != [] && AllDigits(s)
    ensures ParseFloat(s) == Some(DigitsValue(s) as real)
  {
    DigitsRunIsWhole(s, 0);
    assert s[..|s|] == s;
  }

  lemma {:induction false} DigitsRunIsWhole(s: string, i: nat)
    requires i <= |s| && AllDigits(s)
    ensures DigitsEnd(s, i) == |s|
    decreases |s| - i
  {
    if i < |s| {
      DigitsRunIsWhole(s, i + 1);
    }
  }

  /** The decimal text of a natural number, as JavaScript prints it. */
  function NatToString(n: nat): (s: string)
    ensures |s| >= 1 && AllDigits(s)
    ensures DigitsValue(s) == n
  {
    if n < 10 then [Digit(n)]
    else
      var s := NatToString(n / 10) + [Digit(n % 10)];
      assert s[..|s| - 1] == NatToString(n / 10);
      s
  }

  /** Printing a natural number and reading it back gives the number. */
  lemma NatRoundTrip(n: nat)
    ensures ParseFloat(NatToString(n)) == Some(n as real)
  {
    ParseFloatOfDigits(NatToString(n));
  }
}
