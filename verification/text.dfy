/** String helpers with the exact behaviour of the Python and JavaScript
    built-ins the system relies on: decimal rendering, zero padding, case
    folding, `trim`, `join` and `rsplit('.', 1)`. */
module Text {
  import opened Base

  predicate IsDigit(c: char) {
    '0' <= c <= '9'
  }

  predicate AllDigits(s: string) {
    forall i :: 0 <= i < |s| ==> IsDigit(s[i])
  }

  function DigitChar(d: nat): (c: char)
    requires d < 10
    ensures IsDigit(c)
  {
    (('0' as int) + d) as char
  }

  function DigitValue(c: char): (d: nat)
    requires IsDigit(c)
    ensures d < 10
  {
    (c as int) - ('0' as int)
  }

  /** Decimal rendering of a natural number, as Python's `str` and a
      JavaScript template literal render an integer. */
  function NatToString(n: nat): (s: string)
    ensures 0 < |s| && AllDigits(s)
    ensures s[0] == '0' ==> n == 0
    decreases n
  {
    if n < 10 then [DigitChar(n)] else NatToString(n / 10) + [DigitChar(n % 10)]
  }

  /** Value of a string of decimal digits (the empty string reads as 0). */
  function ParseDecimal(s: string): nat
    requires AllDigits(s)
    decreases |s|
  {
    if |s| == 0 then 0 else ParseDecimal(s[..|s| - 1]) * 10 + DigitValue(s[|s| - 1])
  }

  /** Reading back a rendered number gives the number. */
  lemma {:induction false} ParseNatToString(n: nat)
    ensures ParseDecimal(NatToString(n)) == n
    decreases n
  {
    if n >= 10 {
      var s := NatToString(n);
      assert s[..|s| - 1] == NatToString(n / 10);
      ParseNatToString(n / 10);
    }
  }

  /** A leading zero does not change the value of a digit string. */
  lemma {:induction false} ParseLeadingZero(s: string)
    requires AllDigits(s)
    ensures AllDigits("0" + s) && ParseDecimal("0" + s) == ParseDecimal(s)
    decreases |s|
  {
    if |s| > 0 {
      var t := "0" + s;
      assert t[..|t| - 1] == "0" + s[..|s| - 1];
      ParseLeadingZero(s[..|s| - 1]);
    }
  }

  /** Decimal rendering of an integer, with a leading '-' when negative. */
  function IntToString(i: int): (s: string)
    ensures 0 < |s|
    ensures i >= 0 ==> s == NatToString(i)
    ensures i < 0 ==> s == "-" + NatToString(-i)
  {
    if i < 0 then "-" + NatToString(-i) else NatToString(i)
  }

  /** An optional '-' followed by decimal digits. */
  predicate IsIntText(s: string) {
    if 0 < |s| && s[0] == '-' then AllDigits(s[1..]) else AllDigits(s)
  }

  function ParseInt(s: string): int
    requires IsIntText(s)
  {
    if 0 < |s| && s[0] == '-' then -(ParseDecimal(s[1..]) as int) else ParseDecimal(s)
  }

  lemma ParseIntToString(i: int)
    ensures IsIntText(IntToString(i)) && ParseInt(IntToString(i)) == i
  {
    if i < 0 {
      assert IntToString(i)[1..] == NatToString(-i);
      ParseNatToString(-i);
    } else {
      ParseNatToString(i);
    }
  }

  function Zeros(k: nat): (s: string)
    ensures |s| == k && forall i :: 0 <= i < k ==> s[i] == '0'
  {
    if k == 0 then "" else "0" + Zeros(k - 1)
  }

  /** Python's `f"{n:04d}"` for a natural number: the decimal digits,
      left-padded with zeros to at least four characters. */
  function ZeroPad4(n: nat): (s: string)
    ensures |s| == if |NatToString(n)| < 4 then 4 else |NatToString(n)|
    ensures AllDigits(s) && ParseDecimal(s) == n
  {
    var digits := NatToString(n);
    var pad := if |digits| < 4 then 4 - |digits| else 0;
    PaddedValue(pad, digits);
    ParseNatToString(n);
    Zeros(pad) + digits
  }

  lemma {:induction false} PaddedValue(k: nat, s: string)
    requires AllDigits(s)
    ensures AllDigits(Zeros(k) + s) && ParseDecimal(Zeros(k) + s) == ParseDecimal(s)
    decreases k
  {
    if k > 0 {
      PaddedValue(k - 1, s);
      var rest := Zeros(k - 1) + s;
      assert Zeros(k) + s == "0" + rest;
      ParseLeadingZero(rest);
      calc {
        ParseDecimal(Zeros(k) + s);
        ParseDecimal("0" + rest);
        ParseDecimal(rest);
      }
    } else {
      assert Zeros(k) + s == s;
    }
  }

  /** ASCII lower-casing: what a JavaScript `/i` regular expression folds
      for the letters it is compared against. */
  function AsciiLower(c: char): char {
    if 'A' <= c <= 'Z' then ((c as int) + 32) as char else c
  }

  function AsciiLowerString(s: string): (r: string)
    ensures |r| == |s| && forall i :: 0 <= i < |s| ==> r[i] == AsciiLower(s[i])
  {
    seq(|s|, i requires 0 <= i < |s| => AsciiLower(s[i]))
  }

  /** Python's `str.lower` on the characters whose lower case is an ASCII
      letter: A-Z and KELVIN SIGN (U+212A), which lowers to 'k'. Every other
      character is left as it is. */
  function PyLowerChar(c: char): char {
    if c == '\U{212A}' then 'k' else AsciiLower(c)
  }

  function PyLower(s: string): (r: string)
    ensures |r| == |s| && forall i :: 0 <= i < |s| ==> r[i] == PyLowerChar(s[i])
  {
    seq(|s|, i requires 0 <= i < |s| => PyLowerChar(s[i]))
  }

  /** Lower-casing commutes with taking a suffix. */
  lemma PyLowerSuffix(s: string, i: nat)
    requires i <= |s|
    ensures PyLower(s)[i..] == PyLower(s[i..])
  {
    var a, b := PyLower(s)[i..], PyLower(s[i..]);
    forall j | 0 <= j < |a| ensures a[j] == b[j] {
      assert a[j] == PyLower(s)[i + j];
      assert s[i..][j] == s[i + j];
    }
  }

  /** Lower-casing a string with a first character lowers that character
      and the rest. */
  lemma PyLowerCons(c: char, s: string)
    ensures PyLower([c] + s) == [PyLowerChar(c)] + PyLower(s)
  {
    var a, b := PyLower([c] + s), [PyLowerChar(c)] + PyLower(s);
    forall j | 0 <= j < |a| ensures a[j] == b[j] {
      if j > 0 {
        assert ([c] + s)[j] == s[j - 1];
      }
    }
  }

  /** ASCII lower-casing of a string with a first character folds that
      character and the rest. */
  lemma AsciiLowerCons(c: char, s: string)
    ensures AsciiLowerString([c] + s) == [AsciiLower(c)] + AsciiLowerString(s)
  {
    var a, b := AsciiLowerString([c] + s), [AsciiLower(c)] + AsciiLowerString(s);
    forall j | 0 <= j < |a| ensures a[j] == b[j] {
      if j > 0 {
        assert ([c] + s)[j] == s[j - 1];
      }
    }
  }

  /** Text with nothing to lower-case is its own lower case. */
  lemma PyLowerUnchanged(s: string)
    requires forall i :: 0 <= i < |s| ==> !('A' <= s[i] <= 'Z') && s[i] != '\U{212A}'
    ensures PyLower(s) == s
  {
  }

  /** ECMAScript WhiteSpace and LineTerminator code points: what
      `String.prototype.trim` removes. */
  predicate IsJsSpace(c: char) {
    || c == '\t' || c == '\n' || c == '\U{000B}' || c == '\U{000C}' || c == '\r'
    || c == ' ' || c == '\U{00A0}' || c == '\U{1680}'
    || ('\U{2000}' <= c <= '\U{200A}')
    || c == '\U{2028}' || c == '\U{2029}' || c == '\U{202F}' || c == '\U{205F}'
    || c == '\U{3000}' || c == '\U{FEFF}'
  }

  predicate AllJsSpace(s: string) {
    forall i :: 0 <= i < |s| ==> IsJsSpace(s[i])
  }

  function TrimStart(s: string): (r: string)
    ensures r == "" || !IsJsSpace(r[0])
    decreases |s|
  {
    if 0 < |s| && IsJsSpace(s[0]) then TrimStart(s[1..]) else s
  }

  function TrimEnd(s: string): string
    decreases |s|
  {
    if 0 < |s| && IsJsSpace(s[|s| - 1]) then TrimEnd(s[..|s| - 1]) else s
  }

  /** JavaScript's `s.trim()`. */
  function Trim(s: string): string {
    TrimEnd(TrimStart(s))
  }

  lemma {:induction false} TrimStartEmptyIff(s: string)
    ensures TrimStart(s) == "" <==> AllJsSpace(s)
    decreases |s|
  {
    if 0 < |s| && IsJsSpace(s[0]) {
      TrimStartEmptyIff(s[1..]);
      if AllJsSpace(s[1..]) {
        forall i | 0 <= i < |s| ensures IsJsSpace(s[i]) {
          if i > 0 { assert s[i] == s[1..][i - 1]; }
        }
      }
    }
  }

  lemma {:induction false} TrimEndKeepsNonSpace(s: string)
    requires 0 < |s| && !IsJsSpace(s[0])
    ensures TrimEnd(s) != ""
    decreases |s|
  {
    if IsJsSpace(s[|s| - 1]) {
      TrimEndKeepsNonSpace(s[..|s| - 1]);
    }
  }

  /** `!s.trim()` holds exactly for strings made only of white space. */
  lemma TrimEmptyIffBlank(s: string)
    ensures Trim(s) == "" <==> AllJsSpace(s)
  {
    TrimStartEmptyIff(s);
    var t := TrimStart(s);
    if t != "" {
      assert !IsJsSpace(t[0]);
      TrimEndKeepsNonSpace(t);
    }
  }

  /** JavaScript `parts.join(sep)` / Python `sep.join(parts)`. */
  function Join(parts: seq<string>, sep: string): string
    decreases |parts|
  {
    if |parts| == 0 then ""
    else if |parts| == 1 then parts[0]
    else parts[0] + sep + Join(parts[1..], sep)
  }

  predicate EndsWith(s: string, suffix: string) {
    |suffix| <= |s| && s[|s| - |suffix|..] == suffix
  }

  /** Index of the last occurrence of `c` in `s`, if any. */
  function LastIndexOf(s: string, c: char): (r: Option<nat>)
    ensures r.Some? ==> r.value < |s| && s[r.value] == c
    ensures r.Some? ==> forall j :: r.value < j < |s| ==> s[j] != c
    ensures r.None? <==> forall j :: 0 <= j < |s| ==> s[j] != c
    decreases |s|
  {
    if |s| == 0 then None
    else if s[|s| - 1] == c then Some(|s| - 1)
    else LastIndexOf(s[..|s| - 1], c)
  }

  /** `c in s` in Python. */
  predicate Contains(s: string, c: char) {
    exists j :: 0 <= j < |s| && s[j] == c
  }

  /** Python's `s.rsplit(c, 1)[1]`: the text after the last `c`. */
  function AfterLast(s: string, c: char): string
    requires Contains(s, c)
  {
    var i := LastIndexOf(s, c).value;
    s[i + 1..]
  }
}
