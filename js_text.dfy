/**
 * The JavaScript string and number built-ins that the pipeline relies on:
 * `String.prototype.trim`, `trimStart`, `trimEnd`, `toUpperCase` and the
 * conversion of a number to its decimal text.
 */
module JsText {

  /** The horizontal ellipsis "…" (U+2026) that clamped copy ends with. */
  const ELLIPSIS: char := '\U{2026}'

  /**
   * ECMAScript WhiteSpace and LineTerminator code points: exactly the set that
   * `trim`, `trimStart` and `trimEnd` remove (tab, vertical tab, form feed,
   * every space separator of category Zs, the byte order mark, and the four
   * line terminators).
   */
  predicate IsWhitespace(c: char) {
    || c == '\t' || c == '\n' || c == '\U{000B}' || c == '\U{000C}' || c == '\r'
    || c == ' ' || c == '\U{00A0}' || c == '\U{1680}'
    || ('\U{2000}' <= c <= '\U{200A}')
    || c == '\U{2028}' || c == '\U{2029}' || c == '\U{202F}' || c == '\U{205F}'
    || c == '\U{3000}' || c == '\U{FEFF}'
  }

  /** Neither end of `s` is whitespace: what `trim` returns. */
  predicate IsTrimmed(s: string) {
    s == [] || (!IsWhitespace(s[0]) && !IsWhitespace(s[|s| - 1]))
  }

  /** `s.trimStart()`: `s` without its leading whitespace. */
  function TrimStart(s: string): (r: string)
    ensures |r| <= |s| && r == s[|s| - |r|..]
    ensures forall i :: 0 <= i < |s| - |r| ==> IsWhitespace(s[i])
    ensures r == [] || !IsWhitespace(r[0])
  {
    if s != [] && IsWhitespace(s[0]) then TrimStart(s[1..]) else s
  }

  /** `s.trimEnd()`: `s` without its trailing whitespace. */
  function TrimEnd(s: string): (r: string)
    ensures |r| <= |s| && r == s[..|r|]
    ensures forall i :: |r| <= i < |s| ==> IsWhitespace(s[i])
    ensures r == [] || !IsWhitespace(r[|r| - 1])
  {
    if s != [] && IsWhitespace(s[|s| - 1]) then TrimEnd(s[..|s| - 1]) else s
  }

  /**
   * `r` sits in `s` at offset `a`, and everything of `s` before and after it is
   * whitespace: `r` is `s` with some whitespace removed from its two ends.
   */
  predicate IsCoreAt(s: string, a: int, r: string) {
    && 0 <= a <= |s| - |r| && r == s[a..a + |r|]
    && (forall i :: 0 <= i < a ==> IsWhitespace(s[i]))
    && (forall i :: a + |r| <= i < |s| ==> IsWhitespace(s[i]))
  }

  /** `s.trim()`: the part of `s` between its leading and trailing whitespace. */
  function Trim(s: string): (r: string)
    ensures IsTrimmed(r)
    ensures |r| <= |s|
    ensures r == [] <==> forall i :: 0 <= i < |s| ==> IsWhitespace(s[i])
    ensures exists a :: IsCoreAt(s, a, r)
  {
    var t := TrimStart(s);
    var a := |s| - |t|;
    assert forall i :: 0 <= i < a ==> IsWhitespace(s[i]);
    var r := TrimEnd(t);
    assert r != [] ==> r[0] == t[0];
    assert r == s[a..a + |r|];
    assert forall i :: a + |r| <= i < |s| ==> s[i] == t[i - a];
    assert IsCoreAt(s, a, r);
    r
  }

  /** A string with no whitespace at either end is left alone by `trim`. */
  lemma {:induction false} TrimOfTrimmed(s: string)
    requires IsTrimmed(s)
    ensures Trim(s) == s
  {
    assert TrimStart(s) == s;
    assert TrimEnd(s) == s;
  }

  predicate IsLowerAscii(c: char) { 'a' <= c <= 'z' }

  function UpperChar(c: char): char {
    if IsLowerAscii(c) then (c as int - 32) as char else c
  }

  /**
   * `s.toUpperCase()` restricted to the ASCII letters: a to z become A to Z,
   * every other character is kept.
   */
  function ToUpper(s: string): (r: string)
    ensures |r| == |s|
    ensures forall i :: 0 <= i < |r| ==> !IsLowerAscii(r[i])
    ensures forall i :: 0 <= i < |s| && !IsLowerAscii(s[i]) ==> r[i] == s[i]
    ensures forall i :: 0 <= i < |s| && IsLowerAscii(s[i]) ==> r[i] as int == s[i] as int - 32
  {
    seq(|s|, i requires 0 <= i < |s| => UpperChar(s[i]))
  }

  predicate IsDigit(c: char) { '0' <= c <= '9' }

  function DigitChar(d: nat): (c: char)
    requires d < 10
    ensures IsDigit(c) && c as int - '0' as int == d
  {
    ('0' as int + d) as char
  }

  function DigitValue(c: char): nat
    requires IsDigit(c)
  {
    c as int - '0' as int
  }

  /** The decimal text of a natural number, as `String(n)` writes it: no sign, no leading zero. */
  function NatToString(n: nat): (r: string)
    ensures r != []
    ensures forall i :: 0 <= i < |r| ==> IsDigit(r[i])
    ensures r[0] == '0' <==> n == 0
  {
    if n < 10 then [DigitChar(n)] else NatToString(n / 10) + [DigitChar(n % 10)]
  }

  /** The value of a string of decimal digits. */
  function DigitsValue(s: string): nat
    requires forall i :: 0 <= i < |s| ==> IsDigit(s[i])
  {
    if s == [] then 0 else DigitsValue(s[..|s| - 1]) * 10 + DigitValue(s[|s| - 1])
  }

  /** Reading back the decimal text of `n` gives `n`. */
  lemma {:induction false} NatToStringRoundTrip(n: nat)
    ensures DigitsValue(NatToString(n)) == n
  {
    if n >= 10 {
      var prefix := NatToString(n / 10);
      var text := prefix + [DigitChar(n % 10)];
      assert text[..|text| - 1] == prefix;
      NatToStringRoundTrip(n / 10);
    }
  }

  /** Characters that the decimal text of a number may contain. */
  predicate IsNumberChar(c: char) { IsDigit(c) || c == '.' || c == '-' }

  /** The decimal digits after the point of a fraction `0 <= f < 1`, at most `fuel` of them. */
  function FractionDigits(f: real, fuel: nat): (r: string)
    requires 0.0 <= f < 1.0
    ensures |r| <= fuel
    ensures forall i :: 0 <= i < |r| ==> IsDigit(r[i])
    decreases fuel
  {
    if fuel == 0 || f == 0.0 then []
    else
      var d := (f * 10.0).Floor;
      [DigitChar(d)] + FractionDigits(f * 10.0 - d as real, fuel - 1)
  }

  /** The text of a non-negative number: integer part, then "." and the fraction digits if any. */
  function NonNegativeToString(x: real): (r: string)
    requires x >= 0.0
    ensures r != [] && IsDigit(r[0])
    ensures forall i :: 0 <= i < |r| ==> IsNumberChar(r[i])
  {
    var whole := x.Floor;
    var fraction := x - whole as real;
    NatToString(whole) + (if fraction == 0.0 then "" else "." + FractionDigits(fraction, 20))
  }

  /**
   * `String(x)` for a number: exact for every number whose decimal expansion
   * ends within 20 digits after the point and whose magnitude is below 1e21,
   * which covers every number this application formats.
   */
  function NumberToString(x: real): (r: string)
    ensures r != []
    ensures forall i :: 0 <= i < |r| ==> IsNumberChar(r[i])
    ensures r[0] == '-' <==> x < 0.0
  {
    if x < 0.0 then "-" + NonNegativeToString(-x) else NonNegativeToString(x)
  }

  /** On a natural number, `NumberToString` is the plain decimal text. */
  lemma NumberToStringOfNat(n: nat)
    ensures NumberToString(n as real) == NatToString(n)
  {
    assert (n as real).Floor == n;
  }
}
