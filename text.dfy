/**
 * Strings and the few string operations the storefront relies on:
 * case mapping, the whitespace class of JavaScript regular expressions,
 * and the decimal and hexadecimal rendering of `Number.prototype.toString`.
 *
 * A `char` is a Unicode scalar value. JavaScript sees a string as UTF-16
 * code units instead (`length`, `charCodeAt`); `Utf16` gives that view.
 * Case mapping covers ASCII only.
 */
module Text {

  type String = seq<char>

  predicate IsAsciiUpper(c: char) { 'A' <= c <= 'Z' }

  predicate IsAsciiLower(c: char) { 'a' <= c <= 'z' }

  predicate IsAsciiDigit(c: char) { '0' <= c <= '9' }

  /** `String.prototype.toLowerCase` on one character. */
  function LowerChar(c: char): (r: char)
    ensures !IsAsciiUpper(r)
    ensures IsAsciiUpper(c) ==> IsAsciiLower(r)
  {
    if IsAsciiUpper(c) then (c as int + 32) as char else c
  }

  /** `String.prototype.toUpperCase` on one character. */
  function UpperChar(c: char): (r: char)
    ensures !IsAsciiLower(r)
    ensures IsAsciiLower(c) ==> IsAsciiUpper(r)
  {
    if IsAsciiLower(c) then (c as int - 32) as char else c
  }

  function ToLower(s: String): (r: String)
    ensures |r| == |s|
    ensures forall i :: 0 <= i < |s| ==> r[i] == LowerChar(s[i])
  {
    seq(|s|, i requires 0 <= i < |s| => LowerChar(s[i]))
  }

  function ToUpper(s: String): (r: String)
    ensures |r| == |s|
    ensures forall i :: 0 <= i < |s| ==> r[i] == UpperChar(s[i])
  {
    seq(|s|, i requires 0 <= i < |s| => UpperChar(s[i]))
  }

  /** A string that lower-casing leaves alone. */
  predicate IsLowerCase(s: String) {
    forall i :: 0 <= i < |s| ==> !IsAsciiUpper(s[i])
  }

  /** The comparison `a.toLowerCase() === b.toLowerCase()`. */
  predicate EqualsIgnoringCase(a: String, b: String) {
    ToLower(a) == ToLower(b)
  }

  lemma LowerCaseIsFixed(s: String)
    ensures IsLowerCase(ToLower(s))
    ensures IsLowerCase(s) <==> ToLower(s) == s
  {
    if IsLowerCase(s) {
      assert forall i :: 0 <= i < |s| ==> ToLower(s)[i] == s[i];
    }
    if ToLower(s) == s {
      assert forall i :: 0 <= i < |s| ==> !IsAsciiUpper(ToLower(s)[i]);
    }
  }

  /**
   * The character class `\s` of ECMAScript regular expressions: the
   * WhiteSpace and LineTerminator code points.
   */
  predicate IsJsWhitespace(c: char) {
    || c == '\t' || c == '\n' || c == '\U{B}' || c == '\U{C}' || c == '\r'
    || c == ' ' || c == '\U{A0}' || c == '\U{1680}'
    || ('\U{2000}' <= c <= '\U{200A}')
    || c == '\U{2028}' || c == '\U{2029}' || c == '\U{202F}' || c == '\U{205F}'
    || c == '\U{3000}' || c == '\U{FEFF}'
  }

  function DigitChar(d: nat): (c: char)
    requires d < 16
    ensures c != '_' && c != '-'
    ensures d < 10 ==> IsAsciiDigit(c)
  {
    "0123456789abcdef"[d]
  }

  /** `n.toString()` for a non-negative integer. */
  function Decimal(n: nat): (r: String)
    ensures |r| > 0
    ensures forall i :: 0 <= i < |r| ==> IsAsciiDigit(r[i])
  {
    if n < 10 then [DigitChar(n)] else Decimal(n / 10) + [DigitChar(n % 10)]
  }

  /** `n.toString(16)` for a non-negative integer. */
  function Hex(n: nat): (r: String)
    ensures |r| > 0
    ensures forall i :: 0 <= i < |r| ==> r[i] != '_'
  {
    if n < 16 then [DigitChar(n)] else Hex(n / 16) + [DigitChar(n % 16)]
  }

  /** Reads a string of decimal digits back as a number. */
  function ParseDecimal(s: String): nat
    requires forall i :: 0 <= i < |s| ==> IsAsciiDigit(s[i])
  {
    if s == [] then 0
    else
      var last := s[|s| - 1];
      assert IsAsciiDigit(last);
      ParseDecimal(s[..|s| - 1]) * 10 + (last as int - '0' as int)
  }

  lemma {:induction false} DecimalRoundTrip(n: nat)
    ensures ParseDecimal(Decimal(n)) == n
  {
    if n >= 10 {
      var r := Decimal(n);
      assert r[..|r| - 1] == Decimal(n / 10);
      DecimalRoundTrip(n / 10);
    }
  }

  /** Different numbers render differently. */
  lemma DecimalInjective(n: nat, m: nat)
    requires Decimal(n) == Decimal(m)
    ensures n == m
  {
    DecimalRoundTrip(n);
    DecimalRoundTrip(m);
  }

  // -------------------------------------------------------------------
  // The UTF-16 view JavaScript has of a string
  // -------------------------------------------------------------------

  /** A UTF-16 code unit, what `charCodeAt` returns. */
  type CodeUnit = x: int | 0 <= x < 0x1_0000

  predicate InBmp(c: char) { c as int < 0x1_0000 }

  /**
   * The code units of one character: the character itself inside the Basic
   * Multilingual Plane, a high and a low surrogate above it.
   */
  function CodeUnits(c: char): (u: seq<CodeUnit>)
    ensures InBmp(c) ==> u == [c as int]
    ensures !InBmp(c) ==>
      && |u| == 2
      && 0xD800 <= u[0] < 0xDC00 && 0xDC00 <= u[1] < 0xE000
      && 0x1_0000 + (u[0] as int - 0xD800) * 0x400 + (u[1] as int - 0xDC00) == c as int
  {
    var v := c as int;
    if v < 0x1_0000 then [v]
    else [0xD800 + (v - 0x1_0000) / 0x400, 0xDC00 + (v - 0x1_0000) % 0x400]
  }

  /** The string as JavaScript stores it: its characters' code units in order. */
  function Utf16(s: String): (u: seq<CodeUnit>)
    ensures |u| >= |s|
  {
    if s == [] then [] else Utf16(s[..|s| - 1]) + CodeUnits(s[|s| - 1])
  }

  /** `s.length`: the number of UTF-16 code units. */
  function JsLength(s: String): nat {
    |Utf16(s)|
  }

  /**
   * `length` counts characters exactly when none lies outside the Basic
   * Multilingual Plane; each one that does counts twice.
   */
  lemma {:induction false} JsLengthCountsCharacters(s: String)
    ensures JsLength(s) >= |s|
    ensures JsLength(s) == |s| <==> forall i :: 0 <= i < |s| ==> InBmp(s[i])
    decreases |s|
  {
    if s != [] {
      var init := s[..|s| - 1];
      JsLengthCountsCharacters(init);
      assert forall i :: 0 <= i < |init| ==> init[i] == s[i];
    }
  }
}
