/**
 * The two JavaScript string built-ins the screens rely on:
 * `String.prototype.trim` (used by the upload form and the login screen)
 * and the decimal rendering of a non-negative integer (`Date.now()` turned
 * into an id, counts interpolated into header texts).
 */
module JsText {

  /** ECMAScript WhiteSpace and LineTerminator code points: what `trim` strips. */
  predicate IsWhitespace(c: char) {
    || c == '\t' || c == '\n' || c == '\U{000B}' || c == '\U{000C}' || c == '\r'
    || c == ' ' || c == '\U{00A0}' || c == '\U{1680}'
    || ('\U{2000}' <= c <= '\U{200A}')
    || c == '\U{2028}' || c == '\U{2029}' || c == '\U{202F}' || c == '\U{205F}'
    || c == '\U{3000}' || c == '\U{FEFF}'
  }

  predicate AllWhitespace(s: string) {
    forall k :: 0 <= k < |s| ==> IsWhitespace(s[k])
  }

  /** The number of whitespace characters at the front of `s`. */
  function LeadingWhitespace(s: string): (n: nat)
    ensures n <= |s|
    ensures forall k :: 0 <= k < n ==> IsWhitespace(s[k])
    ensures n < |s| ==> !IsWhitespace(s[n])
  {
    if s != [] && IsWhitespace(s[0]) then 1 + LeadingWhitespace(s[1..]) else 0
  }

  /** Where the run of whitespace that ends `s` begins, looking no further left than `lo`. */
  function TrailingStart(s: string, lo: nat): (m: nat)
    requires lo <= |s|
    ensures lo <= m <= |s|
    ensures forall k :: m <= k < |s| ==> IsWhitespace(s[k])
    ensures lo < m ==> !IsWhitespace(s[m - 1])
  {
    if lo < |s| && IsWhitespace(s[|s| - 1]) then TrailingStart(s[..|s| - 1], lo) else |s|
  }

  /** `r` stands at offset `i` of `s`, with only whitespace before and after it. */
  predicate FramedBy(s: string, r: string, i: nat) {
    && i + |r| <= |s|
    && r == s[i..i + |r|]
    && AllWhitespace(s[..i])
    && AllWhitespace(s[i + |r|..])
  }

  /**
   * `s.trim()`: `s` without its leading and trailing whitespace. The result
   * is a slice of `s` framed by whitespace only, it neither starts nor ends
   * with whitespace, and it is empty exactly when `s` is all whitespace.
   */
  function Trim(s: string): (r: string)
    ensures |r| <= |s|
    ensures r == [] <==> AllWhitespace(s)
    ensures r != [] ==> !IsWhitespace(r[0]) && !IsWhitespace(r[|r| - 1])
    ensures exists i :: FramedBy(s, r, i)
  {
    var i := LeadingWhitespace(s);
    var j := TrailingStart(s, i);
    assert FramedBy(s, s[i..j], i);
    s[i..j]
  }

  /** Trimming twice is trimming once. */
  lemma TrimIdempotent(s: string)
    ensures Trim(Trim(s)) == Trim(s)
  {
  }

  predicate IsDigit(c: char) {
    '0' <= c <= '9'
  }

  predicate AllDigits(s: string) {
    forall k :: 0 <= k < |s| ==> IsDigit(s[k])
  }

  function DigitChar(d: nat): (c: char)
    requires d < 10
    ensures IsDigit(c)
  {
    ('0' as int + d) as char
  }

  /** `n.toString()` for a non-negative integer below 10^21: decimal digits, no leading zero. */
  function DecimalString(n: nat): (s: string)
    ensures |s| >= 1
    ensures AllDigits(s)
    ensures s[0] == '0' ==> n == 0
    decreases n
  {
    if n < 10 then [DigitChar(n)] else DecimalString(n / 10) + [DigitChar(n % 10)]
  }

  /** `n.toString()` for any integer: a minus sign before the digits of a negative one. */
  function IntString(n: int): (s: string)
    ensures |s| >= 1
    ensures s[0] == '-' <==> n < 0
    ensures n >= 0 ==> s == DecimalString(n)
  {
    if n < 0 then "-" + DecimalString(-n) else DecimalString(n)
  }

  /** The number a string of decimal digits denotes. */
  function DigitsValue(s: string): nat
    requires AllDigits(s)
  {
    if s == [] then 0 else 10 * DigitsValue(s[..|s| - 1]) + (s[|s| - 1] as int - '0' as int)
  }

  /** Reading back the digits `DecimalString` writes gives the number. */
  lemma {:induction false} DecimalRoundTrip(n: nat)
    ensures DigitsValue(DecimalString(n)) == n
    decreases n
  {
    var s := DecimalString(n);
    if n >= 10 {
      assert s[..|s| - 1] == DecimalString(n / 10);
      DecimalRoundTrip(n / 10);
    }
  }

  /** Distinct numbers have distinct decimal renderings. */
  lemma DecimalInjective(a: nat, b: nat)
    ensures DecimalString(a) == DecimalString(b) <==> a == b
  {
    DecimalRoundTrip(a);
    DecimalRoundTrip(b);
  }

  /** The longest prefix of `s` made of decimal digits: the number a reader sees at the start of a text. */
  function DigitPrefix(s: string): (p: string)
    ensures |p| <= |s| && p == s[..|p|]
    ensures AllDigits(p)
    ensures |p| < |s| ==> !IsDigit(s[|p|])
  {
    if s != [] && IsDigit(s[0]) then [s[0]] + DigitPrefix(s[1..]) else []
  }

  /** The number a reader sees at the start of a text: the value of its digit prefix. */
  function LeadingNumber(s: string): nat {
    DigitsValue(DigitPrefix(s))
  }

  /** Digits followed by a non-digit: the digit prefix is exactly those digits. */
  lemma {:induction false} DigitPrefixOfNumeral(d: string, t: string)
    requires AllDigits(d)
    requires t != [] && !IsDigit(t[0])
    ensures DigitPrefix(d + t) == d
  {
    if d != [] {
      assert (d + t)[1..] == d[1..] + t;
      DigitPrefixOfNumeral(d[1..], t);
    }
  }
}
