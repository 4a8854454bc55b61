/**
 * String primitives of JavaScript that the chat UI relies on: the
 * whitespace class behind `String.prototype.trim` and the regular-expression
 * classes `\s` / `\S`, `trim` itself, `Number.prototype.toString()` for
 * non-negative integers, `padStart`, and `charAt(0).toUpperCase()`.
 */
module Text {

  /**
   * The ECMAScript WhiteSpace and LineTerminator code points (ECMA-262,
   * sections 12.2 and 12.3): what `trim` strips and what `\s` matches.
   */
  predicate IsWhitespace(c: char) {
    || c == '\t' || c == '\U{000B}' || c == '\U{000C}' || c == ' '
    || c == '\U{00A0}' || c == '\U{FEFF}'
    || c == '\U{1680}' || ('\U{2000}' <= c <= '\U{200A}')
    || c == '\U{202F}' || c == '\U{205F}' || c == '\U{3000}'
    || c == '\n' || c == '\r' || c == '\U{2028}' || c == '\U{2029}'
  }

  predicate AllWhitespace(s: string) {
    forall i :: 0 <= i < |s| ==> IsWhitespace(s[i])
  }

  /** The first index at or after `k` that is not whitespace (`|s|` when there is none). */
  function SkipLeading(s: string, k: nat): (j: nat)
    requires k <= |s|
    ensures k <= j <= |s|
    ensures forall i :: k <= i < j ==> IsWhitespace(s[i])
    ensures j < |s| ==> !IsWhitespace(s[j])
    decreases |s| - k
  {
    if k == |s| || !IsWhitespace(s[k]) then k else SkipLeading(s, k + 1)
  }

  /** The end of `s[k..j]` once its trailing whitespace is dropped. */
  function SkipTrailing(s: string, k: nat, j: nat): (e: nat)
    requires k <= j <= |s|
    ensures k <= e <= j
    ensures forall i :: e <= i < j ==> IsWhitespace(s[i])
    ensures e > k ==> !IsWhitespace(s[e - 1])
  {
    if j == k || !IsWhitespace(s[j - 1]) then j else SkipTrailing(s, k, j - 1)
  }

  /**
   * `s.trim()`: `s` without its leading and trailing whitespace, i.e. the
   * infix, starting where the leading whitespace ends, that is followed only
   * by whitespace and neither starts nor ends with whitespace. It is empty
   * exactly when `s` is whitespace only (the truthiness test `if (s.trim())`).
   */
  function Trim(s: string): (r: string)
    ensures SkipLeading(s, 0) + |r| <= |s|
    ensures r == s[SkipLeading(s, 0)..SkipLeading(s, 0) + |r|]
    ensures forall i :: SkipLeading(s, 0) + |r| <= i < |s| ==> IsWhitespace(s[i])
    ensures r == [] || (!IsWhitespace(r[0]) && !IsWhitespace(r[|r| - 1]))
    ensures r == [] <==> AllWhitespace(s)
  {
    var k := SkipLeading(s, 0);
    var e := SkipTrailing(s, k, |s|);
    assert e == k ==> AllWhitespace(s);
    s[k..e]
  }

  /** Trimming an already trimmed string changes nothing. */
  lemma TrimIdempotent(s: string)
    ensures Trim(Trim(s)) == Trim(s)
  {
    var r := Trim(s);
    if r != [] {
      assert SkipLeading(r, 0) == 0;
      assert SkipTrailing(r, 0, |r|) == |r|;
    }
  }

  predicate IsDigit(c: char) {
    '0' <= c <= '9'
  }

  predicate AllDigits(s: string) {
    forall i :: 0 <= i < |s| ==> IsDigit(s[i])
  }

  function DigitChar(d: nat): (c: char)
    requires d < 10
    ensures IsDigit(c)
  {
    ('0' as int + d) as char
  }

  function DigitValue(c: char): (d: nat)
    requires IsDigit(c)
    ensures d < 10 && DigitChar(d) == c
  {
    c as int - '0' as int
  }

  /** Reads a string of decimal digits as a number (most significant digit first). */
  function ParseDecimal(s: string): nat
    requires AllDigits(s)
  {
    if s == [] then 0 else ParseDecimal(s[..|s| - 1]) * 10 + DigitValue(s[|s| - 1])
  }

  /**
   * `n.toString()` for a non-negative integer: its shortest decimal
   * numeral, which has no leading zero unless it is "0".
   */
  function DecimalString(n: nat): (r: string)
    ensures |r| >= 1 && AllDigits(r)
    ensures r[0] == '0' ==> n == 0
  {
    if n < 10 then [DigitChar(n)] else DecimalString(n / 10) + [DigitChar(n % 10)]
  }

  /** Reading back the numeral of `n` gives `n`. */
  lemma {:induction false} ParseDecimalString(n: nat)
    ensures ParseDecimal(DecimalString(n)) == n
  {
    var r := DecimalString(n);
    if n >= 10 {
      ParseDecimalString(n / 10);
      assert r[..|r| - 1] == DecimalString(n / 10);
    }
  }

  /** The numeral of `n` has at most four digits exactly when `n` is below 10000. */
  lemma {:induction false} DecimalStringShort(n: nat)
    ensures |DecimalString(n)| <= 4 <==> n < 10000
  {
    if n >= 10 {
      DecimalStringShort3(n / 10);
    }
  }

  lemma {:induction false} DecimalStringShort3(n: nat)
    ensures |DecimalString(n)| <= 3 <==> n < 1000
  {
    if n >= 10 {
      DecimalStringShort2(n / 10);
    }
  }

  lemma {:induction false} DecimalStringShort2(n: nat)
    ensures |DecimalString(n)| <= 2 <==> n < 100
  {
    if n >= 10 {
      assert |DecimalString(n / 10)| <= 1 <==> n / 10 < 10;
    }
  }

  function Repeat(c: char, k: nat): (r: string)
    ensures |r| == k && forall i :: 0 <= i < k ==> r[i] == c
  {
    if k == 0 then [] else [c] + Repeat(c, k - 1)
  }

  /**
   * `s.padStart(width, fill)` with a one-character `fill`: `s` itself when
   * it is already `width` long, otherwise `s` behind enough copies of `fill`.
   */
  function PadStart(s: string, width: nat, fill: char): (r: string)
    ensures |s| >= width ==> r == s
    ensures |s| < width ==> |r| == width && r[width - |s|..] == s
                            && forall i :: 0 <= i < width - |s| ==> r[i] == fill
  {
    if |s| >= width then s else Repeat(fill, width - |s|) + s
  }

  lemma {:induction false} ParseZeros(k: nat)
    ensures AllDigits(Repeat('0', k)) && ParseDecimal(Repeat('0', k)) == 0
  {
    if k > 0 {
      ParseZeros(k - 1);
      var z := Repeat('0', k);
      assert z[..k - 1] == Repeat('0', k - 1);
    }
  }

  /** Leading zeros do not change the value of a numeral. */
  lemma {:induction false} ParseLeadingZeros(k: nat, s: string)
    requires AllDigits(s)
    ensures AllDigits(Repeat('0', k) + s)
    ensures ParseDecimal(Repeat('0', k) + s) == ParseDecimal(s)
  {
    var z := Repeat('0', k);
    if s == [] {
      ParseZeros(k);
      assert z + s == z;
    } else {
      var init := s[..|s| - 1];
      ParseLeadingZeros(k, init);
      assert (z + s)[..|z + s| - 1] == z + init;
    }
  }

  /** `c.toUpperCase()` for one character; only the ASCII letters change. */
  function ToUpper(c: char): (u: char)
    ensures 'a' <= c <= 'z' ==> 'A' <= u <= 'Z' && u as int - c as int == 'A' as int - 'a' as int
    ensures !('a' <= c <= 'z') ==> u == c
  {
    if 'a' <= c <= 'z' then (c as int - 'a' as int + 'A' as int) as char else c
  }

  /** `s.charAt(0).toUpperCase()`: empty for an empty string, else one upper-cased character. */
  function Initial(s: string): (r: string)
    ensures s == [] ==> r == []
    ensures s != [] ==> r == [ToUpper(s[0])]
  {
    if s == [] then [] else [ToUpper(s[0])]
  }
}
