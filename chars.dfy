/** UTF-16 code units, the characters the decoder dispatches on, digit
    classification and the number conversions the decoder relies on
    (parseInt, String.fromCharCode, String.fromCodePoint). */
module Chars {

  /** One UTF-16 code unit: what indexing a JavaScript string yields. */
  type Unit16 = n: int | 0 <= n < 0x1_0000

  /** A JavaScript string: a sequence of UTF-16 code units. Lone surrogates are allowed. */
  type Str = seq<Unit16>

  const NUL: Unit16 := 0x00
  const BACKSPACE: Unit16 := 0x08
  const TAB: Unit16 := 0x09
  const LF: Unit16 := 0x0A
  const VTAB: Unit16 := 0x0B
  const FORM_FEED: Unit16 := 0x0C
  const CR: Unit16 := 0x0D
  const DOUBLE_QUOTE: Unit16 := 0x22
  const DOLLAR: Unit16 := 0x24
  const SINGLE_QUOTE: Unit16 := 0x27
  const DIGIT_0: Unit16 := 0x30
  const DIGIT_3: Unit16 := 0x33
  const DIGIT_4: Unit16 := 0x34
  const DIGIT_7: Unit16 := 0x37
  const DIGIT_8: Unit16 := 0x38
  const DIGIT_9: Unit16 := 0x39
  const BACKSLASH: Unit16 := 0x5C
  const BACKTICK: Unit16 := 0x60
  const LOWER_B: Unit16 := 0x62
  const LOWER_F: Unit16 := 0x66
  const LOWER_N: Unit16 := 0x6E
  const LOWER_R: Unit16 := 0x72
  const LOWER_T: Unit16 := 0x74
  const LOWER_U: Unit16 := 0x75
  const LOWER_V: Unit16 := 0x76
  const LOWER_X: Unit16 := 0x78
  const LEFT_BRACE: Unit16 := 0x7B
  const RIGHT_BRACE: Unit16 := 0x7D
  /** U+2028 LINE SEPARATOR */
  const LS: Unit16 := 0x2028
  /** U+2029 PARAGRAPH SEPARATOR */
  const PS: Unit16 := 0x2029

  /** The largest Unicode code point. */
  const MAX_CODE_POINT: nat := 0x10FFFF

  predicate IsDecimalDigit(c: Unit16) {
    DIGIT_0 <= c <= DIGIT_9
  }

  predicate IsOctalDigit(c: Unit16) {
    DIGIT_0 <= c <= DIGIT_7
  }

  /** `[0-9A-Fa-f]` */
  predicate IsHexDigit(c: Unit16) {
    IsDecimalDigit(c) || 0x41 <= c <= 0x46 || 0x61 <= c <= 0x66
  }

  /** The value of a hexadecimal digit character. */
  function DigitValue(c: Unit16): (d: nat)
    requires IsHexDigit(c)
    ensures d < 16
    ensures IsDecimalDigit(c) <==> d < 10
    ensures IsOctalDigit(c) <==> d < 8
  {
    if IsDecimalDigit(c) then c - DIGIT_0
    else if c <= 0x46 then c - 0x41 + 10
    else c - 0x61 + 10
  }

  /** The characters of `s` from `lo` up to (not including) `hi` are all
      digits of the given radix (radix at most 16). */
  predicate DigitsIn(s: Str, lo: nat, hi: nat, radix: nat) {
    lo <= hi <= |s| && forall k :: lo <= k < hi ==> IsHexDigit(s[k]) && DigitValue(s[k]) < radix
  }

  /** `/^[\dA-Fa-f]+$/.test(s)`: a non-empty string of hexadecimal digits. */
  predicate IsHexString(s: Str) {
    |s| > 0 && DigitsIn(s, 0, |s|, 16)
  }

  /** Testing a substring is testing the characters in place. */
  lemma IsHexSubstring(s: Str, lo: nat, hi: nat)
    requires lo <= hi <= |s|
    ensures IsHexString(s[lo..hi]) <==> lo < hi && DigitsIn(s, lo, hi, 16)
  {
    assert forall k :: lo <= k < hi ==> s[lo..hi][k - lo] == s[k];
  }

  function Pow(base: nat, n: nat): (p: nat)
    ensures base > 0 ==> p > 0
  {
    if n == 0 then 1 else base * Pow(base, n - 1)
  }

  /** The number that the digits `s[lo..hi]` denote in the given radix:
      `parseInt` of that substring, taken exactly. */
  function DigitsValue(s: Str, lo: nat, hi: nat, radix: nat): nat
    requires DigitsIn(s, lo, hi, radix)
    decreases hi
  {
    if hi == lo then 0
    else DigitsValue(s, lo, hi - 1, radix) * radix + DigitValue(s[hi - 1])
  }

  /** n digits denote a number below radix^n. */
  lemma {:induction false} DigitsValueBound(s: Str, lo: nat, hi: nat, radix: nat)
    requires DigitsIn(s, lo, hi, radix)
    ensures DigitsValue(s, lo, hi, radix) < Pow(radix, hi - lo)
    decreases hi
  {
    if hi > lo {
      DigitsValueBound(s, lo, hi - 1, radix);
      DigitStep(DigitsValue(s, lo, hi - 1, radix), Pow(radix, hi - 1 - lo), DigitValue(s[hi - 1]), radix);
    }
  }

  /** One more digit: below p before, below p * radix after. The
      inductive step of `DigitsValueBound`. */
  lemma DigitStep(v: nat, p: nat, d: nat, radix: nat)
    requires v < p && d < radix
    ensures v * radix + d < radix * p
  {
    MulMonotone(v, p - 1, radix);
    assert (p - 1) * radix == p * radix - radix;
  }

  /** Multiplying both sides by the same factor keeps `<=`; used by `DigitStep`. */
  lemma MulMonotone(a: nat, b: nat, c: nat)
    requires a <= b
    ensures a * c <= b * c
  {
  }

  /** `String.fromCharCode(n)` keeps ToUint16(n), the number modulo 2^16. */
  function ToUint16(n: nat): (u: Unit16)
    ensures n < 0x1_0000 ==> u == n
  {
    n % 0x1_0000
  }

  /** `String.fromCodePoint(cp)`: one code unit up to U+FFFF, otherwise the
      UTF-16 surrogate pair of section 2.1 of RFC 2781. */
  function FromCodePoint(cp: nat): (s: Str)
    requires cp <= MAX_CODE_POINT
    ensures cp <= 0xFFFF ==> s == [cp]
    ensures cp > 0xFFFF ==> |s| == 2 && IsHighSurrogate(s[0]) && IsLowSurrogate(s[1])
    ensures cp > 0xFFFF ==> PairCodePoint(s[0], s[1]) == cp
  {
    if cp <= 0xFFFF then [cp]
    else
      var u := cp - 0x1_0000;
      [0xD800 + u / 0x400, 0xDC00 + u % 0x400]
  }

  predicate IsHighSurrogate(c: Unit16) {
    0xD800 <= c <= 0xDBFF
  }

  predicate IsLowSurrogate(c: Unit16) {
    0xDC00 <= c <= 0xDFFF
  }

  /** Decoding a surrogate pair (section 2.2 of RFC 2781). */
  function PairCodePoint(high: Unit16, low: Unit16): (cp: nat)
    requires IsHighSurrogate(high) && IsLowSurrogate(low)
  {
    0x1_0000 + (high - 0xD800) * 0x400 + (low - 0xDC00)
  }

  /** Every surrogate pair is the encoding of exactly one supplementary code
      point: encoding the code point it decodes to gives the pair back. */
  lemma PairRoundTrip(high: Unit16, low: Unit16)
    requires IsHighSurrogate(high) && IsLowSurrogate(low)
    ensures 0xFFFF < PairCodePoint(high, low) <= MAX_CODE_POINT
    ensures FromCodePoint(PairCodePoint(high, low)) == [high, low]
  {
    var u := (high - 0xD800) * 0x400 + (low - 0xDC00);
    assert u / 0x400 == high - 0xD800 && u % 0x400 == low - 0xDC00;
  }
}
