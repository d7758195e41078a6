/** What each form of escape decodes to, stated over the input: `b` is the
    offset of the backslash. */
module EscapeProperties {
  import opened Chars
  import opened Results
  import opened CodeUnits
  import opened Escapes

  /** A backslash as the last character fails at the backslash. */
  lemma TrailingBackslash(source: Str, b: nat, allowOctal: bool)
    requires b + 1 == |source| && source[b] == BACKSLASH
    ensures MapEscape(source, b, allowOctal) == Err(ParseError(b, MSG_TRAILING_BACKSLASH))
  {
  }

  /** `\b \f \n \r \t \v` give one unit holding the control character. */
  lemma SimpleEscapes(source: Str, b: nat, allowOctal: bool)
    requires b + 1 < |source| && source[b] == BACKSLASH
    requires source[b + 1] in {LOWER_B, LOWER_F, LOWER_N, LOWER_R, LOWER_T, LOWER_V}
    ensures var c := source[b + 1];
      var control :=
        if c == LOWER_B then BACKSPACE else if c == LOWER_F then FORM_FEED
        else if c == LOWER_N then LF else if c == LOWER_R then CR
        else if c == LOWER_T then TAB else VTAB;
      MapEscape(source, b, allowOctal) == Ok(Mapped([CodeUnit([control], b, [BACKSLASH, c], None)], b + 2, None))
  {
    assert source[b..b + 2] == [BACKSLASH, source[b + 1]];
  }

  /** The value of one to four digits, digit by digit. */
  lemma {:induction false} DigitsValueDigits(s: Str, lo: nat, hi: nat, radix: nat)
    requires DigitsIn(s, lo, hi, radix) && 1 <= hi - lo <= 4
    ensures hi - lo == 1 ==> DigitsValue(s, lo, hi, radix) == DigitValue(s[lo])
    ensures hi - lo == 2 ==> DigitsValue(s, lo, hi, radix) == DigitValue(s[lo]) * radix + DigitValue(s[lo + 1])
    ensures hi - lo == 3 ==>
      DigitsValue(s, lo, hi, radix) == (DigitValue(s[lo]) * radix + DigitValue(s[lo + 1])) * radix + DigitValue(s[lo + 2])
    ensures hi - lo == 4 ==>
      DigitsValue(s, lo, hi, radix) ==
        ((DigitValue(s[lo]) * radix + DigitValue(s[lo + 1])) * radix + DigitValue(s[lo + 2])) * radix + DigitValue(s[lo + 3])
    decreases hi
  {
    if hi - lo > 1 {
      DigitsValueDigits(s, lo, hi - 1, radix);
    }
  }

  /** Three octal digits led by 0-3, or at most two octal digits, denote a
      number that fits in a byte. */
  lemma OctalByteBound(s: Str, lo: nat, hi: nat)
    requires DigitsIn(s, lo, hi, 8) && 1 <= hi - lo <= 3
    requires hi - lo == 3 ==> DigitValue(s[lo]) <= 3
    ensures DigitsValue(s, lo, hi, 8) <= 255
  {
    DigitsValueDigits(s, lo, hi, 8);
  }

  /** `readHexSequence(reader, length)` reads exactly when the `length`
      characters at `pos` form a hex string, and up to four digits never
      wrap in `String.fromCharCode`: the unit is their value. */
  lemma HexSequenceExact(source: Str, pos: nat, length: nat)
    requires length <= 4
    ensures var r := HexSequence(source, pos, length);
      (r.Ok? <==> pos + length <= |source| && IsHexString(source[pos..pos + length])) &&
      (r.Err? ==> r.error == InvalidEscapeSequence(pos - 1)) &&
      (r.Ok? ==> r.value.str == [DigitsValue(source, pos, pos + length, 16)] && r.value.next == pos + length)
  {
    if pos + length <= |source| {
      IsHexSubstring(source, pos, pos + length);
      if length > 0 && DigitsIn(source, pos, pos + length, 16) {
        DigitsValueBound(source, pos, pos + length, 16);
        assert Pow(16, 1) == 16 && Pow(16, 2) == 256 && Pow(16, 3) == 4096 && Pow(16, 4) == 0x1_0000;
      }
    }
  }

  /** `\xHH`: exactly two hexadecimal digits give one unit with their value
      and the four-character source; otherwise an error at the `x`. */
  lemma HexEscape(source: Str, b: nat, allowOctal: bool)
    requires b + 1 < |source| && source[b] == BACKSLASH && source[b + 1] == LOWER_X
    ensures var r := MapEscape(source, b, allowOctal);
      (r.Ok? <==> b + 4 <= |source| && IsHexDigit(source[b + 2]) && IsHexDigit(source[b + 3])) &&
      (r.Err? ==> r.error == InvalidEscapeSequence(b + 1)) &&
      (r.Ok? ==> r.value == Mapped([CodeUnit([16 * DigitValue(source[b + 2]) + DigitValue(source[b + 3])], b, source[b..b + 4], None)], b + 4, None))
  {
    if b + 4 <= |source| && IsHexDigit(source[b + 2]) && IsHexDigit(source[b + 3]) {
      DigitsValueDigits(source, b + 2, b + 4, 16);
    }
  }

  /** `\uHHHH` (no brace): exactly four hexadecimal digits give one unit with
      their value and the six-character source; otherwise an error at the `u`. */
  lemma FourDigitUnicodeEscape(source: Str, b: nat, allowOctal: bool)
    requires b + 1 < |source| && source[b] == BACKSLASH && source[b + 1] == LOWER_U
    requires !(b + 2 < |source| && source[b + 2] == LEFT_BRACE)
    ensures var r := MapEscape(source, b, allowOctal);
      (r.Ok? <==> b + 6 <= |source| && forall k :: b + 2 <= k < b + 6 ==> IsHexDigit(source[k])) &&
      (r.Err? ==> r.error == InvalidEscapeSequence(b + 1)) &&
      (r.Ok? ==> r.value == Mapped([CodeUnit([4096 * DigitValue(source[b + 2]) + 256 * DigitValue(source[b + 3]) +
                                                16 * DigitValue(source[b + 4]) + DigitValue(source[b + 5])],
                                             b, source[b..b + 6], None)], b + 6, None))
  {
    if b + 6 <= |source| && forall k :: b + 2 <= k < b + 6 ==> IsHexDigit(source[k]) {
      DigitsValueDigits(source, b + 2, b + 6, 16);
    }
  }

  /** `\u{…}`: one or more hexadecimal digits closed by `}` with a value of
      at most U+10FFFF give one untagged unit (up to U+FFFF) or a
      `high`/`low` surrogate pair sharing start and source, and mark
      `codePointEscape`; every other braced form fails at the `u`. */
  lemma BracedUnicodeEscape(source: Str, b: nat, allowOctal: bool)
    requires b + 2 < |source| && source[b] == BACKSLASH && source[b + 1] == LOWER_U && source[b + 2] == LEFT_BRACE
    ensures var j := HexRunEnd(source, b + 3);
      var r := MapEscape(source, b, allowOctal);
      if b + 3 < j < |source| && source[j] == RIGHT_BRACE && DigitsValue(source, b + 3, j, 16) <= MAX_CODE_POINT then
        var cp := DigitsValue(source, b + 3, j, 16);
        r.Ok? && r.value.next == j + 1 && r.value.feature == Some(CodePointEscape) &&
        (cp <= 0xFFFF ==> r.value.units == [CodeUnit([cp], b, source[b..j + 1], None)]) &&
        (cp > 0xFFFF ==>
          |r.value.units| == 2 &&
          var high := r.value.units[0];
          var low := r.value.units[1];
          high.surrogate == Some(HIGH) && low.surrogate == Some(LOW) &&
          high.start == low.start == b && high.source == low.source == source[b..j + 1] &&
          |high.character| == 1 && |low.character| == 1 &&
          IsHighSurrogate(high.character[0]) && IsLowSurrogate(low.character[0]) &&
          PairCodePoint(high.character[0], low.character[0]) == cp)
      else
        r == Err(InvalidEscapeSequence(b + 1))
  {
  }

  /** A backslash before LF, CR, CR LF, U+2028 or U+2029 is a line
      continuation: no unit, no feature; CR LF is consumed whole. */
  lemma LineContinuation(source: Str, b: nat, allowOctal: bool)
    requires b + 1 < |source| && source[b] == BACKSLASH && source[b + 1] in {LF, CR, LS, PS}
    ensures MapEscape(source, b, allowOctal) ==
      Ok(Mapped([], if source[b + 1] == CR && b + 2 < |source| && source[b + 2] == LF then b + 3 else b + 2, None))
  {
  }

  /** `\0` not followed by a decimal digit is NUL, with no feature, also
      where octal escapes are not allowed. */
  lemma NulEscape(source: Str, b: nat, allowOctal: bool)
    requires b + 1 < |source| && source[b] == BACKSLASH && source[b + 1] == DIGIT_0
    requires !(b + 2 < |source| && IsDecimalDigit(source[b + 2]))
    ensures MapEscape(source, b, allowOctal) == Ok(Mapped([CodeUnit([NUL], b, [BACKSLASH, DIGIT_0], None)], b + 2, None))
  {
    assert source[b..b + 2] == [BACKSLASH, DIGIT_0];
  }

  /** The units of an escape the decoder reads at `b + 1`. */
  lemma MapDecoded(source: Str, b: nat, allowOctal: bool, esc: Escape)
    requires DecodeEscape(source, b + 1, allowOctal) == Ok(esc)
    ensures esc.next <= |source|
    ensures MapEscape(source, b, allowOctal) == Ok(Mapped(EscapeUnits(esc.str, b, source[b..esc.next]), esc.next, esc.feature))
  {
  }

  /** An allowed octal read of at most `maxLength` digits from the digit
      before `pos`: one code unit, the octal value of the run, which fits in
      a byte. */
  lemma OctalSequenceValue(source: Str, pos: nat, maxLength: nat) returns (n: nat)
    requires 1 <= pos <= |source| && IsOctalDigit(source[pos - 1])
    requires maxLength == 2 || (maxLength == 3 && source[pos - 1] <= DIGIT_3)
    ensures n == OctalRun(source, pos - 1, maxLength) && n >= 1
    ensures DigitsValue(source, pos - 1, pos - 1 + n, 8) <= 255
    ensures OctalSequence(source, pos, true, maxLength) == Ok(Escape([DigitsValue(source, pos - 1, pos - 1 + n, 8)], pos - 1 + n, None))
  {
    n := OctalRun(source, pos - 1, maxLength);
    OctalByteBound(source, pos - 1, pos - 1 + n);
  }

  /** What the decoder reads at an octal digit `0`-`3` that is not a lone `\0`. */
  lemma DecodeOctalLow(source: Str, pos: nat, allowOctal: bool)
    requires pos < |source| && DIGIT_0 <= source[pos] <= DIGIT_3
    requires !(source[pos] == DIGIT_0 && !(pos + 1 < |source| && IsDecimalDigit(source[pos + 1])))
    ensures DecodeEscape(source, pos, allowOctal) == WithFeature(OctalSequence(source, pos + 1, allowOctal, 3), OctalEscape)
  {
  }

  /** What the decoder reads at an octal digit `4`-`7`. */
  lemma DecodeOctalHigh(source: Str, pos: nat, allowOctal: bool)
    requires pos < |source| && DIGIT_4 <= source[pos] <= DIGIT_7
    ensures DecodeEscape(source, pos, allowOctal) == WithFeature(OctalSequence(source, pos + 1, allowOctal, 2), OctalEscape)
  {
  }

  /** The escape an allowed legacy octal escape decodes to. */
  lemma OctalEscapeDecoded(source: Str, b: nat) returns (esc: Escape, maxLength: nat)
    requires b + 1 < |source| && source[b] == BACKSLASH && IsOctalDigit(source[b + 1])
    requires !(source[b + 1] == DIGIT_0 && !(b + 2 < |source| && IsDecimalDigit(source[b + 2])))
    ensures maxLength == if source[b + 1] <= DIGIT_3 then 3 else 2
    ensures var n := OctalRun(source, b + 1, maxLength);
      n >= 1 && DigitsValue(source, b + 1, b + 1 + n, 8) <= 255 &&
      esc == Escape([DigitsValue(source, b + 1, b + 1 + n, 8)], b + 1 + n, Some(OctalEscape))
    ensures DecodeEscape(source, b + 1, true) == Ok(esc)
  {
    if source[b + 1] <= DIGIT_3 {
      maxLength := 3;
      DecodeOctalLow(source, b + 1, true);
    } else {
      maxLength := 2;
      DecodeOctalHigh(source, b + 1, true);
    }
    var n := OctalSequenceValue(source, b + 2, maxLength);
    esc := Escape([DigitsValue(source, b + 1, b + 1 + n, 8)], b + 1 + n, Some(OctalEscape));
  }

  /** Any other escape starting with an octal digit is a legacy octal
      escape: it reads the longest run of octal digits, at most 3 after a
      leading `0`–`3` and at most 2 after `4`–`7`, gives one unit with their
      octal value and marks `octalEscape`. */
  lemma LegacyOctalEscape(source: Str, b: nat)
    requires b + 1 < |source| && source[b] == BACKSLASH && IsOctalDigit(source[b + 1])
    requires !(source[b + 1] == DIGIT_0 && !(b + 2 < |source| && IsDecimalDigit(source[b + 2])))
    ensures var r := MapEscape(source, b, true);
      r.Ok? &&
      var next := r.value.next;
      var maxLength := if source[b + 1] <= DIGIT_3 then 3 else 2;
      b + 2 <= next <= b + 1 + maxLength &&
      (forall k :: b + 1 <= k < next ==> IsOctalDigit(source[k])) &&
      (next < b + 1 + maxLength && next < |source| ==> !IsOctalDigit(source[next])) &&
      r.value.feature == Some(OctalEscape) &&
      DigitsValue(source, b + 1, next, 8) <= 255 &&
      r.value.units == [CodeUnit([DigitsValue(source, b + 1, next, 8)], b, source[b..next], None)]
  {
    var esc, maxLength := OctalEscapeDecoded(source, b);
    MapDecoded(source, b, true, esc);
  }

  /** Where octal escapes are not allowed (template tokens), every legacy
      octal escape and `\8`/`\9` fails at the digit after the backslash, while
      `\0` not followed by a decimal digit is still NUL. */
  lemma OctalEscapeDisallowed(source: Str, b: nat)
    requires b + 1 < |source| && source[b] == BACKSLASH && IsDecimalDigit(source[b + 1])
    requires !(source[b + 1] == DIGIT_0 && !(b + 2 < |source| && IsDecimalDigit(source[b + 2])))
    ensures MapEscape(source, b, false) == Err(InvalidEscapeSequence(b + 1))
  {
    if DIGIT_0 <= source[b + 1] <= DIGIT_3 {
      DecodeOctalLow(source, b + 1, false);
    } else if DIGIT_4 <= source[b + 1] <= DIGIT_7 {
      DecodeOctalHigh(source, b + 1, false);
    }
  }

  /** `\8` and `\9`: where octal escapes are allowed, the digit itself with
      `octalEscape` marked; otherwise an error at the digit. */
  lemma NonOctalDecimalEscape(source: Str, b: nat, allowOctal: bool)
    requires b + 1 < |source| && source[b] == BACKSLASH && source[b + 1] in {DIGIT_8, DIGIT_9}
    ensures var r := MapEscape(source, b, allowOctal);
      (!allowOctal ==> r == Err(InvalidEscapeSequence(b + 1))) &&
      (allowOctal ==> r == Ok(Mapped([CodeUnit([source[b + 1]], b, [BACKSLASH, source[b + 1]], None)], b + 2, Some(OctalEscape))))
  {
    assert source[b..b + 2] == [BACKSLASH, source[b + 1]];
  }

  /** Every other character after a backslash stands for itself. */
  lemma IdentityEscape(source: Str, b: nat, allowOctal: bool)
    requires b + 1 < |source| && source[b] == BACKSLASH
    requires source[b + 1] !in {LOWER_B, LOWER_F, LOWER_N, LOWER_R, LOWER_T, LOWER_V, LOWER_X, LOWER_U, LF, CR, LS, PS}
    requires !IsDecimalDigit(source[b + 1])
    ensures MapEscape(source, b, allowOctal) == Ok(Mapped([CodeUnit([source[b + 1]], b, [BACKSLASH, source[b + 1]], None)], b + 2, None))
  {
    assert source[b..b + 2] == [BACKSLASH, source[b + 1]];
  }
}
