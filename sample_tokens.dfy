/** Concrete tokens and what the scanners make of them. Character codes:
    `a` 0x61, `f` 0x66, `o` 0x6F, `z` 0x7A. */
module SampleTokens {
  import opened Chars
  import opened Results
  import opened CodeUnits
  import opened Escapes
  import opened Scanners
  import EscapeProperties

  /** `""` has no code units and no used features. */
  lemma EmptyStringLiteral()
    ensures StringLiteral([DOUBLE_QUOTE, DOUBLE_QUOTE]) == Ok(ParsedString([], NO_FEATURES))
  {
  }

  /** `"\08"`: the `0` is followed by a decimal digit, so it starts an octal
      escape; the run of octal digits is the `0` alone and the `8` is raw. */
  lemma OctalEscapeBeforeEight()
    ensures StringLiteral([DOUBLE_QUOTE, BACKSLASH, DIGIT_0, DIGIT_8, DOUBLE_QUOTE]) ==
      Ok(ParsedString([CodeUnit([NUL], 1, [BACKSLASH, DIGIT_0], None), CodeUnit([DIGIT_8], 3, [DIGIT_8], None)],
                      Features(false, false, true)))
  {
    var s: Str := [DOUBLE_QUOTE, BACKSLASH, DIGIT_0, DIGIT_8, DOUBLE_QUOTE];
    var u1 := CodeUnit([NUL], 1, [BACKSLASH, DIGIT_0], None);
    var u2 := CodeUnit([DIGIT_8], 3, [DIGIT_8], None);
    OctalEscapeAt(s, 1, 3, 3, NUL);
    assert s[1..3] == u1.source;
    assert [] + [u1] == [u1] && [u1] + [u2] == [u1, u2];
    assert ScanString(s, DOUBLE_QUOTE, 3, [u1], Features(false, false, true)) ==
      Ok(ParsedString([u1, u2], Features(false, false, true)));
  }

  /** An allowed octal escape at `b` whose run of `n` digits, limited by
      `maxLength`, has the given value. */
  lemma OctalEscapeAt(s: Str, b: nat, maxLength: nat, next: nat, value: Unit16)
    requires b + 1 < |s| && s[b] == BACKSLASH && IsOctalDigit(s[b + 1])
    requires !(s[b + 1] == DIGIT_0 && !(b + 2 < |s| && IsDecimalDigit(s[b + 2])))
    requires maxLength == if s[b + 1] <= DIGIT_3 then 3 else 2
    requires b + 1 < next <= b + 1 + maxLength && OctalRun(s, b + 1, maxLength) == next - b - 1
    requires DigitsValue(s, b + 1, next, 8) == value
    ensures MapEscape(s, b, true) == Ok(Mapped([CodeUnit([value], b, s[b..next], None)], next, Some(OctalEscape)))
  {
    var esc, _ := EscapeProperties.OctalEscapeDecoded(s, b);
    EscapeProperties.MapDecoded(s, b, true, esc);
  }

  /** `'foo` is unterminated; the error is at 0. */
  lemma UnterminatedStringLiteral()
    ensures StringLiteral([SINGLE_QUOTE, 0x66, 0x6F, 0x6F]) == Err(ParseError(0, MSG_UNTERMINATED))
  {
    var s: Str := [SINGLE_QUOTE, 0x66, 0x6F, 0x6F];
    var u1, u2, u3 := RawUnit(s, 1), RawUnit(s, 2), RawUnit(s, 3);
    assert [] + [u1] == [u1] && [u1] + [u2] == [u1, u2] && [u1, u2] + [u3] == [u1, u2, u3];
    assert ScanString(s, SINGLE_QUOTE, 2, [u1], NO_FEATURES) == ScanString(s, SINGLE_QUOTE, 4, [u1, u2, u3], NO_FEATURES);
  }

  /** `"a"z"`: the literal ends at the second quote and `z` is past its end. */
  lemma CharacterPastEndOfString()
    ensures StringLiteral([DOUBLE_QUOTE, 0x61, DOUBLE_QUOTE, 0x7A, DOUBLE_QUOTE]) == Err(ParseError(3, MSG_PAST_END))
  {
    var s: Str := [DOUBLE_QUOTE, 0x61, DOUBLE_QUOTE, 0x7A, DOUBLE_QUOTE];
    assert [] + [RawUnit(s, 1)] == [RawUnit(s, 1)];
    assert ScanString(s, DOUBLE_QUOTE, 2, [RawUnit(s, 1)], NO_FEATURES) == Err(ParseError(3, MSG_PAST_END));
  }

  /** `"foo\`: the trailing backslash is at 4. */
  lemma TrailingBackslashInString()
    ensures StringLiteral([DOUBLE_QUOTE, 0x66, 0x6F, 0x6F, BACKSLASH]) == Err(ParseError(4, MSG_TRAILING_BACKSLASH))
  {
    var s: Str := [DOUBLE_QUOTE, 0x66, 0x6F, 0x6F, BACKSLASH];
    var u1, u2, u3 := RawUnit(s, 1), RawUnit(s, 2), RawUnit(s, 3);
    assert [] + [u1] == [u1] && [u1] + [u2] == [u1, u2] && [u1, u2] + [u3] == [u1, u2, u3];
    assert MapEscape(s, 4, true) == Err(ParseError(4, MSG_TRAILING_BACKSLASH));
    assert ScanString(s, DOUBLE_QUOTE, 2, [u1], NO_FEATURES) == ScanString(s, DOUBLE_QUOTE, 4, [u1, u2, u3], NO_FEATURES);
  }

  /** `` `\00` ``: no octal escape in a template, the error is at the first digit. */
  lemma OctalEscapeInTemplate()
    ensures TemplateToken([BACKTICK, BACKSLASH, DIGIT_0, DIGIT_0, BACKTICK]) == Err(InvalidEscapeSequence(2))
  {
  }

  /** `` `a\9` ``: neither is `\9`; the error is at the 9. */
  lemma NonOctalDecimalEscapeInTemplate()
    ensures TemplateToken([BACKTICK, 0x61, BACKSLASH, DIGIT_9, BACKTICK]) == Err(InvalidEscapeSequence(3))
  {
    var s: Str := [BACKTICK, 0x61, BACKSLASH, DIGIT_9, BACKTICK];
    assert [] + [RawUnit(s, 1)] == [RawUnit(s, 1)];
    assert MapEscape(s, 2, false) == Err(InvalidEscapeSequence(3));
    assert ScanTemplate(s, 2, [RawUnit(s, 1)]) == Err(InvalidEscapeSequence(3));
  }

  /** `` `a${z` ``: the token ends at `${` and `z` is past its end. */
  lemma CharacterPastEndOfTemplate()
    ensures TemplateToken([BACKTICK, 0x61, DOLLAR, LEFT_BRACE, 0x7A, BACKTICK]) == Err(ParseError(4, MSG_PAST_END))
  {
    var s: Str := [BACKTICK, 0x61, DOLLAR, LEFT_BRACE, 0x7A, BACKTICK];
    assert [] + [RawUnit(s, 1)] == [RawUnit(s, 1)];
    assert ScanTemplate(s, 2, [RawUnit(s, 1)]) == Err(ParseError(4, MSG_PAST_END));
  }
}
