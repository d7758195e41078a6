/** The escape decoder of lib/parse.js as functions of the input and the
    cursor: what `readEscapeSequenceOrLineContinuation` and its helpers
    return and where they leave the cursor, and how
    `mapEscapeSequenceOrLineContinuation` turns that into code units. The
    grammar is that of section 12.9.4 (String Literals, with
    LegacyOctalEscapeSequence and NonOctalDecimalEscapeSequence) and section
    12.9.6 (Template Literal Lexical Components) of ECMA-262, 2022 edition. */
module Escapes {
  import opened Chars
  import opened Results
  import opened CodeUnits

  /** The names of the used-feature flags. */
  datatype Feature = CodePointEscape | LineTerminator | OctalEscape

  /** The used-features summary of a string literal. */
  datatype Features = Features(codePointEscape: bool, lineTerminator: bool, octalEscape: bool)

  const NO_FEATURES := Features(false, false, false)

  /** `usedFeatures[name] = true`: sets one flag and keeps the others. */
  function Mark(f: Features, name: Feature): (r: Features)
    ensures r.codePointEscape == (f.codePointEscape || name == CodePointEscape)
    ensures r.lineTerminator == (f.lineTerminator || name == LineTerminator)
    ensures r.octalEscape == (f.octalEscape || name == OctalEscape)
  {
    match name
    case CodePointEscape => f.(codePointEscape := true)
    case LineTerminator => f.(lineTerminator := true)
    case OctalEscape => f.(octalEscape := true)
  }

  /** Marks the flag an escape used, if any. */
  function MarkUsed(f: Features, used: Option<Feature>): Features {
    if used.Some? then Mark(f, used.value) else f
  }

  /** `SIMPLE_ESCAPE_SEQUENCES[c]`: the control character of `\b \f \n \r \t \v`. */
  function SimpleEscape(c: Unit16): (r: Option<Unit16>)
    ensures r.Some? <==> c in {LOWER_B, LOWER_F, LOWER_N, LOWER_R, LOWER_T, LOWER_V}
    ensures r.Some? ==> r.value in {BACKSPACE, FORM_FEED, LF, CR, TAB, VTAB}
  {
    if c == LOWER_B then Some(BACKSPACE)
    else if c == LOWER_F then Some(FORM_FEED)
    else if c == LOWER_N then Some(LF)
    else if c == LOWER_R then Some(CR)
    else if c == LOWER_T then Some(TAB)
    else if c == LOWER_V then Some(VTAB)
    else None
  }

  /** What a reader returns: the decoded string, the cursor after it, and
      the used-feature flag it marks, if any. */
  datatype Escape = Escape(str: Str, next: nat, feature: Option<Feature>)

  /** `readHexSequence(reader, length)`, the cursor `pos` on the first digit:
      `length` characters that form a hex string (IsHexSubstring), else an
      error at the character before them (the `x` or `u`). */
  function HexSequence(source: Str, pos: nat, length: nat): (r: Result<Escape>)
    ensures r.Ok? ==> r.value.next == pos + length <= |source| && |r.value.str| == 1 && r.value.feature == None
  {
    if pos + length <= |source| && length > 0 && DigitsIn(source, pos, pos + length, 16) then
      Ok(Escape([ToUint16(DigitsValue(source, pos, pos + length, 16))], pos + length, None))
    else
      Err(InvalidEscapeSequence(pos - 1))
  }

  /** The end of the run of hexadecimal digits that starts at `i`. */
  function HexRunEnd(source: Str, i: nat): (j: nat)
    requires i <= |source|
    ensures i <= j <= |source|
    ensures DigitsIn(source, i, j, 16)
    ensures j < |source| ==> !IsHexDigit(source[j])
    decreases |source| - i
  {
    if i == |source| || !IsHexDigit(source[i]) then i
    else HexRunEnd(source, i + 1)
  }

  /** A maximal run of hexadecimal digits ends where HexRunEnd says. */
  lemma HexRunEndIsMaximalRun(source: Str, i: nat, j: nat)
    requires DigitsIn(source, i, j, 16)
    requires j < |source| ==> !IsHexDigit(source[j])
    ensures HexRunEnd(source, i) == j
  {
  }

  /** `readUnicodeSequence(reader, usedFeatures)`, the cursor `pos` just past
      the `u`: `{`, one or more hex digits and `}` form a code-point escape
      (at most U+10FFFF); anything else is read as four hex digits. */
  function UnicodeSequence(source: Str, pos: nat): (r: Result<Escape>)
    ensures r.Ok? ==> pos < r.value.next <= |source| && 1 <= |r.value.str| <= 2
    ensures r.Ok? && |r.value.str| == 2 ==>
      IsHighSurrogate(r.value.str[0]) && IsLowSurrogate(r.value.str[1]) && r.value.feature == Some(CodePointEscape)
  {
    if pos < |source| && source[pos] == LEFT_BRACE then
      var j := HexRunEnd(source, pos + 1);
      if pos + 1 < j < |source| && source[j] == RIGHT_BRACE then
        var cp := DigitsValue(source, pos + 1, j, 16);
        if cp > MAX_CODE_POINT then Err(InvalidEscapeSequence(pos - 1))
        else Ok(Escape(FromCodePoint(cp), j + 1, Some(CodePointEscape)))
      else HexSequence(source, pos, 4)
    else HexSequence(source, pos, 4)
  }

  /** The number of octal digits, at most `maxLength`, from `i` on. */
  function OctalRun(source: Str, i: nat, maxLength: nat): (n: nat)
    requires i <= |source|
    ensures n <= maxLength && i + n <= |source|
    ensures DigitsIn(source, i, i + n, 8)
    ensures n < maxLength && i + n < |source| ==> !IsOctalDigit(source[i + n])
    decreases maxLength
  {
    if maxLength == 0 || i == |source| || !IsOctalDigit(source[i]) then 0
    else 1 + OctalRun(source, i + 1, maxLength - 1)
  }

  /** A run of octal digits that stops at `maxLength` or at a non-octal
      character has the length OctalRun says. */
  lemma OctalRunIsMaximalRun(source: Str, i: nat, maxLength: nat, n: nat)
    requires n <= maxLength && DigitsIn(source, i, i + n, 8)
    requires n < maxLength && i + n < |source| ==> !IsOctalDigit(source[i + n])
    ensures OctalRun(source, i, maxLength) == n
  {
  }

  /** `readOctalSequence(reader, allowOctalSequence, maxLength)`, the cursor
      `pos` just past the first digit: fails at that digit when octal escapes
      are not allowed, else reads the longest run of at most `maxLength`
      octal digits. */
  function OctalSequence(source: Str, pos: nat, allowOctal: bool, maxLength: nat): (r: Result<Escape>)
    requires 1 <= pos <= |source| && IsOctalDigit(source[pos - 1]) && maxLength >= 1
    ensures r.Ok? ==> pos <= r.value.next <= |source| && |r.value.str| == 1
  {
    var digitPos := pos - 1;
    if !allowOctal then Err(InvalidEscapeSequence(digitPos))
    else
      var n := OctalRun(source, digitPos, maxLength);
      Ok(Escape([ToUint16(DigitsValue(source, digitPos, digitPos + n, 8))], digitPos + n, None))
  }

  /** Records that a successful read used the given feature. */
  function WithFeature(r: Result<Escape>, name: Feature): Result<Escape>
  {
    match r
    case Ok(e) => Ok(e.(feature := Some(name)))
    case Err(e) => Err(e)
  }

  /** `readEscapeSequenceOrLineContinuation(reader, allowOctalSequence,
      usedFeatures)`, the cursor `pos` just past the backslash: the decoded
      string has 0 (a line continuation), 1 or 2 (a surrogate pair) units and
      the cursor moves past the escape. */
  function DecodeEscape(source: Str, pos: nat, allowOctal: bool): (r: Result<Escape>)
    ensures r.Ok? ==> pos < r.value.next <= |source| && |r.value.str| <= 2
    ensures r.Ok? && |r.value.str| == 2 ==>
      IsHighSurrogate(r.value.str[0]) && IsLowSurrogate(r.value.str[1]) && r.value.feature == Some(CodePointEscape)
  {
    if pos >= |source| then Err(ParseError(pos - 1, MSG_TRAILING_BACKSLASH))
    else
      var c := source[pos];
      if SimpleEscape(c).Some? then Ok(Escape([SimpleEscape(c).value], pos + 1, None))
      else if c == LOWER_X then HexSequence(source, pos + 1, 2)
      else if c == LOWER_U then UnicodeSequence(source, pos + 1)
      else if c == CR then
        Ok(Escape([], if pos + 1 < |source| && source[pos + 1] == LF then pos + 2 else pos + 1, None))
      else if c == LF || c == LS || c == PS then Ok(Escape([], pos + 1, None))
      else if c == DIGIT_0 && !(pos + 1 < |source| && IsDecimalDigit(source[pos + 1])) then
        Ok(Escape([NUL], pos + 1, None))
      else if DIGIT_0 <= c <= DIGIT_3 then WithFeature(OctalSequence(source, pos + 1, allowOctal, 3), OctalEscape)
      else if DIGIT_4 <= c <= DIGIT_7 then WithFeature(OctalSequence(source, pos + 1, allowOctal, 2), OctalEscape)
      else if c == DIGIT_8 || c == DIGIT_9 then
        if !allowOctal then Err(InvalidEscapeSequence(pos))
        else Ok(Escape([c], pos + 1, Some(OctalEscape)))
      else Ok(Escape([c], pos + 1, None))
  }

  /** The units of one escape (`mapEscapeSequenceOrLineContinuation`): none
      for an empty string, one untagged unit for one character, and a
      `high`/`low` pair sharing `start` and `source` for two. */
  function EscapeUnits(str: Str, start: int, source: Str): seq<CodeUnit> {
    if |str| == 0 then []
    else if |str| == 1 then [CreateCodeUnit(str, start, source)]
    else [CreateCodeUnit([str[0]], start, source, Some(HIGH)), CreateCodeUnit([str[1]], start, source, Some(LOW))]
  }

  /** The code units of an escape, the cursor after it and the feature it
      used. */
  datatype Mapped = Mapped(units: seq<CodeUnit>, next: nat, feature: Option<Feature>)

  /** `mapEscapeSequenceOrLineContinuation(reader, allowOctalSequence,
      usedFeatures)` with the cursor `start` on the backslash. */
  function MapEscape(source: Str, start: nat, allowOctal: bool): (r: Result<Mapped>)
    ensures r.Ok? ==> start + 1 < r.value.next <= |source| && |r.value.units| <= 2
  {
    match DecodeEscape(source, start + 1, allowOctal)
    case Err(e) => Err(e)
    case Ok(esc) => Ok(Mapped(EscapeUnits(esc.str, start, source[start..esc.next]), esc.next, esc.feature))
  }
}
