/** The imperative core of lib/parse.js: a reader whose cursor the `read*`
    methods advance, the `usedFeatures` dictionary they mark, and the two
    scanners, each a loop proved to compute the scanner functions of module
    Scanners. */
module Parse {
  import opened Chars
  import opened Results
  import opened CodeUnits
  import opened Escapes
  import opened Scanners

  /** The `usedFeatures` dictionary, updated in place by `markUsedFeature`. */
  class UsedFeatures {
    var codePointEscape: bool
    var lineTerminator: bool
    var octalEscape: bool

    /** `{ codePointEscape: false, lineTerminator: false, octalEscape: false }` */
    constructor ()
      ensures Value() == NO_FEATURES
    {
      codePointEscape, lineTerminator, octalEscape := false, false, false;
    }

    /** The flags as a value. */
    function Value(): Features
      reads this
    {
      Features(codePointEscape, lineTerminator, octalEscape)
    }
  }

  /** `markUsedFeature(usedFeatures, featureName)`: sets one flag, and does
      nothing without a dictionary. */
  method MarkUsedFeature(usedFeatures: UsedFeatures?, name: Feature)
    modifies usedFeatures
    ensures usedFeatures != null ==> usedFeatures.Value() == Mark(old(usedFeatures.Value()), name)
  {
    if usedFeatures != null {
      match name
      case CodePointEscape => usedFeatures.codePointEscape := true;
      case LineTerminator => usedFeatures.lineTerminator := true;
      case OctalEscape => usedFeatures.octalEscape := true;
    }
  }

  /** The reader of `createReader`: the token's source and a cursor. */
  class Reader {
    const source: Str
    var pos: nat

    constructor (source: Str)
      ensures this.source == source && pos == 0
    {
      this.source := source;
      pos := 0;
    }

    /** `readHexSequence(reader, length)`, the cursor on the first digit. */
    method ReadHexSequence(length: nat) returns (r: Result<Str>)
      modifies this
      ensures var d := HexSequence(source, old(pos), length);
        (d.Err? ==> r == Err(d.error) && pos == old(pos)) &&
        (d.Ok? ==> r == Ok(d.value.str) && pos == d.value.next)
    {
      var start := pos;
      if |source| < start + length || length == 0 {
        return Err(InvalidEscapeSequence(start - 1));
      }
      var value: nat := 0;
      var i := 0;
      while i < length
        invariant 0 <= i <= length && pos == start
        invariant DigitsIn(source, start, start + i, 16)
        invariant value == DigitsValue(source, start, start + i, 16)
      {
        var c := source[start + i];
        if !IsHexDigit(c) {
          return Err(InvalidEscapeSequence(start - 1));
        }
        value := value * 16 + DigitValue(c);
        i := i + 1;
      }
      pos := start + length;
      return Ok([ToUint16(value)]);
    }

    /** `readUnicodeSequence(reader, usedFeatures)`, the cursor just past
        the `u`. */
    method ReadUnicodeSequence(usedFeatures: UsedFeatures) returns (r: Result<Str>)
      modifies this, usedFeatures
      ensures var d := UnicodeSequence(source, old(pos));
        (d.Err? ==> r == Err(d.error)) &&
        (d.Ok? ==> r == Ok(d.value.str) && pos == d.value.next &&
                   usedFeatures.Value() == MarkUsed(old(usedFeatures.Value()), d.value.feature))
    {
      var start := pos;
      if start < |source| && source[start] == LEFT_BRACE {
        var j := start + 1;
        var codePoint: nat := 0;
        while j < |source| && IsHexDigit(source[j])
          invariant start + 1 <= j <= |source| && pos == start
          invariant usedFeatures.Value() == old(usedFeatures.Value())
          invariant DigitsIn(source, start + 1, j, 16)
          invariant codePoint == DigitsValue(source, start + 1, j, 16)
          decreases |source| - j
        {
          codePoint := codePoint * 16 + DigitValue(source[j]);
          j := j + 1;
        }
        HexRunEndIsMaximalRun(source, start + 1, j);
        if start + 1 < j < |source| && source[j] == RIGHT_BRACE {
          if codePoint > MAX_CODE_POINT {
            return Err(InvalidEscapeSequence(start - 1));
          }
          pos := j + 1;
          MarkUsedFeature(usedFeatures, CodePointEscape);
          return Ok(FromCodePoint(codePoint));
        }
      }
      r := ReadHexSequence(4);
    }

    /** `readOctalSequence(reader, allowOctalSequence, maxLength)`, the
        cursor just past the first digit. */
    method ReadOctalSequence(allowOctal: bool, maxLength: nat) returns (r: Result<Str>)
      requires 1 <= pos <= |source| && IsOctalDigit(source[pos - 1]) && maxLength >= 1
      modifies this
      ensures var d := OctalSequence(source, old(pos), allowOctal, maxLength);
        (d.Err? ==> r == Err(d.error)) &&
        (d.Ok? ==> r == Ok(d.value.str) && pos == d.value.next)
    {
      var posAfterBackslash := pos - 1;
      if !allowOctal {
        return Err(InvalidEscapeSequence(posAfterBackslash));
      }
      var n := 0;
      var value: nat := 0;
      while n < maxLength && posAfterBackslash + n < |source| && IsOctalDigit(source[posAfterBackslash + n])
        invariant 0 <= n <= maxLength && posAfterBackslash + n <= |source| && pos == posAfterBackslash + 1
        invariant DigitsIn(source, posAfterBackslash, posAfterBackslash + n, 8)
        invariant value == DigitsValue(source, posAfterBackslash, posAfterBackslash + n, 8)
      {
        var c := source[posAfterBackslash + n];
        value := value * 8 + DigitValue(c);
        n := n + 1;
      }
      OctalRunIsMaximalRun(source, posAfterBackslash, maxLength, n);
      pos := posAfterBackslash + n;
      return Ok([ToUint16(value)]);
    }

    /** `readEscapeSequenceOrLineContinuation(reader, allowOctalSequence,
        usedFeatures)`, the cursor just past the backslash. */
    method ReadEscapeSequenceOrLineContinuation(allowOctal: bool, usedFeatures: UsedFeatures) returns (r: Result<Str>)
      modifies this, usedFeatures
      ensures var d := DecodeEscape(source, old(pos), allowOctal);
        (d.Err? ==> r == Err(d.error)) &&
        (d.Ok? ==> r == Ok(d.value.str) && pos == d.value.next &&
                   usedFeatures.Value() == MarkUsed(old(usedFeatures.Value()), d.value.feature))
    {
      var start := pos;
      if |source| <= start {
        return Err(ParseError(start - 1, MSG_TRAILING_BACKSLASH));
      }
      var c := source[start];
      pos := start + 1;
      var unitChar := SimpleEscape(c);
      if unitChar.Some? {
        return Ok([unitChar.value]);
      }
      if c == LOWER_X {
        r := ReadHexSequence(2);
      } else if c == LOWER_U {
        r := ReadUnicodeSequence(usedFeatures);
      } else if c == CR || c == LF || c == LS || c == PS {
        if c == CR && start + 1 < |source| && source[start + 1] == LF {
          pos := start + 2;
        }
        r := Ok([]);
      } else if c == DIGIT_0 && !(start + 1 < |source| && IsDecimalDigit(source[start + 1])) {
        r := Ok([NUL]);
      } else if DIGIT_0 <= c <= DIGIT_3 {
        MarkUsedFeature(usedFeatures, OctalEscape);
        r := ReadOctalSequence(allowOctal, 3);
      } else if DIGIT_4 <= c <= DIGIT_7 {
        MarkUsedFeature(usedFeatures, OctalEscape);
        r := ReadOctalSequence(allowOctal, 2);
      } else if c == DIGIT_8 || c == DIGIT_9 {
        if !allowOctal {
          return Err(InvalidEscapeSequence(start));
        }
        MarkUsedFeature(usedFeatures, OctalEscape);
        r := Ok([c]);
      } else {
        r := Ok([c]);
      }
    }

    /** `mapEscapeSequenceOrLineContinuation(reader, allowOctalSequence,
        usedFeatures)`, the cursor on the backslash. */
    method MapEscapeSequenceOrLineContinuation(allowOctal: bool, usedFeatures: UsedFeatures) returns (r: Result<seq<CodeUnit>>)
      modifies this, usedFeatures
      ensures var m := MapEscape(source, old(pos), allowOctal);
        (m.Err? ==> r == Err(m.error)) &&
        (m.Ok? ==> r == Ok(m.value.units) && pos == m.value.next &&
                   usedFeatures.Value() == MarkUsed(old(usedFeatures.Value()), m.value.feature))
    {
      var start := pos;
      pos := start + 1;
      var str := ReadEscapeSequenceOrLineContinuation(allowOctal, usedFeatures);
      if str.Err? {
        return Err(str.error);
      }
      var end := pos;
      var unitSource := source[start..end];
      if |str.value| == 0 {
        r := Ok([]);
      } else if |str.value| == 1 {
        r := Ok([CreateCodeUnit(str.value, start, unitSource)]);
      } else {
        var highSurrogate := str.value[0];
        var lowSurrogate := str.value[1];
        r := Ok([CreateCodeUnit([highSurrogate], start, unitSource, Some(HIGH)),
                 CreateCodeUnit([lowSurrogate], start, unitSource, Some(LOW))]);
      }
    }
  }

  /** `parseStringLiteral(source)` */
  method ParseStringLiteral(source: Str) returns (r: Result<ParsedString>)
    ensures r == StringLiteral(source)
  {
    var reader := new Reader(source);
    if |source| == 0 || (source[0] != DOUBLE_QUOTE && source[0] != SINGLE_QUOTE) {
      return Err(ParseError(0, MSG_EXPECTED_QUOTE));
    }
    var quote := source[0];
    reader.pos := 1;
    var codeUnits: seq<CodeUnit> := [];
    var usedFeatures := new UsedFeatures();
    while true
      invariant reader.source == source && reader.pos <= |source|
      invariant ScanString(source, quote, reader.pos, codeUnits, usedFeatures.Value()) == StringLiteral(source)
      decreases |source| - reader.pos
    {
      var pos := reader.pos;
      if pos < |source| && source[pos] == quote {
        var failure := AssertEndOfToken(source, pos + 1);
        if failure.Some? {
          return Err(failure.value);
        }
        return Ok(ParsedString(codeUnits, usedFeatures.Value()));
      }
      if pos < |source| && source[pos] == BACKSLASH {
        var units := reader.MapEscapeSequenceOrLineContinuation(true, usedFeatures);
        if units.Err? {
          return Err(units.error);
        }
        codeUnits := codeUnits + units.value;
      } else if |source| <= pos {
        return Err(UnterminatedToken());
      } else if source[pos] == LF || source[pos] == CR {
        return Err(ParseError(pos, MSG_LINE_TERMINATION));
      } else {
        var c := source[pos];
        if c == LS || c == PS {
          MarkUsedFeature(usedFeatures, LineTerminator);
        }
        reader.pos := pos + 1;
        codeUnits := codeUnits + [CreateCodeUnit([c], pos, [c])];
      }
    }
  }

  /** `parseTemplateToken(source)` */
  method ParseTemplateToken(source: Str) returns (r: Result<seq<CodeUnit>>)
    ensures r == TemplateToken(source)
  {
    var reader := new Reader(source);
    if |source| == 0 || (source[0] != BACKTICK && source[0] != RIGHT_BRACE) {
      return Err(ParseError(0, MSG_EXPECTED_BACKTICK_OR_BRACE));
    }
    reader.pos := 1;
    var codeUnits: seq<CodeUnit> := [];
    var usedFeatures := new UsedFeatures();
    while true
      invariant reader.source == source && reader.pos <= |source|
      invariant ScanTemplate(source, reader.pos, codeUnits) == TemplateToken(source)
      decreases |source| - reader.pos
    {
      var pos := reader.pos;
      if pos < |source| && source[pos] == BACKTICK {
        var failure := AssertEndOfToken(source, pos + 1);
        if failure.Some? {
          return Err(failure.value);
        }
        return Ok(codeUnits);
      }
      if pos + 1 < |source| && source[pos] == DOLLAR && source[pos + 1] == LEFT_BRACE {
        var failure := AssertEndOfToken(source, pos + 2);
        if failure.Some? {
          return Err(failure.value);
        }
        return Ok(codeUnits);
      }
      if pos < |source| && source[pos] == BACKSLASH {
        var units := reader.MapEscapeSequenceOrLineContinuation(false, usedFeatures);
        if units.Err? {
          return Err(units.error);
        }
        codeUnits := codeUnits + units.value;
      } else if |source| <= pos {
        return Err(UnterminatedToken());
      } else {
        var start := pos;
        var unitChar: Str;
        var unitSource: Str;
        if source[pos] == CR && pos + 1 < |source| && source[pos + 1] == LF {
          unitChar := [LF];
          unitSource := [CR, LF];
          reader.pos := pos + 2;
        } else {
          unitChar, unitSource := [source[pos]], [source[pos]];
          reader.pos := pos + 1;
        }
        codeUnits := codeUnits + [CreateCodeUnit(unitChar, start, unitSource)];
      }
    }
  }
}
