/** What the two scanners promise about every token they accept or reject:
    where each code unit comes from and how the units are laid out, the
    closing delimiter, the used-feature flags as a property of the units,
    and what the getters of those units read. */
module ScannerProperties {
  import opened Chars
  import opened Results
  import opened CodeUnits
  import opened Escapes
  import opened EscapeProperties
  import opened Scanners
  import opened UnitSequences

  /* ---- one escape ---- */

  /** The units of an escape read at backslash `b` all start at `b`, carry
      the escape's whole text `source[b..next]` and are well formed there. */
  lemma EscapeWellFormed(source: Str, b: nat, allowOctal: bool)
    requires b < |source| && source[b] == BACKSLASH && MapEscape(source, b, allowOctal).Ok?
    ensures var m := MapEscape(source, b, allowOctal).value;
      WellFormed(m.units, source, b, m.next) &&
      forall i :: 0 <= i < |m.units| ==>
        m.units[i].start == b && m.units[i].source == source[b..m.next]
  {
    var esc := DecodeEscape(source, b + 1, allowOctal).value;
    var text := source[b..esc.next];
    assert |text| >= 2;
  }

  /** Appending the units of an escape at `pos` to units read before `pos`. */
  lemma AppendEscape(source: Str, pos: nat, allowOctal: bool, units: seq<CodeUnit>)
    requires 1 <= pos < |source| && source[pos] == BACKSLASH && MapEscape(source, pos, allowOctal).Ok?
    requires WellFormed(units, source, 1, pos)
    ensures var m := MapEscape(source, pos, allowOctal).value;
      pos < m.next <= |source| && WellFormed(units + m.units, source, 1, m.next) &&
      forall i :: |units| <= i < |units + m.units| ==>
        |(units + m.units)[i].source| >= 2 && (units + m.units)[i].source[0] == BACKSLASH
  {
    var m := MapEscape(source, pos, allowOctal).value;
    EscapeWellFormed(source, pos, allowOctal);
    AppendWellFormed(units, m.units, source, 1, pos, m.next);
    forall i | |units| <= i < |units + m.units|
      ensures |(units + m.units)[i].source| >= 2 && (units + m.units)[i].source[0] == BACKSLASH
    {
      assert (units + m.units)[i] == m.units[i - |units|];
    }
  }

  /** Appending one untagged unit that starts at `pos`. */
  lemma AppendSingle(source: Str, pos: nat, units: seq<CodeUnit>, u: CodeUnit)
    requires 1 <= pos && FromInput(u, source) && u.start == pos
    requires |u.character| == 1 && |u.source| >= 1 && u.surrogate == None
    requires WellFormed(units, source, 1, pos)
    ensures WellFormed(units + [u], source, 1, End(u)) && (units + [u])[|units|] == u
  {
    SingleWellFormed(u, source, pos, End(u));
    AppendWellFormed(units, [u], source, 1, pos, End(u));
  }

  /** An escape fails either as a trailing backslash, at the backslash, or
      as an invalid escape sequence at the character after it. */
  lemma EscapeError(source: Str, b: nat, allowOctal: bool)
    requires b < |source| && source[b] == BACKSLASH && MapEscape(source, b, allowOctal).Err?
    ensures var e := MapEscape(source, b, allowOctal).error;
      (b + 1 == |source| && e == ParseError(b, MSG_TRAILING_BACKSLASH)) ||
      (b + 1 < |source| && e == InvalidEscapeSequence(b + 1))
  {
    if b + 1 < |source| {
      var c := source[b + 1];
      if c == DIGIT_0 && !(b + 2 < |source| && IsDecimalDigit(source[b + 2])) {
      } else if DIGIT_0 <= c <= DIGIT_3 {
        DecodeOctalLow(source, b + 1, allowOctal);
      } else if DIGIT_4 <= c <= DIGIT_7 {
        DecodeOctalHigh(source, b + 1, allowOctal);
      }
    }
  }

  lemma FeaturesOfOne(u: CodeUnit, input: Str)
    ensures FeaturesOf([u], input) == UnitFeatures(u, input)
  {
    assert [u][..0] == [];
  }

  lemma FeaturesOfTwo(u: CodeUnit, v: CodeUnit, input: Str)
    ensures FeaturesOf([u, v], input) == Join(UnitFeatures(u, input), UnitFeatures(v, input))
  {
    assert [u, v][..1] == [u];
    FeaturesOfOne(u, input);
  }

  /** The summary of an escape's units against the flag it marks. */
  predicate FeaturesAgree(source: Str, b: nat)
    requires MapEscape(source, b, true).Ok?
  {
    var m := MapEscape(source, b, true).value;
    FeaturesOf(m.units, source) == MarkUsed(NO_FEATURES, m.feature)
  }

  lemma SimpleEscapeFeatures(source: Str, b: nat)
    requires b + 1 < |source| && source[b] == BACKSLASH
    requires source[b + 1] in {LOWER_B, LOWER_F, LOWER_N, LOWER_R, LOWER_T, LOWER_V}
    ensures MapEscape(source, b, true).Ok? && FeaturesAgree(source, b)
  {
    SimpleEscapes(source, b, true);
    FeaturesOfOne(MapEscape(source, b, true).value.units[0], source);
  }

  lemma HexEscapeFeatures(source: Str, b: nat)
    requires b + 1 < |source| && source[b] == BACKSLASH && source[b + 1] == LOWER_X
    requires MapEscape(source, b, true).Ok?
    ensures FeaturesAgree(source, b)
  {
    HexEscape(source, b, true);
    FeaturesOfOne(MapEscape(source, b, true).value.units[0], source);
  }

  lemma BracedUnicodeEscapeFeatures(source: Str, b: nat)
    requires b + 2 < |source| && source[b] == BACKSLASH && source[b + 1] == LOWER_U && source[b + 2] == LEFT_BRACE
    requires MapEscape(source, b, true).Ok?
    ensures FeaturesAgree(source, b)
  {
    BracedUnicodeEscape(source, b, true);
    var m := MapEscape(source, b, true).value;
    if |m.units| == 1 {
      FeaturesOfOne(m.units[0], source);
    } else {
      FeaturesOfTwo(m.units[0], m.units[1], source);
    }
  }

  lemma FourDigitUnicodeEscapeFeatures(source: Str, b: nat)
    requires b + 1 < |source| && source[b] == BACKSLASH && source[b + 1] == LOWER_U
    requires !(b + 2 < |source| && source[b + 2] == LEFT_BRACE)
    requires MapEscape(source, b, true).Ok?
    ensures FeaturesAgree(source, b)
  {
    FourDigitUnicodeEscape(source, b, true);
    FeaturesOfOne(MapEscape(source, b, true).value.units[0], source);
  }

  lemma NulEscapeFeatures(source: Str, b: nat)
    requires b + 1 < |source| && source[b] == BACKSLASH && source[b + 1] == DIGIT_0
    requires !(b + 2 < |source| && IsDecimalDigit(source[b + 2]))
    ensures MapEscape(source, b, true).Ok? && FeaturesAgree(source, b)
  {
    NulEscape(source, b, true);
    FeaturesOfOne(MapEscape(source, b, true).value.units[0], source);
  }

  lemma LegacyOctalEscapeFeatures(source: Str, b: nat)
    requires b + 1 < |source| && source[b] == BACKSLASH && IsOctalDigit(source[b + 1])
    requires !(source[b + 1] == DIGIT_0 && !(b + 2 < |source| && IsDecimalDigit(source[b + 2])))
    ensures MapEscape(source, b, true).Ok? && FeaturesAgree(source, b)
  {
    LegacyOctalEscape(source, b);
    FeaturesOfOne(MapEscape(source, b, true).value.units[0], source);
  }

  lemma NonOctalDecimalEscapeFeatures(source: Str, b: nat)
    requires b + 1 < |source| && source[b] == BACKSLASH && source[b + 1] in {DIGIT_8, DIGIT_9}
    ensures MapEscape(source, b, true).Ok? && FeaturesAgree(source, b)
  {
    NonOctalDecimalEscape(source, b, true);
    FeaturesOfOne(MapEscape(source, b, true).value.units[0], source);
  }

  lemma IdentityEscapeFeatures(source: Str, b: nat)
    requires b + 1 < |source| && source[b] == BACKSLASH
    requires source[b + 1] !in {LOWER_B, LOWER_F, LOWER_N, LOWER_R, LOWER_T, LOWER_V, LOWER_X, LOWER_U, LF, CR, LS, PS}
    requires !IsDecimalDigit(source[b + 1])
    ensures MapEscape(source, b, true).Ok? && FeaturesAgree(source, b)
  {
    IdentityEscape(source, b, true);
    FeaturesOfOne(MapEscape(source, b, true).value.units[0], source);
  }

  /** The flag an escape marks in a string literal is exactly the flag its
      units stand for. */
  lemma EscapeFeatures(source: Str, b: nat)
    requires b < |source| && source[b] == BACKSLASH && MapEscape(source, b, true).Ok?
    ensures var m := MapEscape(source, b, true).value;
      FeaturesOf(m.units, source) == MarkUsed(NO_FEATURES, m.feature)
  {
    assert b + 1 < MapEscape(source, b, true).value.next <= |source|;
    var c := source[b + 1];
    if c in {LOWER_B, LOWER_F, LOWER_N, LOWER_R, LOWER_T, LOWER_V} {
      SimpleEscapeFeatures(source, b);
    } else if c == LOWER_X {
      HexEscapeFeatures(source, b);
    } else if c == LOWER_U && b + 2 < |source| && source[b + 2] == LEFT_BRACE {
      BracedUnicodeEscapeFeatures(source, b);
    } else if c == LOWER_U {
      FourDigitUnicodeEscapeFeatures(source, b);
    } else if c in {LF, CR, LS, PS} {
      LineContinuation(source, b, true);
    } else if c == DIGIT_0 && !(b + 2 < |source| && IsDecimalDigit(source[b + 2])) {
      NulEscapeFeatures(source, b);
    } else if IsOctalDigit(c) {
      LegacyOctalEscapeFeatures(source, b);
    } else if c == DIGIT_8 || c == DIGIT_9 {
      NonOctalDecimalEscapeFeatures(source, b);
    } else {
      IdentityEscapeFeatures(source, b);
    }
  }

  /* ---- string literals ---- */

  /** What a unit of a string literal is: a raw character other than the
      quote, a backslash, LF and CR, kept verbatim, or an escape. */
  predicate StringUnit(u: CodeUnit, quote: Unit16) {
    if |u.source| == 1 then
      u.character == u.source && u.source[0] !in {quote, BACKSLASH, LF, CR}
    else
      |u.source| >= 2 && u.source[0] == BACKSLASH
  }

  lemma {:induction false} ScanStringShape(source: Str, quote: Unit16, pos: nat, units: seq<CodeUnit>, f: Features)
    requires 1 <= pos <= |source|
    requires WellFormed(units, source, 1, pos) && forall i :: 0 <= i < |units| ==> StringUnit(units[i], quote)
    requires ScanString(source, quote, pos, units, f).Ok?
    ensures var r := ScanString(source, quote, pos, units, f).value;
      pos < |source| && source[|source| - 1] == quote &&
      WellFormed(r.codeUnits, source, 1, |source| - 1) &&
      forall i :: 0 <= i < |r.codeUnits| ==> StringUnit(r.codeUnits[i], quote)
    decreases |source| - pos
  {
    if pos < |source| && source[pos] == quote {
      WidenWellFormed(units, source, 1, pos, 1, |source| - 1);
    } else if pos < |source| && source[pos] == BACKSLASH {
      var m := MapEscape(source, pos, true).value;
      AppendEscape(source, pos, true, units);
      var us := units + m.units;
      forall i | 0 <= i < |us| ensures StringUnit(us[i], quote) {
        if i < |units| {
          assert us[i] == units[i];
        }
      }
      ScanStringShape(source, quote, m.next, us, MarkUsed(f, m.feature));
    } else {
      var u := RawUnit(source, pos);
      AppendSingle(source, pos, units, u);
      var us := units + [u];
      assert forall i :: 0 <= i < |units| ==> us[i] == units[i];
      ScanStringShape(source, quote, pos + 1, us,
                      if source[pos] == LS || source[pos] == PS then Mark(f, LineTerminator) else f);
    }
  }

  /** An accepted string literal: it starts and ends with the same quote,
      every unit is one code unit taken verbatim from the text between the
      quotes, units never overlap and appear in source order (starts never
      decrease and only the halves of a surrogate pair share one), and each
      unit is a raw character other than the quote, a backslash, LF and CR,
      or an escape. */
  lemma StringLiteralShape(source: Str)
    requires StringLiteral(source).Ok?
    ensures var r := StringLiteral(source).value;
      |source| >= 2 && source[0] in {DOUBLE_QUOTE, SINGLE_QUOTE} && source[|source| - 1] == source[0] &&
      WellFormed(r.codeUnits, source, 1, |source| - 1) &&
      (forall i :: 0 <= i < |r.codeUnits| ==> StringUnit(r.codeUnits[i], source[0])) &&
      (forall i, j :: 0 <= i < j < |r.codeUnits| ==>
        r.codeUnits[i].start <= r.codeUnits[j].start &&
        (r.codeUnits[i].start == r.codeUnits[j].start ==> j == i + 1 && IsPair(r.codeUnits[i], r.codeUnits[j])))
  {
    var r := StringLiteral(source).value;
    EmptyWellFormed(source, 1, 1);
    ScanStringShape(source, source[0], 1, [], NO_FEATURES);
    forall i, j | 0 <= i < j < |r.codeUnits|
      ensures r.codeUnits[i].start <= r.codeUnits[j].start &&
        (r.codeUnits[i].start == r.codeUnits[j].start ==> j == i + 1 && IsPair(r.codeUnits[i], r.codeUnits[j]))
    {
      StartsOrdered(r.codeUnits, source, 1, |source| - 1, i, j);
    }
  }

  lemma {:induction false} ScanStringFeatures(source: Str, quote: Unit16, pos: nat, units: seq<CodeUnit>, f: Features)
    requires f == FeaturesOf(units, source)
    requires ScanString(source, quote, pos, units, f).Ok?
    ensures var r := ScanString(source, quote, pos, units, f).value;
      r.usedFeatures == FeaturesOf(r.codeUnits, source)
    decreases |source| - pos
  {
    if pos < |source| && source[pos] == quote {
    } else if pos < |source| && source[pos] == BACKSLASH {
      var m := MapEscape(source, pos, true).value;
      EscapeFeatures(source, pos);
      FeaturesOfAppend(units, m.units, source);
      ScanStringFeatures(source, quote, m.next, units + m.units, MarkUsed(f, m.feature));
    } else {
      var u := RawUnit(source, pos);
      FeaturesOfAppend(units, [u], source);
      FeaturesOfOne(u, source);
      ScanStringFeatures(source, quote, pos + 1, units + [u],
                         if source[pos] == LS || source[pos] == PS then Mark(f, LineTerminator) else f);
    }
  }

  /** The `usedFeatures` of an accepted string literal: `lineTerminator`
      exactly when a unit is a raw U+2028 or U+2029, `codePointEscape`
      exactly when a unit comes from a `\u{…}` escape, and `octalEscape`
      exactly when a unit comes from a legacy octal escape or `\8`/`\9`;
      with none of these, all three flags stay false. */
  lemma StringLiteralFeatures(source: Str)
    requires StringLiteral(source).Ok?
    ensures var r := StringLiteral(source).value;
      (r.usedFeatures.lineTerminator <==> exists i :: 0 <= i < |r.codeUnits| && LineTerminatorUnit(r.codeUnits[i])) &&
      (r.usedFeatures.codePointEscape <==> exists i :: 0 <= i < |r.codeUnits| && CodePointEscapeUnit(r.codeUnits[i])) &&
      (r.usedFeatures.octalEscape <==> exists i :: 0 <= i < |r.codeUnits| && OctalEscapeUnit(r.codeUnits[i], source))
  {
    var r := StringLiteral(source).value;
    ScanStringFeatures(source, source[0], 1, [], NO_FEATURES);
    FeaturesOfMeans(r.codeUnits, source);
  }

  /* ---- template tokens ---- */

  /** What a unit of a template token is: the raw CR LF pair as one LF, a
      raw character kept verbatim (neither a backslash nor a backtick, nor
      a CR before LF, nor a `$` before `{`), or an escape. */
  predicate TemplateUnit(u: CodeUnit, input: Str) {
    if u.source == [CR, LF] then
      u.character == [LF]
    else if |u.source| == 1 then
      u.character == u.source && u.source[0] != BACKSLASH && u.source[0] != BACKTICK &&
      !(u.source[0] == CR && 0 <= End(u) < |input| && input[End(u)] == LF) &&
      !(u.source[0] == DOLLAR && 0 <= End(u) < |input| && input[End(u)] == LEFT_BRACE)
    else
      |u.source| >= 2 && u.source[0] == BACKSLASH
  }

  /** The template's end: a backtick, or `${`, as the last characters of
      the source, with every unit before it. */
  predicate TemplateEnd(units: seq<CodeUnit>, source: Str) {
    (|source| >= 2 && source[|source| - 1] == BACKTICK && WellFormed(units, source, 1, |source| - 1)) ||
    (|source| >= 3 && source[|source| - 2] == DOLLAR && source[|source| - 1] == LEFT_BRACE &&
     WellFormed(units, source, 1, |source| - 2))
  }

  /** One step of the template loop that neither ends nor fails: it moves
      on to `next` with well-formed units `us`. */
  lemma TemplateStep(source: Str, pos: nat, units: seq<CodeUnit>) returns (next: nat, us: seq<CodeUnit>)
    requires 1 <= pos < |source| && WellFormed(units, source, 1, pos)
    requires source[pos] != BACKTICK && !(pos + 1 < |source| && source[pos] == DOLLAR && source[pos + 1] == LEFT_BRACE)
    requires ScanTemplate(source, pos, units).Ok?
    ensures pos < next <= |source| && WellFormed(us, source, 1, next)
    ensures ScanTemplate(source, pos, units) == ScanTemplate(source, next, us)
  {
    if source[pos] == BACKSLASH {
      var m := MapEscape(source, pos, false).value;
      AppendEscape(source, pos, false, units);
      next, us := m.next, units + m.units;
    } else if source[pos] == CR && pos + 1 < |source| && source[pos + 1] == LF {
      var u := CrLfUnit(pos);
      assert source[pos..pos + 2] == [CR, LF];
      AppendSingle(source, pos, units, u);
      next, us := pos + 2, units + [u];
    } else {
      var u := RawUnit(source, pos);
      AppendSingle(source, pos, units, u);
      next, us := pos + 1, units + [u];
    }
  }

  lemma {:induction false} ScanTemplateWellFormed(source: Str, pos: nat, units: seq<CodeUnit>)
    requires 1 <= pos <= |source| && WellFormed(units, source, 1, pos)
    requires ScanTemplate(source, pos, units).Ok?
    ensures TemplateEnd(ScanTemplate(source, pos, units).value, source)
    decreases |source| - pos
  {
    if pos < |source| && source[pos] == BACKTICK {
      WidenWellFormed(units, source, 1, pos, 1, |source| - 1);
    } else if pos + 1 < |source| && source[pos] == DOLLAR && source[pos + 1] == LEFT_BRACE {
      WidenWellFormed(units, source, 1, pos, 1, |source| - 2);
    } else {
      var next, us := TemplateStep(source, pos, units);
      ScanTemplateWellFormed(source, next, us);
    }
  }

  lemma {:induction false} ScanTemplateUnits(source: Str, pos: nat, units: seq<CodeUnit>)
    requires forall i :: 0 <= i < |units| ==> TemplateUnit(units[i], source)
    requires ScanTemplate(source, pos, units).Ok?
    ensures var r := ScanTemplate(source, pos, units).value;
      forall i :: 0 <= i < |r| ==> TemplateUnit(r[i], source)
    decreases |source| - pos
  {
    if pos < |source| && source[pos] == BACKTICK {
    } else if pos + 1 < |source| && source[pos] == DOLLAR && source[pos + 1] == LEFT_BRACE {
    } else if pos < |source| && source[pos] == BACKSLASH {
      var m := MapEscape(source, pos, false).value;
      EscapeWellFormed(source, pos, false);
      var us := units + m.units;
      forall i | 0 <= i < |us| ensures TemplateUnit(us[i], source) {
        if i < |units| {
          assert us[i] == units[i];
        } else {
          assert us[i] == m.units[i - |units|];
        }
      }
      ScanTemplateUnits(source, m.next, us);
    } else if source[pos] == CR && pos + 1 < |source| && source[pos + 1] == LF {
      var us := units + [CrLfUnit(pos)];
      assert forall i :: 0 <= i < |units| ==> us[i] == units[i];
      ScanTemplateUnits(source, pos + 2, us);
    } else {
      var us := units + [RawUnit(source, pos)];
      assert forall i :: 0 <= i < |units| ==> us[i] == units[i];
      ScanTemplateUnits(source, pos + 1, us);
    }
  }

  /** An accepted template token: it starts with a backtick or `}` and ends
      with a backtick or `${`; every unit is one code unit taken from the
      text between, units appear in source order without overlapping, a
      raw CR LF is one LF unit and every other raw character is kept
      verbatim. */
  lemma TemplateTokenShape(source: Str)
    requires TemplateToken(source).Ok?
    ensures var r := TemplateToken(source).value;
      source[0] in {BACKTICK, RIGHT_BRACE} && TemplateEnd(r, source) &&
      (forall i :: 0 <= i < |r| ==> TemplateUnit(r[i], source)) &&
      (forall i, j :: 0 <= i < j < |r| ==>
        r[i].start <= r[j].start && (r[i].start == r[j].start ==> j == i + 1 && IsPair(r[i], r[j])))
  {
    var r := TemplateToken(source).value;
    EmptyWellFormed(source, 1, 1);
    ScanTemplateWellFormed(source, 1, []);
    ScanTemplateUnits(source, 1, []);
    var hi := if source[|source| - 1] == BACKTICK && WellFormed(r, source, 1, |source| - 1) then |source| - 1 else |source| - 2;
    forall i, j | 0 <= i < j < |r|
      ensures r[i].start <= r[j].start && (r[i].start == r[j].start ==> j == i + 1 && IsPair(r[i], r[j]))
    {
      StartsOrdered(r, source, 1, hi, i, j);
    }
  }

  /* ---- the getters of scanned units ---- */

  /** The getters of every unit of an accepted string literal: `charCode`
      is the unit's one code unit, `length` is `end - start` and at least
      1, and the unit's text lies between the quotes, where `source`
      reads it. */
  lemma StringUnitGetters(source: Str, i: nat)
    requires StringLiteral(source).Ok? && i < |StringLiteral(source).value.codeUnits|
    ensures var u := StringLiteral(source).value.codeUnits[i];
      |u.character| == 1 && CharCode(u) == Some(u.character[0]) &&
      Length(u) == End(u) - u.start >= 1 && 1 <= u.start && End(u) <= |source| - 1 &&
      source[u.start..End(u)] == u.source
  {
    StringLiteralShape(source);
  }

  /** The getters of every unit of an accepted template token, as for a
      string literal; the unit's text lies before the closing backtick, or
      before the `$` of a closing `${`. */
  lemma TemplateUnitGetters(source: Str, i: nat)
    requires TemplateToken(source).Ok? && i < |TemplateToken(source).value|
    ensures var u := TemplateToken(source).value[i];
      |u.character| == 1 && CharCode(u) == Some(u.character[0]) &&
      Length(u) == End(u) - u.start >= 1 && 1 <= u.start &&
      End(u) <= |source| - (if source[|source| - 1] == BACKTICK then 1 else 2) &&
      source[u.start..End(u)] == u.source
  {
    TemplateTokenShape(source);
  }
}
