/** The two token scanners of lib/parse.js as functions of the input:
    `StringLiteral` is what `parseStringLiteral` returns or throws and
    `TemplateToken` what `parseTemplateToken` returns or throws. Each step of
    the scan is one iteration of the source's loop; `units` and `features`
    are what the loop has collected so far. */
module Scanners {
  import opened Chars
  import opened Results
  import opened CodeUnits
  import opened Escapes

  /** The result of `parseStringLiteral`: the code units and the attached
      `usedFeatures` record. */
  datatype ParsedString = ParsedString(codeUnits: seq<CodeUnit>, usedFeatures: Features)

  /** `assertEndOfToken(source, pos)`: an error exactly when a character
      remains at `pos`. */
  function AssertEndOfToken(source: Str, pos: nat): Option<ParseError>
  {
    if pos < |source| then Some(ParseError(pos, MSG_PAST_END)) else None
  }

  /** The single unit of a raw character at `pos`. */
  function RawUnit(source: Str, pos: nat): CodeUnit
    requires pos < |source|
  {
    CreateCodeUnit([source[pos]], pos, [source[pos]])
  }

  /** The loop of `parseStringLiteral` from `pos` on. */
  function ScanString(source: Str, quote: Unit16, pos: nat, units: seq<CodeUnit>, features: Features): Result<ParsedString>
    decreases |source| - pos
  {
    if pos < |source| && source[pos] == quote then
      match AssertEndOfToken(source, pos + 1)
      case Some(e) => Err(e)
      case None => Ok(ParsedString(units, features))
    else if pos < |source| && source[pos] == BACKSLASH then
      match MapEscape(source, pos, true)
      case Err(e) => Err(e)
      case Ok(m) => ScanString(source, quote, m.next, units + m.units, MarkUsed(features, m.feature))
    else if pos >= |source| then Err(UnterminatedToken())
    else if source[pos] == LF || source[pos] == CR then Err(ParseError(pos, MSG_LINE_TERMINATION))
    else
      var c := source[pos];
      ScanString(source, quote, pos + 1, units + [RawUnit(source, pos)],
                 if c == LS || c == PS then Mark(features, LineTerminator) else features)
  }

  /** `parseStringLiteral(source)`, the quotes included in `source`. */
  function StringLiteral(source: Str): Result<ParsedString> {
    if |source| == 0 || (source[0] != DOUBLE_QUOTE && source[0] != SINGLE_QUOTE) then
      Err(ParseError(0, MSG_EXPECTED_QUOTE))
    else
      ScanString(source, source[0], 1, [], NO_FEATURES)
  }

  /** The single unit of the raw CR LF pair at `pos`: char LF, source CR LF. */
  function CrLfUnit(pos: nat): CodeUnit {
    CreateCodeUnit([LF], pos, [CR, LF])
  }

  /** The loop of `parseTemplateToken` from `pos` on. */
  function ScanTemplate(source: Str, pos: nat, units: seq<CodeUnit>): Result<seq<CodeUnit>>
    decreases |source| - pos
  {
    if pos < |source| && source[pos] == BACKTICK then
      match AssertEndOfToken(source, pos + 1)
      case Some(e) => Err(e)
      case None => Ok(units)
    else if pos + 1 < |source| && source[pos] == DOLLAR && source[pos + 1] == LEFT_BRACE then
      match AssertEndOfToken(source, pos + 2)
      case Some(e) => Err(e)
      case None => Ok(units)
    else if pos < |source| && source[pos] == BACKSLASH then
      match MapEscape(source, pos, false)
      case Err(e) => Err(e)
      case Ok(m) => ScanTemplate(source, m.next, units + m.units)
    else if pos >= |source| then Err(UnterminatedToken())
    else if source[pos] == CR && pos + 1 < |source| && source[pos + 1] == LF then
      ScanTemplate(source, pos + 2, units + [CrLfUnit(pos)])
    else
      ScanTemplate(source, pos + 1, units + [RawUnit(source, pos)])
  }

  /** `parseTemplateToken(source)`, the delimiters `` ` ``, `}` and `${`
      included in `source`. */
  function TemplateToken(source: Str): Result<seq<CodeUnit>> {
    if |source| == 0 || (source[0] != BACKTICK && source[0] != RIGHT_BRACE) then
      Err(ParseError(0, MSG_EXPECTED_BACKTICK_OR_BRACE))
    else
      ScanTemplate(source, 1, [])
  }
}
