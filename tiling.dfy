/** A token's body cut into pieces. A piece is one of three things: one
    escape, one raw character, or (in a template) one raw CR LF pair.
    Each piece starts where the previous one ends, and gives
    `MapEscape`'s units, the raw character's unit or the pair's LF unit.
    Both scanners accept or reject a token according to the place where
    this cutting stops. */
module Tiling {
  import opened Chars
  import opened Results
  import opened CodeUnits
  import opened Escapes
  import opened Scanners
  import opened ScannerProperties

  /** The units one piece of a token body gives, and where the next piece starts. */
  datatype Piece = Piece(units: seq<CodeUnit>, next: nat)

  /** Which kind of token body is being cut: a string literal's, within the
      given quote, or a template's. */
  datatype Body = StringBody(quote: Unit16) | TemplateBody

  /** The piece of a string literal's body at `pos`, if one starts there.
      There is none at the end of the source, at the quote, at a raw LF or
      CR, or at a backslash whose escape fails. */
  function StringPiece(source: Str, quote: Unit16, pos: nat): Option<Piece> {
    if pos >= |source| || source[pos] == quote || source[pos] == LF || source[pos] == CR then None
    else if source[pos] == BACKSLASH then
      match MapEscape(source, pos, true)
      case Ok(m) => Some(Piece(m.units, m.next))
      case Err(_) => None
    else Some(Piece([RawUnit(source, pos)], pos + 1))
  }

  /** The piece of a template's body at `pos`, if one starts there. There
      is none at the end of the source, at a backtick, at `${`, or at a
      backslash whose escape (octal not allowed) fails. */
  function TemplatePiece(source: Str, pos: nat): Option<Piece> {
    if pos >= |source| || source[pos] == BACKTICK ||
       (pos + 1 < |source| && source[pos] == DOLLAR && source[pos + 1] == LEFT_BRACE) then None
    else if source[pos] == BACKSLASH then
      match MapEscape(source, pos, false)
      case Ok(m) => Some(Piece(m.units, m.next))
      case Err(_) => None
    else if source[pos] == CR && pos + 1 < |source| && source[pos + 1] == LF then
      Some(Piece([CrLfUnit(pos)], pos + 2))
    else Some(Piece([RawUnit(source, pos)], pos + 1))
  }

  function PieceAt(source: Str, body: Body, pos: nat): Option<Piece> {
    match body
    case StringBody(quote) => StringPiece(source, quote, pos)
    case TemplateBody => TemplatePiece(source, pos)
  }

  /** `cuts` cuts the body from offset 1 into pieces: a piece starts at
      every cut before the last, and ends at the next cut. */
  predicate Cuts(source: Str, body: Body, cuts: seq<nat>) {
    |cuts| >= 1 && cuts[0] == 1 &&
    forall k :: 0 <= k < |cuts| - 1 ==>
      PieceAt(source, body, cuts[k]).Some? && PieceAt(source, body, cuts[k]).value.next == cuts[k + 1]
  }

  function PieceUnits(source: Str, body: Body, pos: nat): seq<CodeUnit> {
    if PieceAt(source, body, pos).Some? then PieceAt(source, body, pos).value.units else []
  }

  /** The units of the pieces that start at the cuts, in order. */
  function CutUnits(source: Str, body: Body, cuts: seq<nat>): seq<CodeUnit>
    decreases |cuts|
  {
    if |cuts| <= 1 then []
    else CutUnits(source, body, cuts[..|cuts| - 1]) + PieceUnits(source, body, cuts[|cuts| - 2])
  }

  /** Every unit of a piece starts at the piece and carries the piece's
      whole text. A piece gives no unit exactly when it is a line
      continuation, and gives two units only for a surrogate pair. */
  lemma PieceText(source: Str, body: Body, pos: nat)
    requires PieceAt(source, body, pos).Some?
    ensures var piece := PieceAt(source, body, pos).value;
      pos < piece.next <= |source| && |piece.units| <= 2 &&
      (forall u :: u in piece.units ==> u.start == pos && u.source == source[pos..piece.next]) &&
      (|piece.units| == 0 <==>
        source[pos] == BACKSLASH && pos + 1 < |source| && source[pos + 1] in {LF, CR, LS, PS})
  {
    var piece := PieceAt(source, body, pos).value;
    var allowOctal := body.StringBody?;
    if source[pos] == BACKSLASH {
      EscapeWellFormed(source, pos, allowOctal);
      var esc := DecodeEscape(source, pos + 1, allowOctal).value;
      assert piece.units == EscapeUnits(esc.str, pos, source[pos..esc.next]);
      forall u | u in piece.units ensures u.start == pos && u.source == source[pos..piece.next] {
        var i :| 0 <= i < |piece.units| && piece.units[i] == u;
      }
    } else if piece.next == pos + 2 {
      assert source[pos..pos + 2] == [CR, LF];
    }
  }

  /** Adding the cut after the last piece. */
  lemma ExtendCuts(source: Str, body: Body, cuts: seq<nat>)
    requires Cuts(source, body, cuts) && PieceAt(source, body, cuts[|cuts| - 1]).Some?
    ensures var piece := PieceAt(source, body, cuts[|cuts| - 1]).value;
      Cuts(source, body, cuts + [piece.next]) &&
      CutUnits(source, body, cuts + [piece.next]) == CutUnits(source, body, cuts) + piece.units
  {
    var piece := PieceAt(source, body, cuts[|cuts| - 1]).value;
    var more := cuts + [piece.next];
    assert more[..|more| - 1] == cuts;
    forall k | 0 <= k < |more| - 1
      ensures PieceAt(source, body, more[k]).Some? && PieceAt(source, body, more[k]).value.next == more[k + 1]
    {
      assert more[k] == cuts[k];
    }
  }

  /* ---- string literals ---- */

  /** How a string literal's scan ends once the cutting stops at `p`; `units`
      are the units of the pieces before `p`. */
  predicate StringStop(source: Str, quote: Unit16, p: nat, units: seq<CodeUnit>, r: Result<ParsedString>) {
    if p >= |source| then r == Err(UnterminatedToken())
    else if source[p] == quote then
      if p + 1 < |source| then r == Err(ParseError(p + 1, MSG_PAST_END))
      else r.Ok? && r.value.codeUnits == units
    else if source[p] == BACKSLASH then
      MapEscape(source, p, true).Err? && r == Err(MapEscape(source, p, true).error)
    else
      source[p] in {LF, CR} && r == Err(ParseError(p, MSG_LINE_TERMINATION))
  }

  lemma {:induction false} ScanStringCuts(source: Str, quote: Unit16, cuts: seq<nat>, f: Features) returns (all: seq<nat>)
    requires Cuts(source, StringBody(quote), cuts) && cuts[|cuts| - 1] <= |source|
    ensures Cuts(source, StringBody(quote), all) && |cuts| <= |all| && all[..|cuts|] == cuts
    ensures var p := all[|all| - 1];
      p <= |source| && StringPiece(source, quote, p).None? &&
      StringStop(source, quote, p, CutUnits(source, StringBody(quote), all),
                 ScanString(source, quote, cuts[|cuts| - 1], CutUnits(source, StringBody(quote), cuts), f))
    decreases |source| - cuts[|cuts| - 1]
  {
    var pos := cuts[|cuts| - 1];
    var units := CutUnits(source, StringBody(quote), cuts);
    if StringPiece(source, quote, pos).None? {
      StringPieceStop(source, quote, pos, units, f);
      all := cuts;
    } else {
      var more, f' := StringCutStep(source, quote, cuts, f);
      all := ScanStringCuts(source, quote, more, f');
      assert all[..|more|][..|cuts|] == all[..|cuts|];
    }
  }

  /** Cutting off the piece at the last cut: the string loop moves on over it. */
  lemma StringCutStep(source: Str, quote: Unit16, cuts: seq<nat>, f: Features) returns (more: seq<nat>, f': Features)
    requires Cuts(source, StringBody(quote), cuts) && StringPiece(source, quote, cuts[|cuts| - 1]).Some?
    ensures |more| == |cuts| + 1 && Cuts(source, StringBody(quote), more) && more[..|cuts|] == cuts
    ensures cuts[|cuts| - 1] < more[|cuts|] <= |source|
    ensures ScanString(source, quote, cuts[|cuts| - 1], CutUnits(source, StringBody(quote), cuts), f) ==
            ScanString(source, quote, more[|cuts|], CutUnits(source, StringBody(quote), more), f')
  {
    var pos := cuts[|cuts| - 1];
    var piece := StringPiece(source, quote, pos).value;
    ExtendCuts(source, StringBody(quote), cuts);
    more := cuts + [piece.next];
    f' := StringPieceStep(source, quote, pos, CutUnits(source, StringBody(quote), cuts), f);
    assert more[..|cuts|] == cuts;
  }

  /** One step of the string loop over a piece, with the features `f'`
      it moves on with. */
  lemma StringPieceStep(source: Str, quote: Unit16, pos: nat, units: seq<CodeUnit>, f: Features) returns (f': Features)
    requires StringPiece(source, quote, pos).Some?
    ensures var piece := StringPiece(source, quote, pos).value;
      ScanString(source, quote, pos, units, f) == ScanString(source, quote, piece.next, units + piece.units, f')
  {
    f' := if source[pos] == BACKSLASH then MarkUsed(f, MapEscape(source, pos, true).value.feature)
          else if source[pos] == LS || source[pos] == PS then Mark(f, LineTerminator) else f;
  }

  lemma StringPieceStop(source: Str, quote: Unit16, p: nat, units: seq<CodeUnit>, f: Features)
    requires p <= |source| && StringPiece(source, quote, p).None?
    ensures StringStop(source, quote, p, units, ScanString(source, quote, p, units, f))
  {
  }

  /** Every string literal whose first character is a quote: the body cuts
      into pieces from offset 1 until a place `p` where no piece starts,
      and `p` decides the outcome. At the end of the source the literal is
      unterminated. At the quote it is accepted, with the pieces' units,
      when the quote is the last character, and otherwise rejected at the
      character after the quote. At a raw LF or CR it is rejected there.
      At a failing escape it is rejected with that escape's error. */
  lemma StringLiteralPieces(source: Str) returns (cuts: seq<nat>)
    requires |source| > 0 && source[0] in {DOUBLE_QUOTE, SINGLE_QUOTE}
    ensures Cuts(source, StringBody(source[0]), cuts)
    ensures var p := cuts[|cuts| - 1];
      p <= |source| && StringPiece(source, source[0], p).None? &&
      StringStop(source, source[0], p, CutUnits(source, StringBody(source[0]), cuts), StringLiteral(source))
  {
    assert CutUnits(source, StringBody(source[0]), [1]) == [];
    cuts := ScanStringCuts(source, source[0], [1], NO_FEATURES);
  }

  /** An accepted string literal decodes its whole body piece by piece. The
      pieces run from offset 1 to the closing quote, which is the last
      character. The literal's units are the pieces' units in order: one
      verbatim unit per raw character, and `MapEscape`'s units per escape. */
  lemma StringLiteralDecoded(source: Str) returns (cuts: seq<nat>)
    requires StringLiteral(source).Ok?
    ensures |source| >= 2 && source[0] in {DOUBLE_QUOTE, SINGLE_QUOTE} && source[|source| - 1] == source[0]
    ensures Cuts(source, StringBody(source[0]), cuts) && cuts[|cuts| - 1] == |source| - 1
    ensures StringLiteral(source).value.codeUnits == CutUnits(source, StringBody(source[0]), cuts)
  {
    cuts := StringLiteralPieces(source);
  }

  /** A rejected string literal. A missing opening quote is reported at 0.
      Otherwise the error comes from the first place `p` where the body
      stops cutting into pieces:
      - the end of the source: the literal is unterminated;
      - the quote: the error is at the character after it;
      - a raw LF or CR: the error is at `p`;
      - a failing escape: the error is at the backslash when it is the
        last character, and otherwise at the character after it. */
  lemma StringLiteralError(source: Str) returns (cuts: seq<nat>)
    requires StringLiteral(source).Err?
    ensures var e := StringLiteral(source).error;
      if |source| == 0 || source[0] !in {DOUBLE_QUOTE, SINGLE_QUOTE} then e == ParseError(0, MSG_EXPECTED_QUOTE)
      else
        Cuts(source, StringBody(source[0]), cuts) &&
        var p := cuts[|cuts| - 1];
        p <= |source| && StringPiece(source, source[0], p).None? &&
        (p == |source| ==> e == UnterminatedToken()) &&
        (p < |source| && source[p] == source[0] ==> p + 1 < |source| && e == ParseError(p + 1, MSG_PAST_END)) &&
        (p < |source| && source[p] in {LF, CR} ==> e == ParseError(p, MSG_LINE_TERMINATION)) &&
        (p < |source| && source[p] == BACKSLASH ==>
          (p + 1 == |source| && e == ParseError(p, MSG_TRAILING_BACKSLASH)) ||
          (p + 1 < |source| && e == InvalidEscapeSequence(p + 1)))
  {
    if |source| == 0 || source[0] !in {DOUBLE_QUOTE, SINGLE_QUOTE} {
      cuts := [1];
    } else {
      cuts := StringLiteralPieces(source);
      var p := cuts[|cuts| - 1];
      if p < |source| && source[p] == BACKSLASH {
        EscapeError(source, p, true);
      }
    }
  }

  /* ---- template tokens ---- */

  /** How a template token's scan ends once the cutting stops at `p`. */
  predicate TemplateStop(source: Str, p: nat, units: seq<CodeUnit>, r: Result<seq<CodeUnit>>) {
    if p >= |source| then r == Err(UnterminatedToken())
    else if source[p] == BACKTICK then
      if p + 1 < |source| then r == Err(ParseError(p + 1, MSG_PAST_END)) else r == Ok(units)
    else if p + 1 < |source| && source[p] == DOLLAR && source[p + 1] == LEFT_BRACE then
      if p + 2 < |source| then r == Err(ParseError(p + 2, MSG_PAST_END)) else r == Ok(units)
    else
      source[p] == BACKSLASH && MapEscape(source, p, false).Err? && r == Err(MapEscape(source, p, false).error)
  }

  lemma {:induction false} ScanTemplateCuts(source: Str, cuts: seq<nat>) returns (all: seq<nat>)
    requires Cuts(source, TemplateBody, cuts) && cuts[|cuts| - 1] <= |source|
    ensures Cuts(source, TemplateBody, all) && |cuts| <= |all| && all[..|cuts|] == cuts
    ensures var p := all[|all| - 1];
      p <= |source| && TemplatePiece(source, p).None? &&
      TemplateStop(source, p, CutUnits(source, TemplateBody, all),
                   ScanTemplate(source, cuts[|cuts| - 1], CutUnits(source, TemplateBody, cuts)))
    decreases |source| - cuts[|cuts| - 1]
  {
    var pos := cuts[|cuts| - 1];
    var units := CutUnits(source, TemplateBody, cuts);
    if TemplatePiece(source, pos).None? {
      TemplatePieceStop(source, pos, units);
      all := cuts;
    } else {
      var more := TemplateCutStep(source, cuts);
      all := ScanTemplateCuts(source, more);
      assert all[..|more|][..|cuts|] == all[..|cuts|];
    }
  }

  /** Cutting off the piece at the last cut: the template loop moves on over it. */
  lemma TemplateCutStep(source: Str, cuts: seq<nat>) returns (more: seq<nat>)
    requires Cuts(source, TemplateBody, cuts) && TemplatePiece(source, cuts[|cuts| - 1]).Some?
    ensures |more| == |cuts| + 1 && Cuts(source, TemplateBody, more) && more[..|cuts|] == cuts
    ensures cuts[|cuts| - 1] < more[|cuts|] <= |source|
    ensures ScanTemplate(source, cuts[|cuts| - 1], CutUnits(source, TemplateBody, cuts)) ==
            ScanTemplate(source, more[|cuts|], CutUnits(source, TemplateBody, more))
  {
    var pos := cuts[|cuts| - 1];
    var piece := TemplatePiece(source, pos).value;
    ExtendCuts(source, TemplateBody, cuts);
    more := cuts + [piece.next];
    TemplatePieceStep(source, pos, CutUnits(source, TemplateBody, cuts));
    assert more[..|cuts|] == cuts;
  }

  /** One step of the template loop over a piece. */
  lemma TemplatePieceStep(source: Str, pos: nat, units: seq<CodeUnit>)
    requires TemplatePiece(source, pos).Some?
    ensures var piece := TemplatePiece(source, pos).value;
      ScanTemplate(source, pos, units) == ScanTemplate(source, piece.next, units + piece.units)
  {
  }

  lemma TemplatePieceStop(source: Str, p: nat, units: seq<CodeUnit>)
    requires p <= |source| && TemplatePiece(source, p).None?
    ensures TemplateStop(source, p, units, ScanTemplate(source, p, units))
  {
  }

  /** Every template token whose first character is a backtick or `}`: the
      body cuts into pieces from offset 1 until a place `p` where no piece
      starts, and `p` decides the outcome. At the end of the source the
      token is unterminated. At a backtick or `${` it is accepted, with
      the pieces' units, when that delimiter ends the source, and otherwise
      rejected just after it. At a failing escape it is rejected with that
      escape's error. */
  lemma TemplateTokenPieces(source: Str) returns (cuts: seq<nat>)
    requires |source| > 0 && source[0] in {BACKTICK, RIGHT_BRACE}
    ensures Cuts(source, TemplateBody, cuts)
    ensures var p := cuts[|cuts| - 1];
      p <= |source| && TemplatePiece(source, p).None? &&
      TemplateStop(source, p, CutUnits(source, TemplateBody, cuts), TemplateToken(source))
  {
    assert CutUnits(source, TemplateBody, [1]) == [];
    cuts := ScanTemplateCuts(source, [1]);
  }

  /** An accepted template token decodes its whole body piece by piece. The
      pieces run from offset 1 to the closing backtick or `${`, which ends
      the source. The token's units are the pieces' units in order: a raw
      CR LF is one LF unit, every other raw character one verbatim unit,
      and each escape gives `MapEscape`'s units. */
  lemma TemplateTokenDecoded(source: Str) returns (cuts: seq<nat>)
    requires TemplateToken(source).Ok?
    ensures source[0] in {BACKTICK, RIGHT_BRACE} && Cuts(source, TemplateBody, cuts)
    ensures var p := cuts[|cuts| - 1];
      (p == |source| - 1 && source[p] == BACKTICK) ||
      (p == |source| - 2 && source[p] == DOLLAR && source[p + 1] == LEFT_BRACE)
    ensures TemplateToken(source).value == CutUnits(source, TemplateBody, cuts)
  {
    cuts := TemplateTokenPieces(source);
  }

  /** A rejected template token. A wrong first character is reported at 0.
      Otherwise the error comes from the first place `p` where the body
      stops cutting into pieces:
      - the end of the source: the token is unterminated;
      - a backtick or `${`: the error is just after that delimiter;
      - a failing escape: the error is at the backslash when it is the
        last character, and otherwise at the character after it. */
  lemma TemplateTokenError(source: Str) returns (cuts: seq<nat>)
    requires TemplateToken(source).Err?
    ensures var e := TemplateToken(source).error;
      if |source| == 0 || source[0] !in {BACKTICK, RIGHT_BRACE} then e == ParseError(0, MSG_EXPECTED_BACKTICK_OR_BRACE)
      else
        Cuts(source, TemplateBody, cuts) &&
        var p := cuts[|cuts| - 1];
        p <= |source| && TemplatePiece(source, p).None? &&
        (p == |source| ==> e == UnterminatedToken()) &&
        (p < |source| && source[p] == BACKTICK ==> p + 1 < |source| && e == ParseError(p + 1, MSG_PAST_END)) &&
        (p + 1 < |source| && source[p] == DOLLAR && source[p + 1] == LEFT_BRACE ==>
          p + 2 < |source| && e == ParseError(p + 2, MSG_PAST_END)) &&
        (p < |source| && source[p] == BACKSLASH ==>
          (p + 1 == |source| && e == ParseError(p, MSG_TRAILING_BACKSLASH)) ||
          (p + 1 < |source| && e == InvalidEscapeSequence(p + 1)))
  {
    if |source| == 0 || source[0] !in {BACKTICK, RIGHT_BRACE} {
      cuts := [1];
    } else {
      cuts := TemplateTokenPieces(source);
      var p := cuts[|cuts| - 1];
      if p < |source| && source[p] == BACKSLASH {
        EscapeError(source, p, false);
      }
    }
  }
}
