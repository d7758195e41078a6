# String-literal and template-token decoder, modelled in Dafny

The library turns the source text of one JavaScript string literal
(`"…"` or `'…'`) or one template token (`` `…` ``, `` `…${ ``, `}…` ``
etc.) into the UTF-16 code units it denotes. Each code unit is a record
`{char, start, source, surrogate}` saying which part of the token's text
produced it. `charCode`, `length` and `end` are derived from those fields.
A string literal also reports three used-feature flags: `codePointEscape`,
`lineTerminator` and `octalEscape`. A malformed token raises a
`SyntaxError` carrying a `pos` offset and a message.

The model follows the code's own structure.

- `Chars`
  - UTF-16 code units (`Unit16`, a subset of `int` below 0x10000); strings
    are sequences of code units, and lone surrogates are allowed.
  - Digit classification.
  - `DigitsValue`: the exact value of a run of digits, i.e. `parseInt`.
  - `ToUint16`: the wrap-around of `String.fromCharCode`.
  - `FromCodePoint`: the surrogate-pair split of `String.fromCodePoint`
    (section 2.1 of RFC 2781).
- `Results`: the `{pos, message}` errors of lib/parse-error.js as a
  `Result` value.
- `CodeUnits`: lib/code-unit.js. A `CodeUnit` datatype, `CreateCodeUnit`,
  and the three getters.
- `Escapes`: the escape decoder as pure functions of the input and the
  position after the backslash (`DecodeEscape`, with `HexSequence`,
  `UnicodeSequence`, `OctalSequence`), and the unit builder `MapEscape`.
  The grammar is that of sections 12.9.4 and 12.9.6 of ECMA-262 (2022
  edition): String Literals with LegacyOctalEscapeSequence and
  NonOctalDecimalEscapeSequence, and Template Literal Lexical Components.
- `Scanners`: the loops of `parseStringLiteral` and `parseTemplateToken`,
  written as functions (`ScanString`, `ScanTemplate`) that recurse once
  per loop iteration.
- `Parse`: the imperative code as it is written.
  - A `Reader` class whose `read*` methods advance `pos`.
  - A `UsedFeatures` class that `MarkUsedFeature` updates in place.
  - The two scanners as methods with `while` loops.
  - Every method is proved to compute the corresponding function of
    `Escapes`/`Scanners`.
- `EscapeProperties`: what each kind of escape decodes to, and which
  error it raises, stated over the token text.
- `UnitSequences`, `ScannerProperties`: the properties of every accepted
  token.
  - Provenance: each unit's `source` is the input from `start` to `end`.
  - Ordering: starts never decrease, and only the two halves of a
    surrogate pair share a start.
  - The closing delimiter, and the shape of each unit.
  - The used-feature flags as a property of the emitted units.
  - What the `charCode`, `length` and `end` getters read on those units.
- `Tiling`: every token's body cut into consecutive pieces: an escape, a
  raw character, or a raw CR LF in a template. The units of an accepted
  token are the pieces' units in order. The first place where no piece
  starts decides what the scanner returns or throws.
- `SampleTokens`: concrete tokens from the repository's test suite.

Termination of both scanners is proved by their `decreases` clauses: every
iteration either exits or advances the cursor.

## Model

| member | source | states |
|---|---|---|
| Chars.DigitValue | lib/parse.js:21 | a hexadecimal digit has value below 16; it is a decimal digit iff the value is below 10, and an octal digit iff below 8 |
| Chars.IsHexSubstring | lib/parse.js:21 | `isHexString` of a substring holds iff the substring is non-empty and every character in place is a hex digit |
| Chars.DigitsValueBound | lib/parse.js:33 | n digits of a radix denote a number below radix^n |
| Chars.ToUint16 | lib/parse.js:35 | `String.fromCharCode` keeps the value modulo 2^16, and so keeps any value below 0x10000 unchanged |
| Chars.FromCodePoint | lib/parse.js:52 | a code point up to U+FFFF gives itself; a larger one gives a high and a low surrogate that decode back to it |
| Chars.PairRoundTrip | lib/parse.js:52 | every high/low surrogate pair decodes to a supplementary code point (0x10000..0x10FFFF) that encodes back to the pair |
| CodeUnits.CreateCodeUnitExample | spec.js:688-699 | `createCodeUnit('A', 42, '\\A', 'custom')` has charCode 65, end 44, length 2 and keeps the tag `custom` |
| CodeUnits.OmittedSurrogateExample | lib/code-unit.js:39-49 | a unit created with three arguments has no `surrogate` |
| Escapes.Mark | lib/parse.js:23-24 | setting one used-feature flag makes it true and leaves the other two as they were |
| Escapes.SimpleEscape | lib/parse.js:6-7 | exactly `b f n r t v` have an entry, and each maps to one of the six control characters |
| Escapes.HexSequence | lib/parse.js:27-36 | on success the cursor moves past exactly `length` characters, inside the input, and one code unit is read |
| Escapes.HexRunEnd | lib/parse.js:42-44 | the end of the maximal run of hex digits: everything before it is a hex digit and the character at it is not |
| Escapes.HexRunEndIsMaximalRun | lib/parse.js:42-44 | any maximal run of hex digits ends where HexRunEnd says, so the sticky `\{[hex]+}` match is unique |
| Escapes.UnicodeSequence | lib/parse.js:39-55 | on success one or two units are read and the cursor advances; two units are a high and a low surrogate and mark `codePointEscape` |
| Escapes.OctalRun | lib/parse.js:63 | the `/^[0-7]+/` match within `maxLength` characters: at most `maxLength` octal digits, and it stops only at the limit, the end or a non-octal character |
| Escapes.OctalRunIsMaximalRun | lib/parse.js:63 | any run of octal digits that stops at the limit or at a non-octal character has the length OctalRun gives |
| Escapes.OctalSequence | lib/parse.js:58-67 | on success one unit is read and the cursor stays inside the input, at or after the first digit's successor |
| Escapes.DecodeEscape | lib/parse.js:70-118 | on success the cursor moves forward, inside the input, and 0, 1 or 2 units are read; two units are a surrogate pair from a code-point escape |
| Escapes.MapEscape | lib/parse.js:121-146 | on success the cursor is past the backslash and at least one more character, and at most two code-unit records are produced |
| EscapeProperties.TrailingBackslash | lib/parse.js:73-75 | a backslash as the last character fails "Unexpected trailing backslash" at the backslash |
| EscapeProperties.SimpleEscapes | lib/parse.js:77-79 | `\b \f \n \r \t \v` give one untagged unit holding the control character, with the two-character source |
| EscapeProperties.DigitsValueDigits | lib/parse.js:33 | the value of one to four digits written out positionally |
| EscapeProperties.OctalByteBound | lib/parse.js:65-66 | up to two octal digits, or three led by 0-3, denote at most 255 |
| EscapeProperties.HexSequenceExact | lib/parse.js:27-36 | a hex read succeeds iff the `length` characters exist and form a hex string; otherwise it fails at the character before them; for up to four digits the unit is their exact value (no wrap-around) |
| EscapeProperties.HexEscape | lib/parse.js:82-83 | `\xHH` succeeds iff two hex digits follow, giving one unit of value 16·H1+H2 with the four-character source; otherwise it fails at the `x` |
| EscapeProperties.FourDigitUnicodeEscape | lib/parse.js:39-55 | unbraced `\u` succeeds iff four hex digits follow, giving one unit with their value and the six-character source; otherwise it fails at the `u` |
| EscapeProperties.BracedUnicodeEscape | lib/parse.js:39-55 | `\u{…}` with digits, `}` and a value at most U+10FFFF gives one unit (≤ U+FFFF) or a high/low pair with equal start and source that decodes to the value, and marks `codePointEscape`; every other braced form fails at the `u` |
| EscapeProperties.LineContinuation | lib/parse.js:86-93 | a backslash before LF, CR, U+2028 or U+2029 gives no unit and no feature; CR LF is consumed whole |
| EscapeProperties.NulEscape | lib/parse.js:94-96 | `\0` not followed by a decimal digit is one NUL unit with no feature, even where octal escapes are not allowed |
| EscapeProperties.OctalSequenceValue | lib/parse.js:58-67 | an allowed octal read is the octal value of the maximal run of at most `maxLength` digits, and that value fits in a byte |
| EscapeProperties.OctalEscapeDecoded | lib/parse.js:94-108 | an allowed legacy octal escape decodes to the value of its digit run, with `octalEscape` |
| EscapeProperties.LegacyOctalEscape | lib/parse.js:94-108 | an allowed legacy octal escape consumes the longest run of octal digits, at most 3 after 0-3 and 2 after 4-7, and gives one unit with their value (at most 255) and `octalEscape` |
| EscapeProperties.OctalEscapeDisallowed | lib/parse.js:58-62 | where octal escapes are not allowed, every legacy octal escape and `\8`/`\9` fails at the digit after the backslash |
| EscapeProperties.NonOctalDecimalEscape | lib/parse.js:109-116 | `\8`/`\9` give the digit itself with `octalEscape` where allowed, and fail at the digit otherwise |
| EscapeProperties.IdentityEscape | lib/parse.js:115-116 | any other character after a backslash gives itself, with no feature |
| UnitSequences.AppendWellFormed | lib/parse.js:171 | well-formed units from adjacent parts of the input concatenate to well-formed units |
| UnitSequences.StartsOrdered | lib/parse.js:161-185 | in well-formed units starts never decrease, and only the two halves of a surrogate pair share a start |
| UnitSequences.FeaturesOfAppend | lib/parse.js:171 | the flags of a concatenation join the flags of its parts |
| UnitSequences.FeaturesOfMeans | lib/parse.js:159-160 | each flag of a sequence holds iff some unit stands for it; none holds for no units |
| ScannerProperties.EscapeWellFormed | lib/parse.js:121-146 | every record of an escape starts at the backslash, carries the escape's whole text and is well formed there |
| ScannerProperties.AppendEscape | lib/parse.js:171 | appending an escape's records keeps the units well formed, and the new ones have a backslash-led source of at least two characters |
| ScannerProperties.AppendSingle | lib/parse.js:183 | appending one raw unit keeps the units well formed |
| ScannerProperties.EscapeError | lib/parse.js:70-118 | an escape fails either as a trailing backslash at the backslash or as an invalid escape at the character after it |
| ScannerProperties.SimpleEscapeFeatures | lib/parse.js:77-79 | a simple escape marks no flag, and its unit stands for none |
| ScannerProperties.HexEscapeFeatures | lib/parse.js:82-83 | a `\x` escape marks no flag, and its unit stands for none |
| ScannerProperties.BracedUnicodeEscapeFeatures | lib/parse.js:50-51 | a `\u{…}` escape marks `codePointEscape`, and its units stand for exactly that |
| ScannerProperties.FourDigitUnicodeEscapeFeatures | lib/parse.js:84-85 | an unbraced `\u` escape marks no flag, and its unit stands for none |
| ScannerProperties.NulEscapeFeatures | lib/parse.js:94-96 | `\0` alone marks no flag, and its unit stands for none |
| ScannerProperties.LegacyOctalEscapeFeatures | lib/parse.js:97-108 | a legacy octal escape marks `octalEscape`, and its unit stands for exactly that |
| ScannerProperties.NonOctalDecimalEscapeFeatures | lib/parse.js:109-114 | `\8`/`\9` mark `octalEscape`, and the unit stands for exactly that |
| ScannerProperties.IdentityEscapeFeatures | lib/parse.js:115-116 | an identity escape marks no flag, and its unit stands for none |
| ScannerProperties.EscapeFeatures | lib/parse.js:121-146 | the flag an escape marks in a string literal is exactly the flags its units stand for |
| ScannerProperties.ScanStringShape | lib/parse.js:161-185 | from any well-formed state, an accepting scan ends on the quote as the last character and keeps every unit well formed and of string-unit shape |
| ScannerProperties.StringLiteralShape | lib/parse.js:161-185 | an accepted literal ends with its opening quote; every unit is one code unit whose `source` is the input from `start` to `end` between the quotes, units come in source order, and only the halves of a surrogate pair share a start; a one-character unit is that raw character, which is not the quote, a backslash, LF or CR |
| ScannerProperties.ScanStringFeatures | lib/parse.js:161-185 | the flags the loop collects are the flags of the units it emits |
| ScannerProperties.StringLiteralFeatures | lib/parse.js:159-179 | `lineTerminator`, `codePointEscape` and `octalEscape` hold exactly when some unit is a raw U+2028/U+2029, comes from `\u{`, or comes from a legacy octal escape or `\8`/`\9` |
| ScannerProperties.TemplateStep | lib/parse.js:213-234 | one non-final iteration of the template loop advances the cursor and keeps the units well formed |
| ScannerProperties.ScanTemplateWellFormed | lib/parse.js:199-235 | an accepting template scan ends on a final backtick, or a final `${`, with all units well formed before it |
| ScannerProperties.ScanTemplateUnits | lib/parse.js:199-235 | every unit of an accepting template scan is a raw CR LF as one LF, a raw character kept verbatim, or an escape |
| ScannerProperties.TemplateTokenShape | lib/parse.js:199-235 | an accepted template starts with a backtick or `}` and ends at a backtick or `${`; every unit is one code unit whose `source` is the input from `start` to `end` before that delimiter, units come in source order, and only the halves of a surrogate pair share a start; a raw CR LF is one LF unit |
| ScannerProperties.StringUnitGetters | lib/code-unit.js:8-19 | for every unit of an accepted string literal, `charCode` is its one code unit, `length` is `end - start` and at least 1, and `source` is the input between `start` and `end`, which lie between the quotes |
| ScannerProperties.TemplateUnitGetters | lib/code-unit.js:8-19 | the same for every unit of an accepted template token; `end` is at most the offset of the closing backtick, or of the `$` of a closing `${` |
| Tiling.PieceText | lib/parse.js:121-146 | every unit of a piece starts at the piece and carries its whole text; a piece gives no unit exactly when it is a line continuation, and at most two units |
| Tiling.ScanStringCuts | lib/parse.js:161-185 | from any cut, the string loop goes on cutting pieces until a place where none starts, and that place decides what it returns or throws |
| Tiling.StringLiteralPieces | lib/parse.js:148-187 | a literal that opens with a quote cuts into pieces from offset 1 up to the first place `p` where no piece starts; at the end of the source it is unterminated (offset 0); at the quote it is accepted with the pieces' units if the quote is last and otherwise fails past the end at `p + 1`; at a raw LF or CR it fails at `p`; at a failing escape it fails with that escape's error |
| Tiling.StringLiteralDecoded | lib/parse.js:150-187 | an accepted literal is its pieces from offset 1 to the closing quote, which is the last character, and its units are those pieces' units in order: a raw character's own unit, or `MapEscape`'s units for an escape |
| Tiling.StringLiteralError | lib/parse.js:148-187 | a missing opening quote fails at 0; otherwise the error is fixed by the first place `p` where no piece starts: "Unterminated token" at 0 at the end, past the end at `p + 1` after the quote, line termination at `p` for LF/CR, and for a failing escape a trailing backslash at `p` or an invalid escape at `p + 1` |
| Tiling.ScanTemplateCuts | lib/parse.js:199-235 | from any cut, the template loop goes on cutting pieces until a place where none starts, and that place decides what it returns or throws |
| Tiling.TemplateTokenPieces | lib/parse.js:189-237 | a template that opens with a backtick or `}` cuts into pieces (an escape, a raw CR LF, one raw character) up to the first place `p` where none starts; at the end it is unterminated; at a backtick or `${` it is accepted with the pieces' units if that delimiter ends the source and otherwise fails just after it; at a failing escape it fails with that escape's error |
| Tiling.TemplateTokenDecoded | lib/parse.js:189-237 | an accepted template is its pieces from offset 1 to the closing backtick or `${` that ends the source, and its units are those pieces' units in order |
| Tiling.TemplateTokenError | lib/parse.js:189-237 | a wrong first character fails at 0; otherwise the error is fixed by the first place `p` where no piece starts: "Unterminated token" at the end, past the end just after a backtick or `${`, and for a failing escape a trailing backslash at `p` or an invalid escape at `p + 1` |
| Parse.UsedFeatures.constructor | lib/parse.js:159-160 | all three flags start false |
| Parse.MarkUsedFeature | lib/parse.js:23-24 | with a dictionary, the named flag becomes true and the others keep their values; without one, nothing happens |
| Parse.Reader.constructor | lib/parse.js:15 | the reader holds the source, with the cursor at 0 |
| Parse.Reader.ReadHexSequence | lib/parse.js:27-36 | returns HexSequence's string or error, and on success leaves the cursor where HexSequence says |
| Parse.Reader.ReadUnicodeSequence | lib/parse.js:39-55 | returns UnicodeSequence's string or error, and on success advances the cursor and marks the feature it says |
| Parse.Reader.ReadOctalSequence | lib/parse.js:58-67 | returns OctalSequence's string or error, and on success leaves the cursor where OctalSequence says |
| Parse.Reader.ReadEscapeSequenceOrLineContinuation | lib/parse.js:70-118 | returns DecodeEscape's string or error, and on success advances the cursor and marks the feature it says |
| Parse.Reader.MapEscapeSequenceOrLineContinuation | lib/parse.js:121-146 | returns MapEscape's records or error, and on success advances the cursor and marks the feature it says |
| Parse.ParseStringLiteral | lib/parse.js:150-187 | the loop returns exactly StringLiteral(source), whose properties are the StringLiteral lemmas above (decoding and errors in `Tiling`) |
| Parse.ParseTemplateToken | lib/parse.js:189-237 | the loop returns exactly TemplateToken(source), whose properties are the TemplateToken lemmas above (decoding and errors in `Tiling`) |
| SampleTokens.EmptyStringLiteral | spec.js:36-45 | `""` gives no units and all flags false |
| SampleTokens.OctalEscapeBeforeEight | spec.js:227-239 | `"\08"` gives NUL from `\0` and a raw `8`, and marks `octalEscape` |
| SampleTokens.OctalEscapeAt | lib/parse.js:94-108 | an allowed octal escape with a known run and value gives that one unit with `octalEscape` |
| SampleTokens.UnterminatedStringLiteral | spec.js:323-330 | `'foo` fails "Unterminated token" at 0 |
| SampleTokens.CharacterPastEndOfString | spec.js:333-345 | `"a"z"` fails past the end of the token at 3 |
| SampleTokens.TrailingBackslashInString | spec.js:299-306 | `"foo\` fails "Unexpected trailing backslash" at 4 |
| SampleTokens.OctalEscapeInTemplate | spec.js:655-660 | `` `\00` `` fails "Invalid escape sequence" at 2 |
| SampleTokens.NonOctalDecimalEscapeInTemplate | spec.js:648-653 | `` `a\9` `` fails "Invalid escape sequence" at 3 |
| SampleTokens.CharacterPastEndOfTemplate | spec.js:627-640 | `` `a${z` `` fails past the end of the token at 4 |

## Left out

- The custom `util.inspect` hook and `Symbol.toStringTag` of code units (lib/code-unit.js:3-4, 20-36): presentation only.
- `Object.create` and property descriptors (lib/code-unit.js:41-51): the record is a datatype and the getters are functions.
- The `SyntaxError` object (lib/parse-error.js): an error is the value `ParseError(pos, message)`.
- `String(source)` coercion (lib/parse.js:15): inputs are already sequences of UTF-16 code units.
- Generators and spread (lib/parse.js:121, 171, 214): an escape returns a sequence of zero to two records, and the scanners append it.
- The regular expressions (lib/parse.js:21, 42, 63) are written as digit predicates and loops (`DigitsIn`, `HexRunEnd`, `OctalRun`), with lemmas saying those give the regex's unique match.
- `parseInt` works in floating point, which loses precision on long `\u{…}` digit strings (lib/parse.js:47). The model uses exact `nat` values. Only the comparison with 0x10FFFF depends on this, and a float rounded from a value above 0x10FFFF stays above it.
- In a template, `usedFeatures` is created and marked but never returned (lib/parse.js:198). The model marks it too but states nothing about it.
- In the source, `markUsedFeature` runs before `readOctalSequence` (lib/parse.js:101, 107), so a flag is set even when the read then throws. The model keeps that order in `Reader.ReadEscapeSequenceOrLineContinuation` but says nothing about the flags after an error: the error discards them.
- Parse.Reader.*, Parse.MarkUsedFeature, Parse.UsedFeatures.constructor: these state the new state with `old` and fields, as methods that change state do. Their properties are carried by the functions they are proved equal to.

### Two facts about the code

- **Octal escapes in templates.** Where octal escapes are not allowed, a legacy octal escape or `\8`/`\9` fails at the digit after the backslash, not at the backslash (lib/parse.js:60-62 and 111-112; the tests expect this at spec.js:652, 659 and 666). `EscapeProperties.OctalEscapeDisallowed` states it.
- **Rebuilding the input from the units.** Simply concatenating the units' `source` fields does not give back the token's body (spec.js:88-89, 103-108 show both reasons):
  - a line continuation emits no unit, so its text is missing;
  - the two halves of a surrogate pair carry the same `source`, so that text appears twice.

  What does hold is stated by `Tiling.StringLiteralDecoded`, `Tiling.TemplateTokenDecoded` and `Tiling.PieceText`. The body from offset 1 to the closing delimiter cuts into consecutive pieces. Every unit of a piece carries the piece's whole text. A piece yields no unit exactly when it is a line continuation. It follows from these three, though no single lemma states it, that the body is the concatenation of the pieces' texts, and each piece's text is the `source` of its first unit or, for a unit-less piece, a line continuation.
