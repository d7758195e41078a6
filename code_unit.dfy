/** The public code-unit record (lib/code-unit.js): four stored fields and
    three derived ones. */
module CodeUnits {
  import opened Chars
  import opened Results

  const HIGH: string := "high"
  const LOW: string := "low"

  /** A code unit: `character` is the `char` field, the unit as a string, `start` the offset of the
      construct that produced it, `source` the exact text it came from and
      `surrogate` the half of a surrogate pair it is (None is `undefined`).
      `surrogate` is stored as given, so a tag other than "high" or "low" is
      representable. */
  datatype CodeUnit = CodeUnit(character: Str, start: int, source: Str, surrogate: Option<string>)

  /** `createCodeUnit(char, start, source, surrogate)`; an omitted
      `surrogate` is undefined. */
  function CreateCodeUnit(character: Str, start: int, source: Str, surrogate: Option<string> := None): CodeUnit
  {
    CodeUnit(character, start, source, surrogate)
  }

  /** The `charCode` getter, `char.charCodeAt()`: the first code unit of
      `char`; None stands for the NaN that an empty `char` would give. */
  function CharCode(u: CodeUnit): Option<Unit16>
  {
    if |u.character| == 0 then None else Some(u.character[0])
  }

  /** The `length` getter: the number of source characters consumed. */
  function Length(u: CodeUnit): nat
  {
    |u.source|
  }

  /** The `end` getter: one past the last source character consumed. */
  function End(u: CodeUnit): int
  {
    u.start + Length(u)
  }

  /** `createCodeUnit('A', 42, '\\A', 'custom')`: charCode 65, end 44,
      length 2, and the custom tag kept verbatim. */
  lemma CreateCodeUnitExample()
    ensures var u := CreateCodeUnit([0x41], 42, [BACKSLASH, 0x41], Some("custom"));
      CharCode(u) == Some(65) && End(u) == 44 && Length(u) == 2 &&
      u.start == 42 && u.surrogate == Some("custom")
  {
  }

  /** `createCodeUnit('?', 1, '?')`: the omitted tag is undefined. */
  lemma OmittedSurrogateExample()
    ensures CreateCodeUnit([0x3F], 1, [0x3F]).surrogate == None
  {
  }
}
