/** Outcomes of the decoder: an optional value, and the error value that the
    source raises as a SyntaxError carrying a `pos` (lib/parse-error.js). */
module Results {

  datatype Option<T> = None | Some(value: T)

  /** A syntax error: the offset into the token's source and the message. */
  datatype ParseError = ParseError(pos: int, message: string)

  /** Either a value or the error the source would throw. */
  datatype Result<T> = Ok(value: T) | Err(error: ParseError)

  const MSG_PAST_END := "Unexpected character past end of token"
  const MSG_INVALID_ESCAPE := "Invalid escape sequence"
  const MSG_TRAILING_BACKSLASH := "Unexpected trailing backslash"
  const MSG_EXPECTED_QUOTE := "Expected single or double quotation mark"
  const MSG_EXPECTED_BACKTICK_OR_BRACE := "Expected backtick or closing brace"
  const MSG_UNTERMINATED := "Unterminated token"
  const MSG_LINE_TERMINATION := "Unexpected line termination"

  /** `invalidEscapeSequence(pos)` */
  function InvalidEscapeSequence(pos: int): ParseError
  {
    ParseError(pos, MSG_INVALID_ESCAPE)
  }

  /** `unterminatedToken()`: always reported at offset 0. */
  function UnterminatedToken(): ParseError
  {
    ParseError(0, MSG_UNTERMINATED)
  }
}
