/** The scanner's diagnostic and the result type its operations return. */
module Errors {

  /** A line-tagged diagnostic. */
  datatype ParsingError = ParsingError(line: nat, message: string)

  /** The message of the one error the scanner reports. */
  const UnexpectedCharacter: string := "Unexpected character."

  /** Either a value or a diagnostic. */
  datatype Result<T> = Ok(value: T) | Err(error: ParsingError)
}
