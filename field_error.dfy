/**
 * The GraphQL error the enum parsers of the static resources return: a
 * message, a numeric `code` and a `details` text naming the rejected input.
 */
module FieldErrors {

  datatype FieldError = FieldError(message: string, code: int, details: string)

  /** The error of a `FromStr` that does not know `s`: code 300 and `Can not resolve <what> name. Unknown <kind>: '<s>'`. */
  function UnknownName(message: string, what: string, kind: string, s: string): (e: FieldError)
    ensures e.code == 300 && e.message == message
  {
    FieldError(message, 300, "Can not resolve " + what + " name. Unknown " + kind + ": '" + s + "'")
  }
}
