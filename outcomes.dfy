/**
  What an accessor call ends in: a value, or one of the four errors it can
  throw. The thrown error objects become the `Err` case of `Result`.
 */
module Outcomes {

  datatype Option<T> = None | Some(value: T)

  /**
    The error taxonomy. ArgumentError is the plain `Error` thrown for a wrong
    argument count; TypeError is the built-in one thrown for a mistyped default
    or allowed-value list; UnsetVariable and ValueError are the two error
    constructors the module exports.
   */
  datatype ErrorKind = ArgumentError | TypeError | UnsetVariable | ValueError

  datatype Error = Error(kind: ErrorKind, message: string)

  datatype Result<T> = Ok(value: T) | Err(error: Error)

  /** The `name` property carried by each kind of error object. */
  function ErrorName(kind: ErrorKind): string
  {
    match kind
    case ArgumentError => "Error"
    case TypeError => "TypeError"
    case UnsetVariable => "UnsetVariableError"
    case ValueError => "ValueError"
  }

  /** Consumers tell the kinds apart by `name`, so no two kinds share one. */
  lemma ErrorNamesDistinct(k1: ErrorKind, k2: ErrorKind)
    ensures ErrorName(k1) == ErrorName(k2) <==> k1 == k2
  {
  }

  /**
    Errors that reveal a mistake in the calling code (argument count, a
    mistyped default or allowed-value list), as opposed to errors about the
    content of the environment.
   */
  predicate IsCallerError(kind: ErrorKind)
  {
    kind == ArgumentError || kind == TypeError
  }
}
