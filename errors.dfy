/**
 * The failures the modelled code can raise, and the result types that carry them.
 * Java exceptions become values: a member that can throw returns a `Result` or an `Outcome`.
 */
module Errors {

  /** The `StandardErrorCode`s carried by a `TrinoException`. */
  datatype ErrorCode =
    | NUMERIC_VALUE_OUT_OF_RANGE
    | DIVISION_BY_ZERO
    | INVALID_CAST_ARGUMENT

  /** The exceptions raised by the modelled code. */
  datatype Error =
    | TrinoException(code: ErrorCode)
      /** `checkState` failed. */
    | IllegalStateException
      /** `checkArgument` failed, or an immutable map builder met a duplicate key. */
    | IllegalArgumentException
      /** `List.get` with an index outside the list. */
    | IndexOutOfBoundsException
      /** `requireNonNull` failed; `what` names the rejected argument. */
    | NullPointerException(what: string)

  datatype Result<+T> = Ok(value: T) | Err(error: Error)

  /** The result of an operation that returns nothing (a Java `void` method). */
  datatype Outcome = Pass | Fail(error: Error)

  datatype Option<+T> = None | Some(value: T)
}
