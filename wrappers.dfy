/** Option and Result: the null-or-value and value-or-error shapes the model returns. */
module Wrappers {

  /** A value that may be missing (JavaScript `null` in a normalised record). */
  datatype Option<+T> = None | Some(value: T)

  /** A value or the error a rejected promise or a thrown exception would carry. */
  datatype Result<+T, +E> = Success(value: T) | Failure(error: E)
}
