/** Optional values and results with an error, as used by the clause parsers. */
module Wrappers {

  /** A value that may be absent: an unset accumulator slot, a Java `null`. */
  datatype Option<+T> = None | Some(value: T)

  /** Either a value or the error that ended the computation (a thrown exception). */
  datatype Result<+T, +E> = Success(value: T) | Failure(error: E)
}
