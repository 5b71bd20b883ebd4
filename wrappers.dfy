/** An optional value and a success-or-failure result, shared by the other modules. */
module Wrappers {

  /** A value that may be absent: an optional JSON field, a query that found nothing. */
  datatype Option<+T> = None | Some(value: T)

  /** The outcome of a step that can fail with an error message. */
  datatype Result<+R, +E> = Success(value: R) | Failure(error: E)
}
