/** Failure-carrying values shared by the handlers: a thrown error becomes a
    `Failure`/`Fail`, a missing value a `None`. */
module Outcomes {

  datatype Option<+T> = None | Some(value: T)

  /** A value or the error a handler threw. */
  datatype Result<+R, +E> = Success(value: R) | Failure(error: E)

  /** Completion of a handler that returns nothing, or the error it threw. */
  datatype Outcome<+E> = Pass | Fail(error: E)
}
