/** Failure-compatible result types used by every operation of the store. */
module Wrappers {

  datatype Option<+T> = None | Some(value: T) {
    /** The value, or `default` when there is none (Python's `x or default` on a NULL). */
    function GetOr(default: T): T {
      match this
      case Some(v) => v
      case None => default
    }
  }

  /** A value-carrying outcome: the new row's id, a query's rows, or an error. */
  datatype Result<+R, +E> = Success(value: R) | Failure(error: E)

  /** An outcome that carries no value on success. */
  datatype Outcome<+E> = Pass | Fail(error: E)
}
