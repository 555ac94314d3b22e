/** Failure-carrying values shared by every module of the model. */
module Wrappers {

  /** A value that may be absent: an optional field, `null`, `undefined`, or a NaN number. */
  datatype Option<+T> = None | Some(value: T) {

    /** The wrapped value, or `fallback` when absent. */
    function GetOr(fallback: T): T {
      match this
      case Some(v) => v
      case None => fallback
    }
  }

  /** The outcome of an operation that can fail with a message. */
  datatype Result<+R> = Success(value: R) | Failure(error: string)
}
