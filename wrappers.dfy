/** Failure-compatible values shared by every module of the model. */
module Wrappers {

  /** A value that may be absent: an optional field, `undefined` or `null`. */
  datatype Option<+T> = None | Some(value: T) {
    function GetOr(default: T): T {
      match this
      case Some(v) => v
      case None => default
    }
  }

  /** A value, or the error that a call threw instead of producing it. */
  datatype Result<+T, +E> = Ok(value: T) | Err(error: E)

  /** The completion of a call that produces nothing: it returned, or it threw. */
  datatype Outcome<+E> = Pass | Fail(error: E)
}
