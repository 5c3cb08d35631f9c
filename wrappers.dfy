/** Failure-compatible helper types shared by the model's modules. */
module Wrappers {

  /** A value that may be missing (Swift's optional). */
  datatype Option<+T> = None | Some(value: T) {
    /** The value, or `default` when missing (Swift's `??`). */
    function GetOr(default: T): T {
      match this
      case Some(v) => v
      case None => default
    }
  }

  /** A value or an error (a Swift function that returns or throws). */
  datatype Result<+T, +E> = Success(value: T) | Failure(error: E)

  /** Completion or an error (a Swift `throws` function returning `Void`). */
  datatype Outcome<+E> = Pass | Fail(error: E)
}
