/** Option and Result, the shapes every module below uses for `null` and for thrown errors. */
module Wrappers {

  /** `T | null`, or a property that may be absent. */
  datatype Option<+T> = None | Some(value: T) {
    function GetOr(default: T): T {
      match this
      case Some(v) => v
      case None => default
    }
  }

  /** A value, or the error an `async` call would have thrown. */
  datatype Result<+R, +E> = Success(value: R) | Failure(error: E)
}
