/** Option and Result, the value-or-failure shapes used by every module. */
module Wrappers {

  /** A value that may be absent: JavaScript's `undefined`/`null` versus a value. */
  datatype Option<+T> = None | Some(value: T) {
    function GetOr(default: T): T {
      match this
      case Some(v) => v
      case None => default
    }
  }

  /** The outcome of an operation that may fail with a classified error. */
  datatype Result<+T, +E> = Success(value: T) | Failure(error: E)
}
