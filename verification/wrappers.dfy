/** Failure-compatible wrappers: `Option` for JavaScript's `undefined`/`null`
    and `Result` for operations that throw. */
module Wrappers {

  datatype Option<+T> = None | Some(value: T) {

    /** The value, or `default` when absent: JavaScript's `x ?? default`. */
    function GetOr(default: T): T {
      match this
      case Some(v) => v
      case None => default
    }
  }

  /** `Failure` stands for a thrown error; `error` is its message. */
  datatype Result<+R, +E> = Success(value: R) | Failure(error: E)
}
