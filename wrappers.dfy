/** Failure-compatible wrappers shared by the model: `null`/`undefined` becomes `Option`,
    a thrown error becomes the `Failure` of a `Result` or the `Fail` of an `Outcome`. */
module Wrappers {

  datatype Option<+T> = None | Some(value: T) {
    function GetOr(default: T): T {
      if Some? then value else default
    }
  }

  datatype Result<+T, +E> = Success(value: T) | Failure(error: E)

  /** The result of a check that returns nothing but may throw */
  datatype Outcome<+E> = Pass | Fail(error: E)
}
