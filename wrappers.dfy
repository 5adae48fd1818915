/** Optional values and results with an error, for JavaScript's `undefined`,
    `null` and thrown errors. */
module Wrappers {

  datatype Option<+T> = None | Some(value: T) {
    /** `x || fallback` for a value whose absence is the only falsy case. */
    function GetOr(fallback: T): T {
      match this
      case Some(v) => v
      case None => fallback
    }
  }

  datatype Result<+R, +E> = Success(value: R) | Failure(error: E)
}
