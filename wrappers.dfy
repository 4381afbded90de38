/** Optional values and results with an error, as in the Dafny standard library's wrappers. */
module Wrappers {

  /** A value that may be missing: JavaScript's `undefined` for an optional argument or field. */
  datatype Option<+T> = None | Some(value: T) {
    /** The value, or `default` when it is missing (a destructuring default). */
    function GetOr(default: T): T {
      match this
      case Some(v) => v
      case None => default
    }
  }

  /** The result of an operation that may throw. */
  datatype Result<+R, +E> = Success(value: R) | Failure(error: E)
}
