/** Optional values and results with an error list, shared by every module. */
module Wrappers {

  /** A value that may be absent (`undefined` / `null` in the application). */
  datatype Option<+T> = None | Some(value: T) {

    /** The value, or `default` when absent (the application's `x ?? default` / `x || default`). */
    function GetOr(default: T): T {
      match this
      case Some(v) => v
      case None => default
    }
  }

  /** The outcome of a validation: the accepted value or the errors found. */
  datatype Result<+R, +E> = Ok(value: R) | Err(error: E)
}
