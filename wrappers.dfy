/** Option and Result, the two wrappers every other module uses for values that
    may be missing (JavaScript's `undefined`/`null`) and for calls that may fail. */
module Wrappers {

  datatype Option<+T> = None | Some(value: T) {
    function GetOr(default: T): T {
      match this
      case Some(v) => v
      case None => default
    }
  }

  datatype Result<+R, +E> = Ok(value: R) | Err(error: E)
}
