/** Option and Result, for values left null or undefined and for thrown errors. */
module Wrappers {

  datatype Option<+T> = None | Some(value: T) {
    /** `this ?? fallback`: the held value, or the fallback when there is none. */
    function GetOr(fallback: T): T {
      match this
      case Some(v) => v
      case None => fallback
    }
  }

  datatype Result<+R, +E> = Ok(value: R) | Err(error: E)
}
