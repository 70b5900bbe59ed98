/** Optional values and fallible results, standing in for `undefined`/`null` and for thrown errors. */
module Wrappers {
  datatype Option<+T> = None | Some(value: T) {
    /** JavaScript's `x ?? d`: the value when present, the default otherwise. */
    function GetOr(d: T): T {
      match this
      case None => d
      case Some(v) => v
    }
  }

  datatype Result<+T, +E> = Ok(value: T) | Err(error: E)
}
