/** Optional values and results with an error message, used throughout the model. */
module Wrappers {

  datatype Option<+T> = None | Some(value: T) {
    function GetOr(default: T): T {
      match this
      case Some(v) => v
      case None => default
    }
  }

  /** The outcome of a Python call that either returns a value or raises an exception whose `str()` is `error`. */
  datatype Result<+T> = Ok(value: T) | Err(error: string)
}
