/** Optional values and failures, standing for Python's `None` and for
    exceptions that a caller catches. */
module Wrappers {

  datatype Option<+T> = None | Some(value: T) {
    function GetOr(default: T): T {
      match this
      case Some(v) => v
      case None => default
    }
  }

  datatype Result<+T> = Ok(value: T) | Err(error: string)
}
