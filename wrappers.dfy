/** Optional values and results with an error message, used for the
    dictionary lookups and exceptions of the handlers. */
module Wrappers {

  datatype Option<+T> = None | Some(value: T) {
    /** The value, or `default` when absent: Python's `d.get(k, default)`. */
    function GetOr(default: T): T {
      match this
      case Some(v) => v
      case None => default
    }
  }

  /** `Err` carries the text that `str(e)` gives for the raised exception. */
  datatype Result<+T> = Ok(value: T) | Err(error: string)
}
