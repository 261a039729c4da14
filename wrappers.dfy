/** Optional values and the outcome of a call that may raise. */
module Wrappers {

  /** Python's `None` versus a present value. */
  datatype Option<+T> = None | Some(value: T) {
    /** The value, or `default` when there is none (Python's `dict.get(key, default)`). */
    function GetOr(default: T): T {
      match this
      case Some(v) => v
      case None => default
    }
  }

  /** A call that returns a value or raises; `error` stands for `str(e)`. */
  datatype Result<+T> = Ok(value: T) | Err(error: string)
}
