/** Optional values and error-or-value results, standing for Go's nil pointers and (value, error) pairs. */
module Wrappers {

  datatype Option<T> = None | Some(value: T)
  {
    function GetOr(default: T): (r: T)
      ensures Some? ==> r == value
      ensures None? ==> r == default
    {
      match this
      case None => default
      case Some(v) => v
    }
  }

  /** A Go error return: `Err(msg)` carries the error's message text. */
  datatype Result<T> = Ok(value: T) | Err(msg: string)

  /** A bare Go `error` that may be nil. */
  datatype Outcome = Pass | Fail(msg: string)
}
