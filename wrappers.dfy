/** Option and Result, used for the values the source may leave `undefined` or `null`
    and for the exceptions it throws. */
module Wrappers {

  datatype Option<T> = None | Some(value: T) {
    /** `x ?? fallback` */
    function GetOr(fallback: T): T {
      match this
      case Some(v) => v
      case None => fallback
    }
  }

  datatype Result<T, E> = Ok(value: T) | Err(error: E)
}
