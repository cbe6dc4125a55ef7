/** Optional values and success-or-error answers. */
module Wrappers {

  /** A value that may be absent (a Go nil pointer, a SQL NULL). */
  datatype Option<+T> = None | Some(value: T) {

    /** The value, or `default` when there is none. */
    function GetOr(default: T): (r: T)
      ensures Some? ==> r == value
      ensures None? ==> r == default
    {
      if Some? then value else default
    }
  }

  /** The answer of a call that returns a value or a Go `error`. */
  datatype Result<+T> = Ok(value: T) | Err(error: string)
}
