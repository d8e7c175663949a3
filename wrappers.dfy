/** Option and Result, the two ways the model spells "null" and "throws". */
module Wrappers {

  datatype Option<T> = None | Some(value: T)
  {
    /** Java's `x != null ? x : d` and TypeScript's `x || d` for a missing value. */
    function GetOr(default: T): (r: T)
      ensures this.Some? ==> r == value
      ensures this.None? ==> r == default
    {
      match this
      case Some(v) => v
      case None => default
    }
  }

  /** A call that either returns a value or throws an exception carrying a message. */
  datatype Result<T> = Ok(value: T) | Err(message: string)
}
