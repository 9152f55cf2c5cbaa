/** Failure-carrying values shared by the store and its views. */
module Wrappers {

  /** A value that may be missing: JavaScript's `undefined` / `null`. */
  datatype Option<+T> = None | Some(value: T)
  {
    function GetOr(default: T): T
    {
      match this
      case Some(v) => v
      case None => default
    }
  }

  /** The outcome of a call that may throw an `Error` with a message. */
  datatype Result<+T> = Ok(value: T) | Err(message: string)
}
