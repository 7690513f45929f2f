/** Optional values and results for the application's thrown/returned errors. */
module Wrappers {

  /** A value that may be absent (`null` / `undefined` in the application). */
  datatype Option<+T> = None | Some(value: T)
  {
    function GetOr(default: T): T
    {
      match this
      case Some(v) => v
      case None => default
    }
  }

  /** The outcome of an operation that throws `new Error(message)` on failure. */
  datatype Result<+T> = Ok(value: T) | Err(error: string)
}
