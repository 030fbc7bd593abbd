/** Option and Result, the two wrappers every other module uses for Python's
    None and for a call that either returns or raises. */
module Wrappers {

  datatype Option<T> = None | Some(value: T)
  {
    function GetOr(default: T): T
    {
      match this
      case None => default
      case Some(v) => v
    }
  }

  /** The outcome of a call into something outside the model: the value it
      returned, or the text of the exception it raised (Python's `str(e)`). */
  datatype Result<T> = Ok(value: T) | Err(error: string)
}
