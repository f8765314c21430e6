/** Optional values and results with an error message: the model's stand-ins
    for JavaScript's `undefined` and for a thrown `Error`. */
module Wrappers {

  datatype Option<+T> = None | Some(value: T) {
    /** The value, or `default` when there is none (JavaScript's `x ?? default`). */
    function GetOr(default: T): T {
      match this
      case Some(v) => v
      case None => default
    }
  }

  /** `Ok(v)` for a normal return, `Err(message)` for `throw new Error(message)`. */
  datatype Result<+T> = Ok(value: T) | Err(message: string)
}
