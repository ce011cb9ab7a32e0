/** Optional values and results with an error message: the model's stand-ins
    for JavaScript's `undefined` and for a thrown `Error`. */
module Wrappers {

  datatype Option<+T> = None | Some(value: T) {
    function GetOr(default: T): T {
      match this
      case Some(v) => v
      case None => default
    }
  }

  /** `Err(message)` is an operation that throws `new Error(message)`. */
  datatype Result<+T> = Ok(value: T) | Err(message: string)
}
