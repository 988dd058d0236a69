/** Optional values and results, for the places where the JavaScript code has
    `null`/`undefined` or a thrown value. */
module Wrappers {

  datatype Option<+T> = None | Some(value: T) {

    /** The value, or a default when there is none */
    function GetOr(default: T): T {
      match this
      case Some(v) => v
      case None => default
    }
  }

  /** The settled value of an operation that either returns or throws */
  datatype Result<+T, +E> = Ok(value: T) | Thrown(error: E)
}
