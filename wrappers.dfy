/** Option and Result values used for JavaScript's `null`/`undefined` and for thrown errors. */
module Wrappers {

  /** `None` stands for a missing, `null` or `undefined` value. */
  datatype Option<+T> = None | Some(value: T) {
    function GetOr(default: T): T {
      match this
      case Some(v) => v
      case None => default
    }
  }

  /** `Err` stands for a thrown exception or an error response. */
  datatype Result<+T, +E> = Ok(value: T) | Err(error: E)
}
