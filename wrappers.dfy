/** Option and Result: JavaScript's `undefined`/`null` and thrown errors, as values. */
module Wrappers {

  /** `None` stands for an absent, `undefined` or `null` value. */
  datatype Option<+T> = None | Some(value: T) {
    function GetOr(default: T): T {
      match this
      case Some(v) => v
      case None => default
    }
  }

  /** `Err` stands for an exception thrown by the JavaScript code. */
  datatype Result<+T, +E> = Ok(value: T) | Err(error: E)
}
