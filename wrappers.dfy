/** Option and Result values shared by every component model. */
module Wrappers {

  /** A value that may be absent: `null` or `undefined` on the JavaScript side. */
  datatype Option<+T> = None | Some(value: T) {

    /** Returns the value when present, `default` otherwise (the `??` operator). */
    function GetOr(default: T): T {
      match this
      case Some(v) => v
      case None => default
    }
  }

  /** The outcome of an operation that can throw: a value, or the message it failed with. */
  datatype Result<+R> = Ok(value: R) | Err(message: string)
}
