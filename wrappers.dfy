/** Option and Result values shared by every module of the model. */
module Wrappers {

  /** A value that may be missing (JavaScript `undefined`, or a lookup that found nothing). */
  datatype Option<+T> = None | Some(value: T) {
    function GetOr(default: T): T {
      match this
      case Some(v) => v
      case None => default
    }
  }

  /** The outcome of a call that can throw: `Err` carries the reason of the exception. */
  datatype Result<+T> = Ok(value: T) | Err(error: string)

  /** The outcome of a call that returns nothing but can throw. */
  datatype Outcome = Pass | Fail(error: string)
}
