/** Option and Result, the failure-carrying values the model uses for
    JavaScript's `null`/`undefined` and for thrown errors. */
module Wrappers {

  datatype Option<+T> = None | Some(value: T) {
    function GetOr(default: T): T {
      match this
      case Some(v) => v
      case None => default
    }
  }

  /** `Err` carries the message of the `Error` the source throws or rejects with. */
  datatype Result<+T> = Ok(value: T) | Err(error: string)
}
