/** Option and Result: absent values and thrown errors of the JavaScript source. */
module Wrappers {

  datatype Option<+T> = None | Some(value: T) {
    function GetOr(default: T): T {
      match this
      case Some(v) => v
      case None => default
    }
  }

  /** `Err` stands for an exception the source throws, with its message. */
  datatype Result<+T> = Ok(value: T) | Err(error: string)
}
