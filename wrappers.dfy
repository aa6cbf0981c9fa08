/** Option and Result: absent values and thrown errors of the modelled code. */
module Wrappers {

  datatype Option<+T> = None | Some(value: T) {
    function GetOr(default: T): T {
      match this
      case Some(v) => v
      case None => default
    }
  }

  /** `Err(msg)` stands for a thrown `Error(msg)`. */
  datatype Result<+T> = Ok(value: T) | Err(error: string)
}
