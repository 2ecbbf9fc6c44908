/** Failure-carrying results shared by every pallet of the model. */
module Wrappers {

  datatype Option<+T> = None | Some(value: T) {
    function GetOr(default: T): T {
      match this
      case Some(v) => v
      case None => default
    }
  }

  /** A dispatchable's outcome: `Ok` with a value or `Err` with the pallet error. */
  datatype Result<+T, +E> = Ok(value: T) | Err(error: E)
}
