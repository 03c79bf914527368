/** Option, Result and Attempt types shared by the whole model. */
module Wrappers {

  datatype Option<+T> = None | Some(value: T) {
    function GetOr(default: T): T {
      match this
      case Some(v) => v
      case None => default
    }
  }

  datatype Result<+T, +E> = Ok(value: T) | Err(error: E)

  /** The outcome of a Python evaluation that may raise: `Raised` stands for
      any exception (a failed HTTP call, a `TypeError` on a value of the
      wrong type, ...). */
  datatype Attempt<+T> = Done(value: T) | Raised
}
