/** Option and Result datatypes used across the model. */
module Wrappers {

  /** A possibly absent value: `None` is a SQL NULL / pandas NA cell. */
  datatype Option<+T> = None | Some(value: T) {

    /** The value held, or `default` when absent (pandas `fillna(default)`). */
    function GetOr(default: T): T {
      match this
      case Some(v) => v
      case None => default
    }
  }

  /** The outcome of an operation that can fail with an error of type `E`. */
  datatype Result<+R, +E> = Ok(value: R) | Err(error: E)
}
