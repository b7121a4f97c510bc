/** An optional value and a success-or-error result, shared by the model. */
module Wrappers {

  /** A value that may be absent (`undefined` / `null` in the application). */
  datatype Option<+T> = None | Some(value: T) {

    /** The value, or `default` when absent. */
    function GetOr(default: T): T {
      match this
      case Some(v) => v
      case None => default
    }
  }

  /** The outcome of a call into the search backend: a response or an error. */
  datatype Result<+T, +E> = Ok(value: T) | Err(error: E)
}
