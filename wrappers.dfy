/** Optional values and results shared by the modules of this model. */
module Wrappers {

  /** `None` stands for JavaScript's `undefined` / `null`. */
  datatype Option<+T> = None | Some(value: T) {
    /** The `??` operator: the value if present, otherwise the default. */
    function GetOr(default: T): T {
      match this
      case Some(v) => v
      case None => default
    }
  }

  /** The outcome of an operation that may fail with an error value. */
  datatype Result<+R, +E> = Ok(value: R) | Err(error: E)
}
