/** Optional values and results with an error, used by every module of the model. */
module Wrappers {

  /** Swift's `Optional`: `None` stands for `nil`. */
  datatype Option<+T> = None | Some(value: T) {
    /** Swift's `??` operator. */
    function GetOr(default: T): T {
      match this
      case Some(v) => v
      case None => default
    }
  }

  /** The outcome of a Swift `throws` function: a value, or the error it threw. */
  datatype Result<+T, +E> = Ok(value: T) | Err(error: E)
}
