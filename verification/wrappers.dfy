/** Optional values and fallible results, shared by every module of the model. */
module Wrappers {

  /** Swift's `Optional`: an absent value is distinct from every present one. */
  datatype Option<+T> = None | Some(value: T) {

    /** Swift's `??` operator. */
    function GetOr(default: T): T {
      match this
      case Some(v) => v
      case None => default
    }
  }

  /** The outcome of a call that may throw: the value, or the error thrown. */
  datatype Result<+R, +E> = Success(value: R) | Failure(error: E)
}
