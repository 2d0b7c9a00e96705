/** Optional values, standing in for JavaScript's `undefined` / default parameters. */
module Wrappers {

  datatype Option<+T> = None | Some(value: T) {

    /** The wrapped value, or `default` when absent (a JS default parameter). */
    function GetOr(default: T): T {
      match this
      case Some(v) => v
      case None => default
    }
  }

  /** The outcome of a schema check: the accepted value, or what was wrong with it. */
  datatype Result<+R, +E> = Success(value: R) | Failure(error: E)
}
