/** Optional values and error results, the two shapes the pipeline's Python code
    expresses with `None` and with raised exceptions. */
module Wrappers {

  /** A value that may be absent (`str | None` in the source). */
  datatype Option<+T> = None | Some(value: T) {

    /** The wrapped value, or `default` when there is none. */
    function GetOr(default: T): T {
      match this
      case Some(v) => v
      case None => default
    }
  }

  /** A successful value or the error the source would raise. */
  datatype Result<+T, +E> = Ok(value: T) | Err(error: E)
}
