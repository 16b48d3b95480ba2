/** Optional values and error results, standing in for PHP's `null` and for
    exceptions that a caller is expected to see. */
module Wrappers {

  datatype Option<+T> = None | Some(value: T) {
    /** `$x ?? $default` */
    function GetOr(default: T): T {
      match this
      case Some(v) => v
      case None => default
    }
  }

  datatype Result<+T, +E> = Ok(value: T) | Err(error: E)
}
