/** Optional values and results with an error, used for the keys a manifest
    may omit and for the faults the document adapter reports. */
module Wrappers {

  datatype Option<T> = None | Some(value: T) {

    /** The carried value, or `default` when the key is absent. */
    function GetOr(default: T): T {
      match this
      case Some(v) => v
      case None => default
    }
  }

  datatype Result<T, E> = Ok(value: T) | Err(error: E)
}
