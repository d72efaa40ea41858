/** Optional values and the final outcome of a remote call. */
module Wrappers {

  /** A value that may be absent; stands for a Java reference that may be null. */
  datatype Option<+T> = None | Some(value: T)

  /** The outcome of a remote call once its retries, if any, are exhausted:
      a value, or a transport failure. */
  datatype Fetch<+T> = Ok(value: T) | Failed {

    /** The value on success, nothing on failure: what `neverError()` leaves of the call. */
    function ToOption(): Option<T>
    {
      if Ok? then Some(value) else None
    }
  }
}
