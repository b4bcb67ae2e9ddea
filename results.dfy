/** Failure-carrying values shared by the catalog and cart modules. */
module Results {

  /** A value that may be absent (an omitted query parameter, a missing record). */
  datatype Option<+T> = None | Some(value: T) {
    function GetOr(default: T): T {
      match this
      case Some(v) => v
      case None => default
    }
  }

  /** The outcome of a route handler that answers with data or with an error. */
  datatype Result<+T, +E> = Ok(value: T) | Err(error: E)

  /** The outcome of a route handler that answers with no data on success. */
  datatype Outcome<+E> = Pass | Fail(error: E)
}
