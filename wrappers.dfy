/** Option and Result, the failure-carrying values the rest of the model uses
    for missing page elements, Python exceptions and database errors. */
module Wrappers {

  datatype Option<T> = None | Some(value: T) {
    function GetOr(default: T): T {
      match this
      case Some(v) => v
      case None => default
    }
  }

  /** `Err` stands for a raised Python exception; its payload is what the code
      would see as `str(e)` (or a tag for the kind of exception). */
  datatype Result<T, E> = Ok(value: T) | Err(error: E)
}
