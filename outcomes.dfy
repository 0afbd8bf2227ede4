/** The optional values and tagged results the quote model uses in place of
    Python's `None` and of the exceptions the pipeline raises. */
module Outcomes {

  /** A value that may be absent, as a Python field that defaults to `None`. */
  datatype Option<+T> = None | Some(value: T) {

    /** The value if present, otherwise `default`. */
    function GetOr(default: T): T {
      match this
      case Some(v) => v
      case None => default
    }
  }

  /** Either a value or the failure that stopped the computation. */
  datatype Result<+R, +E> = Success(value: R) | Failure(error: E)
}
