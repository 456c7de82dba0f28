/** The usual optional-value datatype, used for JavaScript's `undefined`/`null`
    and for the outcome of remote calls (None: the call threw or returned nothing). */
module Wrappers {

  datatype Option<+T> = None | Some(value: T) {

    /** The value, or `default` when there is none. */
    function GetOr(default: T): T {
      match this
      case Some(v) => v
      case None => default
    }
  }

  /** A value or an error message: a function that throws in the source returns Failure here. */
  datatype Result<+R> = Success(value: R) | Failure(error: string)
}
