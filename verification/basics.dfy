/** Optional values and the failure outcome of the validated operations.
    The modelled code signals every rejected input with a failed assertion;
    the error tag records which group of assertions failed. */
module Basics {

  /** An optional value; `None` stands for Python's `None`. */
  datatype Option<+T> = None | Some(value: T) {

    /** The carried value, or `default` when there is none. */
    function GetOr(default: T): T {
      match this
      case Some(v) => v
      case None => default
    }

    /** This option if it is present, otherwise `other`. */
    function Or(other: Option<T>): Option<T> {
      if Some? then this else other
    }
  }

  /** Why a construction or re-derivation was rejected. */
  datatype Error =
    | TypeMismatch       // an argument does not have the required operator or vector type
    | DimensionMismatch  // source and range dimensions of the operators do not fit together
    | ConfigConflict     // an ambiguous or malformed set of overrides

  datatype Result<+T> = Success(value: T) | Failure(error: Error)
}
