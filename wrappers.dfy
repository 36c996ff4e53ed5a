/** Option and Result datatypes used across the model for absent values and error paths. */
module Wrappers {

  datatype Option<+T> = None | Some(value: T) {
    function GetOr(default: T): T {
      match this
      case Some(v) => v
      case None => default
    }
  }

  datatype Result<+R, +E> = Success(value: R) | Failure(error: E)
}

/** PHP's notion of an empty string: `empty()` holds for "" and for "0". */
module Php {
  predicate Empty(s: string) {
    s == "" || s == "0"
  }
}
