/** Failure-compatible wrappers used by the rules: an optional value and a
    result that is either a value or an internal fault. */
module Wrappers {

  datatype Option<+T> = None | Some(value: T)

  datatype Result<+R, +E> = Success(value: R) | Failure(error: E) {

    /** True if this is a Failure */
    predicate IsFailure() {
      Failure?
    }
  }
}
