/** Option and Result values, standing in for JavaScript's null/undefined and
    for a rejected promise. */
module Wrappers {

  datatype Option<+T> = None | Some(value: T) {

    /** The wrapped value, or `default` when there is none (JavaScript's `??`). */
    function GetOr(default: T): T {
      match this
      case Some(v) => v
      case None => default
    }
  }

  datatype Result<+R, +E> = Success(value: R) | Failure(error: E)

  /** A string-valued property is truthy in JavaScript when it is present and
      not empty. */
  predicate Truthy(s: Option<string>) {
    s.Some? && s.value != ""
  }
}
