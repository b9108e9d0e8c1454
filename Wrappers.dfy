/** Optional values and results, standing in for Swift's `T?` and for the
    success-or-error outcome of a completion handler. */
module Wrappers {

  /** Swift's `Optional<T>`: `nil` or a wrapped value. */
  datatype Option<+T> = None | Some(value: T) {

    /** The `??` operator: the wrapped value, or `default` for `nil`. */
    function GetOr(default: T): (r: T)
      ensures Some? ==> r == value
      ensures None? ==> r == default
    {
      match this
      case Some(v) => v
      case None => default
    }
  }

  /** Either a value or a human-readable error text. */
  datatype Result<+R, +E> = Success(value: R) | Failure(error: E)
}
