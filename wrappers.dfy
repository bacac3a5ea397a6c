/** Optional values and results that carry either a value or a raised error. */
module Wrappers {

  datatype Option<+T> = None | Some(value: T)

  /** A value, or the error raised instead; usable with `:-` to pass the error on. */
  datatype Result<+T, +E> = Success(value: T) | Failure(error: E) {

    predicate IsFailure()
    {
      Failure?
    }

    function PropagateFailure<U>(): Result<U, E>
      requires Failure?
    {
      Failure(error)
    }

    function Extract(): T
      requires Success?
    {
      value
    }
  }
}
