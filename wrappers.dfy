/** Optional values and failure-carrying results, shared by every module of the model. */
module Wrappers {

  /** Swift's `Optional`: `None` stands for `nil`. */
  datatype Option<+T> = None | Some(value: T)

  /** The outcome of a throwing Swift call: a value, or the error it threw. */
  datatype Result<+T, +E> = Success(value: T) | Failure(error: E) {

    predicate IsFailure() {
      Failure?
    }

    function PropagateFailure<U>(): Result<U, E>
      requires Failure?
    {
      Failure(error)
    }

    function Extract(): T
      requires Success?
    {
      value
    }
  }
}
