/** Failure-carrying wrappers used across the model: a missing value, a value
    or an error, and a pass/fail outcome of a step that returns nothing. */
module Results {

  datatype Option<+T> = None | Some(value: T)

  datatype Result<+T, +E> = Success(value: T) | Failure(error: E) {
    predicate IsFailure() { Failure? }

    function PropagateFailure<U>(): Result<U, E>
      requires Failure?
    {
      Failure(error)
    }

    function Extract(): T
      requires Success?
    {
      value
    }
  }

  /** The outcome of a step run only for its effect: it returns, or it raises
      an exception whose text is `error`. */
  datatype Outcome = Pass | Fail(error: string)
}
