/**
 * Option and Result as the calculator uses them: `None` for Python's `None`
 * (the empty background cache, a lookup that raised), `Failure` for an
 * exception that leaves an operation.
 */
module Results {

  datatype Option<+T> = None | Some(value: T)

  datatype Result<+T, +E> = Success(value: T) | Failure(error: E) {

    predicate IsFailure() {
      Failure?
    }

    function PropagateFailure<U>(): Result<U, E>
      requires Failure?
    {
      Failure(error)
    }

    function Extract(): T
      requires Success?
    {
      value
    }
  }
}
