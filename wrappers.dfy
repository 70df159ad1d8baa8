/** Result types standing in for the exceptions the
    Python code raises: an operation either returns its value or reports
    which error it raised. `Result` supports `:-`, so that a raise inside a
    helper propagates to the caller as it does in Python. */
module Wrappers {

  /** The outcome of an operation that returns a value or raises an error. */
  datatype Result<+T, +E> = Ok(value: T) | Err(error: E) {

    predicate IsFailure() {
      Err?
    }

    function PropagateFailure<U>(): Result<U, E>
      requires Err?
    {
      Err(error)
    }

    function Extract(): T
      requires Ok?
    {
      value
    }
  }

  /** The outcome of a check that returns nothing or raises an error. */
  datatype Outcome<+E> = Pass | Fail(error: E)
}
