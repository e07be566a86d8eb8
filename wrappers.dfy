/** Python's `None`, the exceptions the calculator raises, and results that carry them. */
module Wrappers {

  datatype Option<+T> = None | Some(value: T)

  /** The Python exception classes that the design calculator raises or lets escape. */
  datatype Exception =
    | ValueError
    | KeyError
    | TypeError
    | IndexError
    | RuntimeError
    | AttributeError
    | ZeroDivisionError

  /** A value, or the exception the Python code raises instead of returning it. */
  datatype Result<+T> = Ok(value: T) | Err(error: Exception)
  {
    predicate IsFailure() { Err? }

    function PropagateFailure<U>(): Result<U>
      requires Err?
    {
      Err(error)
    }

    function Extract(): T
      requires Ok?
    {
      value
    }
  }

  /** The outcome of a procedure that returns nothing: it finished, or it raised. */
  datatype Status = Done | Raised(error: Exception)
  {
    predicate IsFailure() { Raised? }

    function PropagateFailure(): Status
      requires Raised?
    {
      this
    }
  }
}
