/** Optional values, Python exceptions and results that may carry one. */
module Wrappers {

  /** A value that may be absent: Python's `None` or an unassigned local. */
  datatype Option<+T> = None | Some(value: T)

  /** The Python exceptions that the modelled code can raise. */
  datatype PyError =
    | AttributeError     // an attribute used on `None`, or a method the class does not define
    | UnboundLocalError  // a local variable read before any assignment
    | KeyError           // a missing dictionary key or data-frame column
    | TypeError          // a value of the wrong type handed to a library call

  /** The outcome of a call: its value, or the exception it raised. */
  datatype Result<+T> = Success(value: T) | Failure(error: PyError) {
    predicate IsFailure() { Failure? }

    function PropagateFailure<U>(): Result<U>
      requires Failure?
    {
      Failure(error)
    }

    function Extract(): T
      requires Success?
    {
      value
    }
  }
}
