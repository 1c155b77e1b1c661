/** Failure-compatible wrappers for the exceptions the configuration code can raise. */
module Wrappers {

  datatype Option<+T> = None | Some(value: T)

  /** The Python exceptions that escape the configuration code. */
  datatype PyError =
    | KeyError(key: string)        // `d[key]` on a table without that key
    | TypeError                    // subscripting, iterating or assigning into the wrong kind of value
    | AttributeError               // `.get`, `.lower()` or `.strip()` on the wrong kind of value
    | ValueError(message: string)  // the aggregated validation failure

  /** A value, or the exception that was raised instead of producing it. */
  datatype Result<+T> = Success(value: T) | Failure(error: PyError) {
    predicate IsFailure() {
      Failure?
    }

    function PropagateFailure<U>(): Result<U>
      requires Failure?
    {
      Failure(error)
    }

    function Extract(): T
      requires Success?
    {
      value
    }
  }

  /** The outcome of a step that only changes state: it completed, or it raised. */
  datatype Outcome = Pass | Fail(error: PyError) {
    predicate IsFailure() {
      Fail?
    }

    function PropagateFailure(): Outcome
      requires Fail?
    {
      this
    }
  }
}
