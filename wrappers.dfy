/** Failure-compatible result types: the model's stand-in for Java's null
    references and for constructors that throw. */
module Wrappers {

  /** A value that may be absent; `None` plays the role of a Java `null`. */
  datatype Option<+T> = None | Some(value: T)

  /** The outcome of a constructor that either builds a value or throws. */
  datatype Result<+R, +E> = Ok(value: R) | Err(error: E) {
    predicate IsFailure() { Err? }

    function PropagateFailure<U>(): Result<U, E>
      requires Err?
    {
      Err(error)
    }

    function Extract(): R
      requires Ok?
    {
      value
    }
  }

  /** The outcome of a `void` setter that may throw. */
  datatype Outcome<+E> = Pass | Fail(error: E)
}
