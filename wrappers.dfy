/** Option and Result, the failure-compatible wrappers the model uses for
    Java's null and for the exceptions the generator can throw. */
module Wrappers {

  datatype Option<+T> = None | Some(value: T)

  /** The runtime errors the generator's code paths can raise. */
  datatype JavaError =
    | NullPointerException
    | ArrayIndexOutOfBoundsException

  /** The outcome of a Java call that either returns a value or throws. */
  datatype Result<+T> = Ok(value: T) | Err(error: JavaError) {

    predicate IsFailure() {
      Err?
    }

    function PropagateFailure<U>(): Result<U>
      requires Err?
    {
      Err(error)
    }

    function Extract(): T
      requires Ok?
    {
      value
    }
  }
}
