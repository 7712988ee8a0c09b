/** Result and outcome types standing in for the exceptions the trainer's code throws. */
module Wrappers {

  datatype Option<+T> = None | Some(value: T)

  /** A value, or the error that the C# code would have thrown instead of returning it. */
  datatype Result<+R, +E> = Success(value: R) | Failure(error: E)

  /** The result of a `void` operation: it returned normally, or it threw `error`. */
  datatype Outcome<+E> = Pass | Fail(error: E)
}
