/** Option, Result and Outcome values, used where the TypeScript code returns
    `undefined`, returns a value, or throws. */
module Outcomes {

  datatype Option<+T> = None | Some(value: T)

  datatype Result<+R, +E> = Success(value: R) | Failure(error: E)

  /** The outcome of an operation that returns nothing: it completed or threw. */
  datatype Outcome<+E> = Pass | Fail(error: E)
}
