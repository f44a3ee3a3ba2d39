/** Option and Outcome: absent values and "returned normally / threw". */
module Wrappers {

  /** An optional value: `None` stands for `undefined`, `null` or a falsy argument. */
  datatype Option<+T> = None | Some(value: T)

  /** The result of a call that returns nothing on success and may throw. */
  datatype Outcome<+E> = Pass | Fail(error: E)

  /** The result of a call that returns a value on success and may throw. */
  datatype Result<+R, +E> = Success(value: R) | Failure(error: E)
}
