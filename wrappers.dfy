/** Option, Result and Outcome: the values a Python function returns or the
    exception it raises, made explicit; and the exception classes raised. */
module Wrappers {

  datatype Option<+T> = None | Some(value: T)

  datatype Result<+T, +E> = Success(value: T) | Failure(error: E)

  /** The outcome of a check that returns nothing on success. */
  datatype Outcome<+E> = Pass | Fail(error: E)

  /** The Python exception classes the modelled code raises. */
  datatype ErrorKind =
    | ValueError
    | RuntimeError
    | AssertionError
    | AttributeError
    | TypeError
    | IndexError
    | KeyError
}
