/** Option and Result datatypes, used where the Python code returns nothing
    or raises. */
module Wrappers {

  /** A value that may be absent; `None` models a Python branch that falls
      through without returning or binding a value. */
  datatype Option<+T> = None | Some(value: T)

  /** A value or the error that stopped the computation. */
  datatype Result<+R, +E> = Success(value: R) | Failure(error: E)
}
