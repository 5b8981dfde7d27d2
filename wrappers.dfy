/** Failure-carrying values standing in for the exceptions the Python code raises. */
module Wrappers {

  datatype Option<+T> = None | Some(value: T)

  /** The Python exception classes the modelled code can raise. */
  datatype Error =
    | ValueError(message: string)
    | ArithmeticError(message: string)
    | KeyError(key: string)
    | TypeError(message: string)
    | IndexError(message: string)
    | AttributeError(message: string)

  datatype Result<+T> = Ok(value: T) | Err(error: Error)
}
