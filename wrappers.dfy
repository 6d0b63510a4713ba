/** The success-or-failure value shared by the parser and the interpreter. */
module Wrappers {

  datatype Result<+T, +E> = Ok(value: T) | Err(error: E)
}
