/** Option and Result values for the places where the Python code returns None or raises. */
module Wrappers {

  datatype Option<+T> = None | Some(value: T)

  /** `Failure` carries the text of the exception the Python code raises. */
  datatype Result<+T> = Success(value: T) | Failure(error: string)
}
