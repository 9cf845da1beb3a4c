/** Success/failure values standing in for the exceptions the Python code raises. */
module Wrappers {

  datatype Result<+R, +E> = Success(value: R) | Failure(error: E)
}
