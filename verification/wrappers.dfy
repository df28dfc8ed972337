/** The success-or-error result used where the original code can throw. */
module Wrappers {

  datatype Result<+T, +E> = Success(value: T) | Failure(error: E)
}
