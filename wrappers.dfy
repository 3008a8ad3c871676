/** The success-or-failure value used for the constructor's checked exception. */
module Wrappers {

  datatype Result<+T, +E> = Success(value: T) | Failure(error: E)
}
