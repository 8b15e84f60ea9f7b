/** Go returns `(value, error)` pairs; the model returns one of the two. */
module Wrappers {

  datatype Result<+T, +E> = Success(value: T) | Failure(error: E)
}
