/** The outcome of a call that can raise: either a value or the error it raised. */
module Results {

  datatype Result<+T, +E> = Success(value: T) | Failure(error: E)
}
