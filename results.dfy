/** Failure-compatible wrappers used by the curve engine in place of JavaScript's
    `undefined` lookups and thrown errors. */
module Results {

  datatype Option<+T> = None | Some(value: T)

  datatype Result<+T, +E> = Success(value: T) | Failure(error: E)
}
