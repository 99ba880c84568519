/** Option and Result values used where the program has `Option<T>` or a
    `Result` that it reports and drops. */
module Wrappers {

  datatype Option<+T> = None | Some(value: T)

  datatype Result<+T, +E> = Success(value: T) | Failure(error: E)
}
