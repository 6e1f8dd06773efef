/** Failure-carrying values used throughout: a nullable column, and the outcome
    of an operation that the source reports by returning or raising. */
module Basics {

  datatype Option<+T> = None | Some(value: T)

  datatype Result<+T, +E> = Ok(value: T) | Err(error: E)
}
