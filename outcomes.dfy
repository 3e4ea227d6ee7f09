/** Failure-carrying values: the model's stand-in for the NULL returns and the
    print-and-abort paths of the C code. */
module Outcomes {

  datatype Option<+T> = None | Some(value: T)

  datatype Result<+T, +E> = Success(value: T) | Failure(error: E)
}
