/** Option and Result: the error paths of the model (a Python exception
    becomes a Failure carrying a short description). */
module Wrappers {

  datatype Option<+T> = None | Some(value: T)

  datatype Result<+T> = Success(value: T) | Failure(error: string)
}
