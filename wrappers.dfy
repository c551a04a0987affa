/** Failure-carrying values shared by every module of the model. */
module Wrappers {

  datatype Option<+T> = None | Some(value: T)

  datatype Result<+T, +E> = Ok(value: T) | Err(error: E)

  /** The Java exceptions the modelled code throws, with their messages. */
  datatype Exception =
    | IllegalStateException(message: string)
    | IllegalArgumentException(message: string)
    | NullPointerException(message: string)
}
