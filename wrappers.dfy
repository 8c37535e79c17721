/** Failure-carrying values shared by the modules of this project. */
module Wrappers {

  /** An optional value; as an error result, `None` means "no error". */
  datatype Option<+T> = None | Some(value: T)

  /** A value or the error that prevented computing it. */
  datatype Result<+R, +E> = Ok(value: R) | Err(error: E)
}
