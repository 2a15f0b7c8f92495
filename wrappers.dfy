/** Option and Result values standing for Python's None / JavaScript's null and for raised errors. */
module Wrappers {

  datatype Option<+T> = None | Some(value: T)

  datatype Result<+T, +E> = Ok(value: T) | Err(error: E)

  /** A value fetched from a collaborator whose call may raise; `Raised` keeps the error text. */
  datatype Fallible<+T> = Fetched(value: T) | Raised(message: string)
}
