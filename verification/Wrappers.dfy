/** The two result types every module below shares. */
module Wrappers {

  datatype Option<+T> = None | Some(value: T)

  /** `Err` stands for the exception the modelled code raises. */
  datatype Result<+T, +E> = Ok(value: T) | Err(error: E)
}
