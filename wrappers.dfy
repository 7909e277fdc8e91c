/** Option and Result values used where the original returns null/undefined or throws. */
module Wrappers {

  datatype Option<+T> = None | Some(value: T)

  /** Ok carries a value; Err carries what a thrown error would have carried. */
  datatype Result<+T, +E> = Ok(value: T) | Err(error: E)
}
