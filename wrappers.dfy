/** Error-carrying results for the operations whose Python original raises an exception. */
module Wrappers {

  /** Either a value or the kind of exception the original raises. */
  datatype Result<+T> = Ok(value: T) | Err(error: Failure)

  /** An optional argument that may be `None`. */
  datatype Option<+T> = None | Some(value: T)

  /** The Python exceptions that can escape the modelled core. */
  datatype Failure =
    | ValueError    // raised explicitly, or by unpacking a split of the wrong length
    | IndexError    // indexing an empty array
}
