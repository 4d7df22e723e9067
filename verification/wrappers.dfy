/** Failure-carrying values shared by every module of the gantry model. */
module Wrappers {

  /** A value that may be absent: Python's `None` or a dictionary miss. */
  datatype Option<+T> = None | Some(value: T)

  /** The exceptions the modelled code can raise and catch. */
  datatype Error =
    | ZeroDivision    // a Python `ZeroDivisionError`
    | MissingKey      // a `KeyError` from a stored record
    | MissingFile     // the record store could not be opened
    | NotANumber      // `float()` of a stored array
    | NotUnpackable   // a `TypeError` from unpacking a missing position reply

  /** Either a value or the error that replaced it. */
  datatype Result<+T> = Ok(value: T) | Err(error: Error)
}
