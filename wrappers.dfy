/** Failure-carrying values shared by every module of the model.

    The source reports failures by raising Python exceptions; the model
    returns them instead.  Only the exception classes that the modelled
    code can raise are listed. */
module Wrappers {

  /** The Python exception a failed call raises. */
  datatype Error =
    | KeyError     // an unknown client, category or dictionary key
    | ValueError   // a guard on the requested transition failed
    | IndexError   // indexing an empty string
    | NameError    // evaluating a name that is not defined

  datatype Option<+T> = None | Some(value: T)

  /** The value of a call that returns something or raises. */
  datatype Result<+T> = Ok(value: T) | Err(error: Error)

  /** The value of a call that returns nothing or raises. */
  datatype Outcome = Pass | Fail(error: Error)
}
