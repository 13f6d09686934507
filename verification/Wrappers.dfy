/** Result and option datatypes for the exceptions and missing values of the modelled code. */
module Wrappers {

  datatype Option<+T> = None | Some(value: T)

  /** `Raised` stands for an exception leaving the call. */
  datatype Result<+T> = Ok(value: T) | Raised
}
