/** Option and Result values, used for the optional arguments of analyzeFood and for
    the success-or-thrown-message outcome of its steps. */
module Wrappers {

  datatype Option<+T> = None | Some(value: T)

  /** `Ok` carries a value, `Err` carries the message of the Error that was thrown. */
  datatype Result<+T, +E> = Ok(value: T) | Err(error: E)
}
