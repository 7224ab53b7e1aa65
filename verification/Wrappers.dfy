/** Option and Result, used for missing values and for the exceptions the runners raise. */
module Wrappers {

  datatype Option<+T> = None | Some(value: T)

  /** The exceptions of the modelled code. */
  datatype Error =
    | ValueError
    | IndexError

  datatype Result<+T> = Ok(value: T) | Err(error: Error)

  type pos = r: real | r > 0.0 witness 1.0

  type posint = n: int | n > 0 witness 1
}
