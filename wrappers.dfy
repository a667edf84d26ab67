/** Small value wrappers shared by the model. */
module Wrappers {

  /** A value or nothing; `None` stands for a C# `null` reference. */
  datatype Option<T> = None | Some(value: T)

  /** The exceptions the modelled code can raise. */
  datatype Error = NullReference

  /** The outcome of a call that returns a value or raises an exception. */
  datatype Result<T> = Ok(value: T) | Err(error: Error)
}
