/** Small value wrappers shared by the other modules: JavaScript's `undefined`
    becomes `None`, a thrown exception becomes `Err`. */
module Wrappers {

  datatype Option<+T> = None | Some(value: T)

  /** The outcome of a call that either returns a value or throws. */
  datatype Result<+T> = Ok(value: T) | Err(error: string)
}
