/** The two result shapes used throughout: a possibly absent value, and a call that may throw. */
module Prelude {

  datatype Option<+T> = None | Some(value: T)

  /** `Err` is a thrown error: the caller sees the state it had before the call. */
  datatype Result<+T> = Ok(value: T) | Err
}
