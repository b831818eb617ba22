/** Small failure-carrying datatypes shared by the other modules. */
module Wrappers {

  /** A value that may be absent: JavaScript's `null`/`undefined` next to a present value. */
  datatype Option<+T> = None | Some(value: T)

  /** The outcome of an asynchronous collaborator: a value, or an error carrying its `message`. */
  datatype Result<+T> = Ok(value: T) | Err(message: string)

  function Max(a: int, b: int): int
  {
    if a < b then b else a
  }
}
