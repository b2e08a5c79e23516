/** Values shared by every component of the model. */
module Basics {

  datatype Option<+T> = None | Some(value: T)

  /** A refusal the service answers with instead of doing the work. */
  datatype Result<+T, +E> = Ok(value: T) | Err(error: E)

  /** A moment, in microseconds. */
  type Time = int

  const MINUTE: int := 60_000_000
  const HOUR: int := 60 * MINUTE
}
