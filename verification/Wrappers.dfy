/** Values shared by every component of the model. */
module Wrappers {

  /** A value that may be absent: `undefined`, a missing row, a rolled back transaction. */
  datatype Option<+T> = None | Some(value: T)

  /** The outcome of a call that may throw. */
  datatype Result<+T, +E> = Success(value: T) | Failure(error: E)

  /** The value of an update, if there is one, or else what is stored. */
  function Or<T>(update: Option<T>, stored: T): T {
    if update.Some? then update.value else stored
  }
}
