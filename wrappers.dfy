/** Option and Result types shared by the modules of this model. */
module Wrappers {

  /** A value that may be absent; in the controller mapping it stands for a
      JavaScript property that may be `undefined`. */
  datatype Option<T> = None | Some(value: T)

  /** The outcome of an operation that can fail with an error value. */
  datatype Result<T, E> = Success(value: T) | Failure(error: E)
}
