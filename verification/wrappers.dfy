/** Failure-compatible result types shared by every module of the model.
    `Result` stands for a Python call that either returns a value or raises
    an exception whose message is the error string. */
module Wrappers {

  datatype Option<+T> = None | Some(value: T)

  datatype Result<+R, +E> = Success(value: R) | Failure(error: E)
}
