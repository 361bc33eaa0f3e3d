/** Option and Result, the two plain wrappers the node layer returns (no `:-` support). */
module Wrappers {

  datatype Option<+T> = None | Some(value: T)

  datatype Result<+R, +E> = Success(value: R) | Failure(error: E)
}
