/** Option and Result, the two failure-carrying shapes the model uses:
    Swift's `T?` and a Swift `throws` function's "returned or threw". */
module Wrappers {

  datatype Option<+T> = None | Some(value: T)

  datatype Result<+T, +E> = Success(value: T) | Failure(error: E)
}
