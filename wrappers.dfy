/** Option and Result: Swift's optionals and the two-variant results of Alamofire and Gloss. */
module Wrappers {

  /** A Swift optional: `nil` or a wrapped value. */
  datatype Option<+T> = None | Some(value: T)

  /** Alamofire's `Result<Value, Error>`: exactly one of `.Success` or `.Failure` holds. */
  datatype Result<+T, +E> = Success(value: T) | Failure(error: E)
}
