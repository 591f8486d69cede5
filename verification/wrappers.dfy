/** Failure-carrying values: an upstream call or a JavaScript operation either
    yields a value or throws an error whose message is a string. */
module Wrappers {

  datatype Option<+T> = None | Some(value: T)

  datatype Result<+T> = Success(value: T) | Failure(error: string)
}
