/** Option and Result, the two failure-carrying shapes the services use.
    A service call that throws an `Error` with a `statusCode` is an `Err`
    here; one that returns is an `Ok`. */
module Wrappers {

  datatype Option<+T> = None | Some(value: T)

  datatype Result<+T, +E> = Ok(value: T) | Err(error: E)
}
