/** Error kinds of the routing core and the result types that carry them. */
module Errors {

  /** The exceptions the routing core raises or lets through to its caller. */
  datatype Error =
    | UnableToDiscover(service: string)  // no directory entry for the service in the queried role
    | KeyError(key: string)              // a missing dictionary key: `del` on a registry, a missing header
    | ValidationFailure(reason: string)  // a middleware step or the entry-point parser rejected its input

  /** A value, or the exception raised instead of returning it. */
  datatype Result<+T> = Ok(value: T) | Err(error: Error)

  /** The outcome of an operation that returns nothing when it succeeds. */
  datatype Outcome = Pass | Fail(error: Error)
}
