/** Option and Result values, used for the optional API key, the provider's
    optional response fields and the outcome of a plan request. */
module Wrappers {

  datatype Option<+T> = None | Some(value: T)

  datatype Result<+R, +E> = Success(value: R) | Failure(error: E)
}
