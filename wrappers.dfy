/** Optional values and error-carrying results shared by the cart and catalog modules. */
module Wrappers {

  /** A value that may be absent: `undefined` / `null` in the storefront. */
  datatype Option<+T> = None | Some(value: T)

  /** Either a value or the error that was raised instead. */
  datatype Result<+R, +E> = Success(value: R) | Failure(error: E)
}
