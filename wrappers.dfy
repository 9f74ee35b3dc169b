/** Optional values and success-or-error outcomes, shared by every module. */
module Wrappers {

  /** `undefined` / `null` versus a present value. */
  datatype Option<+T> = None | Some(value: T)

  /** A resolved promise (`Success`) or a rejected one (`Failure`). */
  datatype Result<+R, +E> = Success(value: R) | Failure(error: E)
}
