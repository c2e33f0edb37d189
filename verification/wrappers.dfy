/** The failure-carrying result used in place of the exceptions and early
    process exits of the modelled script. */
module Wrappers {

  /** Either a value or the error that stopped the computation. */
  datatype Result<+R, +E> = Success(value: R) | Failure(error: E)
}
