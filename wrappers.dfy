/** Optional values and pass/fail outcomes, as `std::optional` and thrown errors. */
module Wrappers {

  /** `std::optional<T>`: either no value or exactly one. */
  datatype Option<+T> = None | Some(value: T)

  /** The result of an operation that either completes or throws. */
  datatype Outcome<+E> = Pass | Fail(error: E)
}
