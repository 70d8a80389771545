/** Shared helper datatypes. */
module Wrappers {

  /** A value that may be absent: stands for a `std::unique_ptr` that may be null. */
  datatype Option<+T> = None | Some(value: T)
}
