/** Shared failure-free wrappers used by every other module. */
module Wrappers {

  /** A value that may be absent: a missing row, a NULL column, a None result. */
  datatype Option<+T> = None | Some(value: T)
}
