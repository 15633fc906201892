/** A value that may be missing: nil pointers, failed lookups, errors without a result. */
module Options {
  datatype Option<+T> = None | Some(value: T)
}
