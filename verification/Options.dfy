/** A value that may be missing, or an operation that may fail. */
module Options {
  datatype Option<+T> = None | Some(value: T)
}
