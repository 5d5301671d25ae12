/** A value that may be absent, for Python's `None`. */
module Options {
  datatype Option<+T> = None | Some(value: T)
}
