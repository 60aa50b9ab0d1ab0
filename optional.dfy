/** The optional value used for Python's `None` and for results that may be missing. */
module Optional {
  datatype Option<+T> = None | Some(value: T)
}
