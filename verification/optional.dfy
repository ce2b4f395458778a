/** The absent-or-present value that stands for Python's `None` or a row. */
module Optional {
  datatype Option<+T> = None | Some(value: T)
}
