/** Python's `None`-or-value, used wherever the source stores an optional reference. */
module Options {
  datatype Option<+T> = None | Some(value: T)
}
