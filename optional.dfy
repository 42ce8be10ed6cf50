/** Python's `None` next to a value: the optional fields of a decision tuple. */
module Optional {
  datatype Option<+T> = None | Some(value: T)
}
