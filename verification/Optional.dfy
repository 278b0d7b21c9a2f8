// Python's `None`-able values, and operations that may raise.
module Optional {
  datatype Option<+T> = None | Some(value: T)
}
