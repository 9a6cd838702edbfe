/** Swift's `Optional`, as a datatype. */
module Options {
  datatype Option<+T> = None | Some(value: T)
}
