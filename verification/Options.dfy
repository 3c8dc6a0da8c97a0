/** A value, or the null pointer. */
module Options {
  datatype Option<+T> = None | Some(value: T)
}
