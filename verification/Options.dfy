/** A value, or the absence of one. */
module Options {
  datatype Option<+T> = None | Some(value: T)
}
