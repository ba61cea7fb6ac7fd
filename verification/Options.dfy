/** A value the program may not have. */
module Options {
  datatype Option<+T> = None | Some(value: T)
}
