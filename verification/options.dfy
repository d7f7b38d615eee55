/** An optional value, for the source's `None` and `null`. */
module Options {
  datatype Option<+T> = None | Some(value: T)
}
