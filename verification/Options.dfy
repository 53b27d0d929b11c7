/** A value that may be absent, where the source uses `undefined` or `null`. */
module Options {
  datatype Option<+T> = None | Some(value: T)
}
