/** Values that may be absent, as the source's `null` and `undefined` are. */
module Options {
  datatype Option<+T> = None | Some(value: T)
}
