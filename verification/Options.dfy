/** The optional value used for nullable columns and optional provider answers. */
module Options {
  datatype Option<+T> = None | Some(value: T)
}
