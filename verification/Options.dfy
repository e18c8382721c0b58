/** An optional value: a missing entry, an absent field, or an operation that was refused. */
module Options {
  datatype Option<+T> = None | Some(value: T)
}
