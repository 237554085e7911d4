/** An optional value, for the source's optional (`?:`) fields. */
module Options {
  datatype Option<T> = None | Some(value: T)
}
