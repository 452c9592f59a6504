/** A value that may be absent: a failed parse, or an `undefined` field. */
module Options {
  datatype Option<T> = None | Some(value: T)
}
