/** An optional value: a message that may or may not be posted, an argument
    that may be omitted. */
module Options {
  datatype Option<T> = None | Some(value: T)
}
