/** A value that may be absent; stands for JavaScript's `null`. */
module Options {
  datatype Option<T> = None | Some(value: T)
}
