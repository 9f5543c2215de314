/** A value that may be missing: a null pointer or a null address in the engine. */
module Options {
  datatype Option<T> = None | Some(value: T)
}
