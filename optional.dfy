/** An optional value: a pointer that may be null, an answer that may be missing. */
module Optional {
  datatype Option<T> = None | Some(value: T)
}
