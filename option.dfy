/** A value that may be absent (Java's null). */
module Optional {
  datatype Option<T> = None | Some(value: T)
}
