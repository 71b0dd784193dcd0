module Options {
  /** A value that may be absent, such as an omitted field of a document. */
  datatype Option<+T> = None | Some(value: T)
}
