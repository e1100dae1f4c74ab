module Options {
  /** A value that may be missing: a key absent from the per-user dict, a failed call. */
  datatype Option<T> = None | Some(value: T)
}
