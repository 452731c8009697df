/** A value that may be missing: a NULL pointer, an empty answer, a run that a step forbids. */
module Optional {
  datatype Option<+T> = None | Some(value: T)
}
