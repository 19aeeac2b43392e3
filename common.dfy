/** Values shared by every part of the model. */
module Common {

  /** A value that may be absent: JavaScript's `null`/`undefined`, Python's `None`,
      or a missing storage slot. */
  datatype Option<+T> = None | Some(value: T)
}
