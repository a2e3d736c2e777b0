/** Values shared by every module of the model: Python's ``None`` as an Option. */
module Common {

  /** A value that may be absent (Python ``None``). */
  datatype Option<+T> = None | Some(value: T)
}
