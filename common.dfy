/** Small value types shared by every module of the backup engine model. */
module Common {

  /** A value that may be absent: a C# null, a failed TryParse, an unset fault. */
  datatype Option<+T> = None | Some(value: T)
}
