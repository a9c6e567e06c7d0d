/** Failure-compatible wrappers used throughout the model: a nullable value and a
    value-or-error. */
module Results {

  /** A value that may be absent; stands for a C# reference that may be null. */
  datatype Option<+T> = None | Some(value: T)

  /** Either a value or the error that replaced it; stands for a call that may throw. */
  datatype Result<+R, +E> = Ok(value: R) | Err(error: E)
}
