/** Absent values and settled promises, as the provider and proxy code pass them around. */
module Common {

  /** A value that may be absent (JavaScript `undefined`, `null` or `false` where the code uses them so). */
  datatype Option<T> = None | Some(value: T)

  /** A settled promise: fulfilled with a value or rejected with an error message. */
  datatype Result<T> = Success(value: T) | Failure(error: string)
}
