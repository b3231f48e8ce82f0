/**
 * Values shared by the whole model: Java's nullable references as `Option`,
 * and the two checked outcomes of a back-end call (a value, or an exception
 * that propagates to the caller).
 */
module Common {

  datatype Option<T> = None | Some(value: T)

  /** The exceptions the back end raises on purpose. */
  datatype Exception =
    | PersistenciaException
    | IllegalArgumentException(message: string)

  /** What a Java call that may throw produces: a return value or an exception. */
  datatype Outcome<T> = Ok(value: T) | Thrown(error: Exception)
}
