/** Value wrappers shared by the model: Java's nullable references and thrown exceptions. */
module Results {

  /** A Java reference that may be null: `None` stands for null. */
  datatype Option<+T> = None | Some(value: T)

  /** The outcome of a Java call that either returns a value or throws an error of kind `E`. */
  datatype Result<+T, +E> = Ok(value: T) | Err(error: E)
}
