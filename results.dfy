/** Optional values and the outcome of an operation that can throw. */
module Results {

  datatype Option<+T> = None | Some(value: T)

  /** `Err` stands for a thrown `Error`, carrying its message. */
  datatype Result<+T> = Ok(value: T) | Err(message: string)
}
