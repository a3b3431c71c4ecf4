/** Failure-carrying wrappers shared by the model: `Option` stands for a
    JavaScript value that may be `undefined`, `Result` for a computation
    that may throw. */
module Results {

  datatype Option<+T> = None | Some(value: T)

  /** `Err` carries the message of the thrown error. */
  datatype Result<+T> = Ok(value: T) | Err(error: string)
}
