/** Failure-carrying values shared by the model: an optional value, and the
    result of a call that either returns or throws an error with a message. */
module Outcomes {

  datatype Option<+T> = None | Some(value: T)

  /** `Err(message)` stands for a thrown JavaScript `Error` whose `message`
      property is `message`. */
  datatype Result<+T> = Ok(value: T) | Err(message: string)
}
