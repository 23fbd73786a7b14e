/** Failure-carrying values shared by every module of the model.

    `Option` stands for the source's nullable values (`string | null`,
    Python `None`); `Result` stands for the outcome of a call that may throw
    or reject, with the error normalised to its message text. */
module Outcome {

  datatype Option<+T> = None | Some(value: T)

  /** The settled outcome of an asynchronous call: it resolved with a value,
      or it rejected with an error whose message is kept. */
  datatype Result<+T> = Ok(value: T) | Err(msg: string)

  /** Placeholder value for calls that resolve with nothing useful. */
  datatype Unit = Unit
}
