/** Failure-carrying values shared by every module of the model. */
module Common {

  /** A Go pointer or slice that may be nil. */
  datatype Option<+T> = None | Some(value: T)

  /**
   * How a Go operation fails. `Error` is an ordinary `error` value carrying its
   * text; `Panic` stands for a run-time panic (the Go process would abort), kept
   * as a value so that the model can say exactly which inputs reach it.
   */
  datatype Failure = Error(message: string) | Panic(reason: string)

  /** The `(value, error)` pair a Go function returns, with exactly one side set. */
  datatype Result<+T> = Ok(value: T) | Err(failure: Failure)
}
