/**
 Failure-carrying values. A thrown JavaScript `Error` is represented by its
 `message` text: every error path of the chat application that matters here
 either re-throws the same object or builds a new `Error` from the old
 message, so the message is all that flows.
 */
module Results {

  /** Optional value: a TypeScript `T | undefined` or `T | null`. */
  datatype Option<+T> = None | Some(value: T)

  /** Outcome of an awaited call: a value, or the message of the thrown error. */
  datatype Result<+T> = Ok(value: T) | Err(message: string) {

    predicate IsFailure() {
      Err?
    }

    function PropagateFailure<U>(): Result<U>
      requires Err?
    {
      Err(message)
    }

    function Extract(): T
      requires Ok?
    {
      value
    }
  }
}
