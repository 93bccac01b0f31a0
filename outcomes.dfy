/** Outcomes of calls that either return a value or throw.
    A thrown JavaScript `Error` is represented by its `message`. */
module Outcomes {

  datatype Option<+T> = None | Some(value: T)

  /** What a call produced: a value, or an error that propagates to the caller. */
  datatype Outcome<+T> = Ok(value: T) | Err(error: string)

  /** The message of an error outcome, or "" for a value. */
  function ErrorOf<T>(o: Outcome<T>): string
  {
    if o.Err? then o.error else ""
  }

  /** The text JavaScript shows for `${error.message || error}`: the message, or the
      string form "Error" of an `Error` whose message is empty. */
  function ErrorText(message: string): (t: string)
    ensures t != ""
    ensures message != "" ==> t == message
  {
    if message != "" then message else "Error"
  }
}
