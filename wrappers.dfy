/** Small value wrappers shared by every module: an optional value, a result
    with an error message, and the outcome of a call to a remote service. */
module Wrappers {

  datatype Option<T> = None | Some(value: T)

  /** A computation that either produced a value or raised an error with a message. */
  datatype Result<T> = Ok(value: T) | Err(message: string)

  /** What a remote call (Supabase, Tavus, JSearch) resolved to: the record it
      returned, or a rejection carrying `err.message` ("" when the message is falsy). */
  datatype Remote<T> = Done(value: T) | Failed(message: string)

  /** `err.message || fallback`. */
  function ErrorText(message: string, fallback: string): (r: string)
    ensures message != "" ==> r == message
    ensures message == "" ==> r == fallback
  {
    if message != "" then message else fallback
  }
}
