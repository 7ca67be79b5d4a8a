/** Option, Result and the outcome of one call into a transport SDK. */
module Wrappers {

  datatype Option<+T> = None | Some(value: T)

  datatype Result<+R, +E> = Success(value: R) | Failure(error: E)

  /**
   * What a single awaited call into Web Bluetooth or Bleak did: it resolved, or it
   * threw an error carrying `message` ("" stands for an empty or missing message).
   */
  datatype Outcome = Done | Failed(message: string)

  /** JavaScript's `err.message || fallback`: an empty or missing message is falsy. */
  function MessageOr(o: Outcome, fallback: string): (m: string)
    requires o.Failed?
    ensures m != "" || fallback == ""
    ensures o.message != "" ==> m == o.message
    ensures o.message == "" ==> m == fallback
  {
    if o.message == "" then fallback else o.message
  }
}
