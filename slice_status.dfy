/** What the client-side state slices share: the request status and the rejected-error rule. */
module SliceStatus {
  import opened Base

  /** The life of the slice's last request. */
  datatype LoadStatus = Idle | Loading | Succeeded | Failed

  /**
   * The error a rejected request leaves: the message the request was rejected
   * with (`action.payload`), or the slice's fallback when it carries none.
   */
  function RejectedError(payload: Option<string>, fallback: string): (e: string)
    ensures payload.Some? ==> e == payload.value
    ensures payload.None? ==> e == fallback
  {
    match payload
    case Some(message) => message
    case None => fallback
  }
}
