/** The client's current captcha challenge and the status of its last fetch. */
module CaptchaSlice {
  import opened Base
  import opened Captcha
  import opened SliceStatus

  const MSG_FETCH_CAPTCHA_FAILED := "No fue posible obtener el captcha"

  class CaptchaState {
    var current: Option<Challenge>
    var status: LoadStatus
    var error: Option<string>

    /** `initialState`: no challenge, idle, no error. */
    constructor ()
      ensures current == None && status == Idle && error == None
    {
      current := None;
      status := Idle;
      error := None;
    }

    /** `fetchCaptchaThunk.pending`: loading, the error cleared, the shown challenge kept. */
    method FetchPending()
      modifies this
      ensures status == Loading && error == None && current == old(current)
    {
      status := Loading;
      error := None;
    }

    /** `fetchCaptchaThunk.fulfilled`: succeeded, showing the new challenge. */
    method FetchFulfilled(challenge: Challenge)
      modifies this
      ensures status == Succeeded && current == Some(challenge) && error == old(error)
    {
      status := Succeeded;
      current := Some(challenge);
    }

    /** `fetchCaptchaThunk.rejected`: failed with the rejection's message or the fallback; the shown challenge stays. */
    method FetchRejected(payload: Option<string>)
      modifies this
      ensures status == Failed && error == Some(RejectedError(payload, MSG_FETCH_CAPTCHA_FAILED))
      ensures current == old(current)
    {
      status := Failed;
      error := Some(RejectedError(payload, MSG_FETCH_CAPTCHA_FAILED));
    }
  }
}
