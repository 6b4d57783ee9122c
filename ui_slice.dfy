/** The client's notification bar: open or closed, its message and its severity. */
module UiSlice {
  import opened Base

  datatype Severity = Success | Error | Info | Warning

  datatype Snackbar = Snackbar(open: bool, message: string, severity: Severity)

  /** The payload of `showSnackbar`; the severity may be left out. */
  datatype ShowPayload = ShowPayload(message: string, severity: Option<Severity>)

  /** The bar `showSnackbar` puts up: open, with the payload's message and severity, `info` when none is given. */
  function Shown(p: ShowPayload): (s: Snackbar)
    ensures s.open && s.message == p.message
    ensures p.severity.Some? ==> s.severity == p.severity.value
    ensures p.severity.None? ==> s.severity == Info
  {
    Snackbar(true, p.message, if p.severity.Some? then p.severity.value else Info)
  }

  class UiState {
    var snackbar: Snackbar

    /** `initialState`: closed, empty, `info`. */
    constructor ()
      ensures snackbar == Snackbar(false, "", Info)
    {
      snackbar := Snackbar(false, "", Info);
    }

    /**
     * `showSnackbar`: the bar becomes `Shown(p)` whatever it was before, so
     * showing the same payload twice leaves the state of showing it once.
     */
    method Show(p: ShowPayload)
      modifies this
      ensures snackbar == Shown(p)
    {
      snackbar := Snackbar(true, p.message, if p.severity.Some? then p.severity.value else Info);
    }

    /** `hideSnackbar`: closed, message and severity kept. */
    method Hide()
      modifies this
      ensures snackbar == old(snackbar).(open := false)
    {
      snackbar := snackbar.(open := false);
    }
  }
}
