/** The notification of the Sign Up and Login views: a snackbar with a message
    and a severity that a handler opens and a close event hides. */
module Snack {
  import opened Common

  datatype Severity = Success | Error | Warning | Info

  /** The `snack` state: whether it is open, its text and its severity. */
  datatype Snack = Snack(open: bool, message: string, severity: Severity)

  /** Before anything has been shown. */
  const Closed := Snack(false, "", Severity.Success)

  /** `openSnack(message, severity)`: the snack shows exactly this text. */
  function Show(message: string, severity: Severity): (s: Snack)
    ensures s.open && s.message == message && s.severity == severity
  {
    Snack(true, message, severity)
  }

  /** `closeSnack(_, reason)`: a click outside the snack is ignored; any other
      close event only hides it, keeping its text and severity. */
  function Close(s: Snack, reason: Option<string>): (r: Snack)
    ensures reason == Some("clickaway") ==> r == s
    ensures reason != Some("clickaway") ==>
      !r.open && r.message == s.message && r.severity == s.severity
  {
    if reason == Some("clickaway") then s else s.(open := false)
  }

  /** Closing twice for the same reason is closing once, and a clickaway
      never hides an open snack. */
  lemma CloseIdempotent(s: Snack, reason: Option<string>)
    ensures Close(Close(s, reason), reason) == Close(s, reason)
    ensures s.open && reason == Some("clickaway") ==> Close(s, reason).open
  {
  }
}
