/**
 * What the two admin forms (src/pages/CreateQRCode.js and
 * src/pages/UpdateQRCode.js) share: the reply to an authenticated request,
 * the `Authorization` header, and `handleAuthError`'s choice between
 * signing out and showing a message.
 */
module AdminSession {
  import opened Wrappers

  /** The settled request: the reply's `data.message`, or an error with its HTTP status (`None` when undefined). */
  datatype Reply = Replied(message: Option<string>) | Rejected(status: Option<int>)

  const LoginPath := "/admin/login"

  /** The session is over: no status at all, or 401. */
  predicate SessionRejected(status: Option<int>) {
    status.None? || status == Some(401)
  }

  /** `Bearer ${token}` where the token read from storage may be `null`. */
  function BearerHeader(token: Option<string>): (r: string)
    ensures |r| >= 7 && r[..7] == "Bearer "
    ensures r[7..] == if token.Some? then token.value else "null"
  {
    "Bearer " + (if token.Some? then token.value else "null")
  }

  /** What `handleAuthError` does: drop the token and go to the login page, or show the fallback text. */
  datatype AuthOutcome = SignOut | ShowMessage(text: string)

  function AuthErrorOutcome(status: Option<int>, fallback: string): (r: AuthOutcome)
    ensures r.SignOut? <==> status.None? || status.value == 401
    ensures r.ShowMessage? ==> r.text == fallback && status.Some? && status.value != 401
  {
    if SessionRejected(status) then SignOut else ShowMessage(fallback)
  }
}
