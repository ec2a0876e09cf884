/**
 * The sign-in page: where an authenticated visitor is sent, and which message
 * a failed sign-in shows. Its field rules are `Forms.EmailRules` and
 * `Forms.PasswordRules`.
 */
module Login {
  import opened Wrappers
  import opened Text

  const DashboardPath := "/dashboard"
  const LoginFallback := "Login failed"
  const VerifyMarker := "verify your email"
  const VerifyHint := "Please verify your email before logging in. Check your inbox for the verification code."
  const LoginSucceeded := "Login successful!"

  /** `location.state?.from?.pathname || '/dashboard'`. */
  function RedirectTarget(from: Option<string>): (target: string)
    ensures from.Some? && from.value != "" ==> target == from.value
    ensures from.None? || from == Some("") ==> target == DashboardPath
    ensures target != ""
  {
    if from.Some? && from.value != "" then from.value else DashboardPath
  }

  datatype View = Redirect(to: string) | SignInForm

  /** An authenticated visitor is redirected at once; nobody else is. */
  function Render(isAuthenticated: bool, from: Option<string>): (v: View)
    ensures v.Redirect? <==> isAuthenticated
    ensures v.Redirect? ==> v.to == RedirectTarget(from)
  {
    if isAuthenticated then Redirect(RedirectTarget(from)) else SignInForm
  }

  /** The toast for a failed sign-in, given the server's message ("" when there is none). */
  function LoginErrorMessage(serverMessage: string): (text: string)
    ensures text != ""
    ensures Contains(serverMessage, VerifyMarker) ==> text == VerifyHint
    ensures serverMessage != "" && !Contains(serverMessage, VerifyMarker) ==> text == serverMessage
    ensures serverMessage == "" ==> text == LoginFallback
  {
    var message := OrElse(serverMessage, LoginFallback);
    if Contains(message, VerifyMarker) then VerifyHint else message
  }

  /** A message that mentions the marker anywhere is replaced by the hint. */
  lemma VerifyMarkerAnywhere(before: string, after: string)
    ensures LoginErrorMessage(before + VerifyMarker + after) == VerifyHint
  {
    assert OccursAt(before + VerifyMarker + after, VerifyMarker, |before|);
  }

  datatype Toast = Success(text: string) | Failure(text: string)

  /** `onSubmit`'s toast, given whether `login` resolved and, if not, the server's message. */
  function SubmitToast(ok: bool, serverMessage: string): (t: Toast)
    ensures t.Success? <==> ok
    ensures !ok ==> t.text == LoginErrorMessage(serverMessage)
  {
    if ok then Success(LoginSucceeded) else Failure(LoginErrorMessage(serverMessage))
  }
}
