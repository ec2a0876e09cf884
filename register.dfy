/**
 * The registration page: the skills field's parsing, the e-mail verification
 * code (its input sanitiser, the length guard, and the handler that stores the
 * issued tokens and signs in), the click-highlight set, and the field rules.
 */
module Register {
  import opened Wrappers
  import opened Text
  import opened CommaList
  import opened Forms
  import Api
  import AuthContext

  /** The `skills` form value as submitted: untouched text, or the parsed list. */
  datatype SkillsField = Raw(text: Option<string>) | Parsed(skills: seq<string>)

  /**
   * `if (data.skills) data.skills = …split/trim/filter`: a missing or empty
   * value is left as it is; any other text becomes its trimmed, non-empty
   * comma-separated entries.
   */
  function ProcessSkills(skills: Option<string>): (f: SkillsField)
    ensures skills.None? || skills == Some("") <==> f == Raw(skills)
    ensures f.Parsed? ==> f.skills == Parse(skills.value)
  {
    if skills.Some? && skills.value != "" then Parsed(Parse(skills.value)) else Raw(skills)
  }

  /** Every parsed skill is non-empty, trimmed and free of commas; the entries keep the input's order. */
  lemma ProcessSkillsEntries(text: string, more: string)
    requires text != ""
    ensures ProcessSkills(Some(text)).Parsed?
    ensures forall k :: 0 <= k < |ProcessSkills(Some(text)).skills| ==> IsEntry(ProcessSkills(Some(text)).skills[k])
    ensures ProcessSkills(Some(text + [','] + more)).skills == Parse(text) + Parse(more)
  {
    ParseEntries(text);
    ParseAround(text, more);
  }

  const CodeLength := 6
  const CodeHint := "Please enter a valid 6-digit code"

  /** The verification input's `onChange`: the digits typed, at most the first six. */
  function SanitizeCode(input: string): (code: string)
    ensures |code| <= CodeLength && |code| <= |Digits(input)|
    ensures forall c :: c in code ==> IsDigit(c)
    ensures code == Digits(input)[..|code|]
    ensures |code| == if |Digits(input)| < CodeLength then |Digits(input)| else CodeLength
  {
    Take(Digits(input), CodeLength)
  }

  /** Sanitising a sanitised code changes nothing. */
  lemma SanitizeIdempotent(input: string)
    ensures SanitizeCode(SanitizeCode(input)) == SanitizeCode(input)
  {
    DigitsOfDigits(SanitizeCode(input));
  }

  /** `handleVerification`'s guard: the refusal toast, unless the code has exactly six characters. */
  function CodeRefusal(code: string): (m: Option<string>)
    ensures m.None? <==> |code| == CodeLength
    ensures m.Some? ==> m.value == CodeHint
  {
    if code == [] || |code| != CodeLength then Some(CodeHint) else None
  }

  /** A sanitised code passes the guard exactly when the input held at least six digits. */
  lemma SanitizedCodeAccepted(input: string)
    ensures CodeRefusal(SanitizeCode(input)).None? <==> |Digits(input)| >= CodeLength
  {
  }

  /** `handleElementClick`: the element id joins the highlighted set. */
  function Click(clicked: set<string>, id: string): (r: set<string>)
    ensures id in r && clicked <= r && r - clicked <= {id}
  {
    clicked + {id}
  }

  /** The delayed removal: only that id leaves the set. */
  function Release(clicked: set<string>, id: string): (r: set<string>)
    ensures id !in r && r <= clicked && clicked - r <= {id}
  {
    clicked - {id}
  }

  /**
   * A click and its removal restore the set when the id was not already
   * highlighted; a second click on a highlighted id is undone by the first
   * click's timer.
   */
  lemma ClickThenRelease(clicked: set<string>, id: string)
    ensures id !in clicked ==> Release(Click(clicked, id), id) == clicked
    ensures id in clicked ==> Release(Click(clicked, id), id) == clicked - {id}
  {
  }

  /** The name field. */
  const NameRules: seq<Rule> := [Required("Name is required"), MinLength(2, "Name must be at least 2 characters")]

  /** A name is accepted exactly when it has at least two characters; each failure carries its own message. */
  lemma NameRulesAccept(name: string)
    ensures Validate(name, NameRules).Valid? <==> |name| >= 2
    ensures name == [] ==> Validate(name, NameRules) == Invalid("Name is required")
    ensures |name| == 1 ==> Validate(name, NameRules) == Invalid("Name must be at least 2 characters")
  {
    assert Breaks(name, NameRules[0]) <==> name == [];
  }

  /** The `user` object of an accepted verification; its `email` may be missing. */
  datatype VerifiedUser = VerifiedUser(email: Option<string>)

  /** The service's answer to a verification code; the `user` object may be missing. */
  datatype VerifyReply =
    | VerifyAccepted(user: Option<VerifiedUser>, accessToken: Option<string>, refreshToken: Option<string>)
    | VerifyRejected(message: string)

  /** What the user is told. */
  datatype Toast = Success(text: string) | Failure(text: string)

  const VerifiedText := "Email verified successfully! Welcome to SkillLink!"
  const VerifyFallback := "Verification failed"

  /**
   * `handleVerification`: refuses a code that is not six characters long
   * without calling the service; otherwise, on acceptance, stores both issued
   * tokens and then signs in with the `verified` marker, which fetches the
   * current user (`me`) with the token just stored. A reply without a `user`
   * object throws a TypeError once the tokens are stored: there is no sign-in,
   * and since that error has no `response` the fallback message is shown.
   */
  method HandleVerification(auth: AuthContext.AuthProvider, code: string, reply: VerifyReply,
                            me: AuthContext.MeReply, meError: string)
    returns (toast: Toast, called: bool)
    modifies auth
    ensures called <==> |code| == CodeLength
    ensures !called ==> toast == Failure(CodeHint) && auth.storage == old(auth.storage) && auth.state == old(auth.state)
    ensures called && reply.VerifyRejected? ==>
      toast == Failure(OrElse(reply.message, VerifyFallback)) &&
      auth.storage == old(auth.storage) && auth.state == old(auth.state)
    ensures called && reply.VerifyAccepted? ==>
      auth.storage == old(auth.storage)[Api.TokenKey := AuthContext.StoredText(reply.accessToken)]
                                       [Api.RefreshTokenKey := AuthContext.StoredText(reply.refreshToken)]
    ensures called && reply.VerifyAccepted? && reply.user.None? ==>
      toast == Failure(VerifyFallback) && auth.state == old(auth.state)
    ensures called && reply.VerifyAccepted? && reply.user.Some? ==>
      (me.MeAnswered? ==> toast == Success(VerifiedText) && auth.state.isAuthenticated &&
                          auth.state.user == me.data &&
                          auth.state.token == Some(AuthContext.StoredText(reply.accessToken))) &&
      (me.MeFailed? ==> toast == Failure(OrElse(meError, VerifyFallback)) && !auth.state.isAuthenticated)
  {
    var refusal := CodeRefusal(code);
    if refusal.Some? {
      return Failure(refusal.value), false;
    }
    called := true;
    match reply
    case VerifyRejected(message) =>
      toast := Failure(OrElse(message, VerifyFallback));
    case VerifyAccepted(user, accessToken, refreshToken) =>
      auth.storage := auth.storage[Api.TokenKey := AuthContext.StoredText(accessToken)];
      auth.storage := auth.storage[Api.RefreshTokenKey := AuthContext.StoredText(refreshToken)];
      if user.None? {
        toast := Failure(VerifyFallback);
        return;
      }
      // the `verified` sign-in does not use the email, so a missing one changes nothing
      var ok := auth.Login(user.value.email.GetOr(""), "verified", me, AuthContext.LoginRejected);
      toast := if ok then Success(VerifiedText) else Failure(OrElse(meError, VerifyFallback));
  }
}
