/**
 * Form-field validation as the pages declare it with react-hook-form: each
 * field lists rules (`required`, `minLength`, `maxLength`, an email `pattern`),
 * and the message of the first failing rule is shown. Like react-hook-form,
 * the length and pattern rules are only applied to a non-empty value.
 */
module Forms {
  import opened Text

  datatype Check = Valid | Invalid(message: string)

  datatype Rule =
    | Required(message: string)
    | MinLength(min: nat, message: string)
    | MaxLength(max: nat, message: string)
    | EmailPattern(message: string)

  /** Local part of an address: one character of [A-Z0-9._%+-], any case. */
  predicate IsLocalChar(c: char) {
    IsLetter(c) || IsDigit(c) || c == '.' || c == '_' || c == '%' || c == '+' || c == '-'
  }

  /** Domain part of an address: one character of [A-Z0-9.-], any case. */
  predicate IsDomainChar(c: char) {
    IsLetter(c) || IsDigit(c) || c == '.' || c == '-'
  }

  predicate AllLocal(s: string) {
    forall i :: 0 <= i < |s| ==> IsLocalChar(s[i])
  }

  predicate AllDomain(s: string) {
    forall i :: 0 <= i < |s| ==> IsDomainChar(s[i])
  }

  predicate AllLetters(s: string) {
    forall i :: 0 <= i < |s| ==> IsLetter(s[i])
  }

  /**
   * `at` and `dot` split `s` as local@domain.tld: a non-empty local part, a
   * non-empty domain and a top-level part of at least two letters.
   */
  predicate EmailSplit(s: string, at: int, dot: int) {
    0 < at && at + 1 < dot && dot < |s| &&
    s[at] == '@' && s[dot] == '.' &&
    AllLocal(s[..at]) && AllDomain(s[at + 1..dot]) &&
    |s[dot + 1..]| >= 2 && AllLetters(s[dot + 1..])
  }

  /** The language of /^[A-Z0-9._%+-]+@[A-Z0-9.-]+\.[A-Z]{2,}$/i: some split of the string. */
  ghost predicate MatchesEmailPattern(s: string) {
    exists at, dot :: EmailSplit(s, at, dot)
  }

  /** Index of the last occurrence of c, or -1 when there is none. */
  function LastIndex(s: string, c: char): (i: int)
    ensures -1 <= i < |s|
    ensures 0 <= i ==> s[i] == c
    ensures forall j :: i < j < |s| ==> s[j] != c
  {
    if s == [] then -1
    else if s[|s| - 1] == c then |s| - 1
    else LastIndex(s[..|s| - 1], c)
  }

  /**
   * The email check computed directly: the local part ends at the first '@'
   * (neither part may contain one), and the top-level part starts after the
   * last '.' (letters contain no '.').
   */
  function IsEmail(s: string): (ok: bool)
    ensures ok ==> '@' in s && |s| >= 6
  {
    EmailSplit(s, FirstIndex(s, '@'), LastIndex(s, '.'))
  }

  /** A split of the pattern is the one the direct check finds. */
  lemma PatternSplitIsFound(s: string, at: int, dot: int)
    requires EmailSplit(s, at, dot)
    ensures FirstIndex(s, '@') == at && LastIndex(s, '.') == dot
  {
    // no '@' before `at`: the local part has none
    forall j | 0 <= j < at ensures s[j] != '@' {
      assert IsLocalChar(s[..at][j]);
    }
    // no '.' after `dot`: the top-level part is letters only
    forall j | dot < j < |s| ensures s[j] != '.' {
      assert IsLetter(s[dot + 1..][j - dot - 1]);
    }
  }

  /** The direct check accepts exactly the language of the regular expression. */
  lemma EmailCheckMatchesPattern(s: string)
    ensures IsEmail(s) <==> MatchesEmailPattern(s)
  {
    if MatchesEmailPattern(s) {
      var at, dot :| EmailSplit(s, at, dot);
      PatternSplitIsFound(s, at, dot);
    }
  }

  /** Whether the value breaks one rule. */
  predicate Breaks(value: string, rule: Rule) {
    match rule
    case Required(_) => value == []
    case MinLength(n, _) => value != [] && |value| < n
    case MaxLength(n, _) => value != [] && |value| > n
    case EmailPattern(_) => value != [] && !IsEmail(value)
  }

  /**
   * The message of the first rule in `rules` that the value breaks.
   * react-hook-form checks `required`, then the lengths, then `pattern`; every
   * field here lists its rules in that order, so the first broken rule in the
   * list is the one whose message react-hook-form shows.
   */
  function Validate(value: string, rules: seq<Rule>): (c: Check)
    ensures c.Valid? <==> forall k :: 0 <= k < |rules| ==> !Breaks(value, rules[k])
    ensures c.Invalid? ==>
      exists k :: (0 <= k < |rules| && Breaks(value, rules[k]) && c.message == rules[k].message &&
        forall j :: 0 <= j < k ==> !Breaks(value, rules[j]))
  {
    if rules == [] then Valid
    else if Breaks(value, rules[0]) then Invalid(rules[0].message)
    else
      var c := Validate(value, rules[1..]);
      assert forall k :: 1 <= k < |rules| ==> rules[k] == rules[1..][k - 1];
      c
  }

  /** The email field of the sign-in and registration forms. */
  const EmailRules: seq<Rule> := [Required("Email is required"), EmailPattern("Invalid email address")]

  /** The password field of the sign-in and registration forms. */
  const PasswordRules: seq<Rule> :=
    [Required("Password is required"), MinLength(6, "Password must be at least 6 characters")]

  /** An email is accepted exactly when it has the form local@domain.tld. */
  lemma EmailRulesAccept(email: string)
    ensures Validate(email, EmailRules).Valid? <==> MatchesEmailPattern(email)
    ensures email == [] ==> Validate(email, EmailRules) == Invalid("Email is required")
  {
    EmailCheckMatchesPattern(email);
    assert Breaks(email, EmailRules[0]) <==> email == [];
    if email == [] {
      assert !MatchesEmailPattern(email);
    }
  }

  /** A password is accepted exactly when it has at least six characters. */
  lemma PasswordRulesAccept(password: string)
    ensures Validate(password, PasswordRules).Valid? <==> |password| >= 6
    ensures password == [] ==> Validate(password, PasswordRules) == Invalid("Password is required")
    ensures 0 < |password| < 6 ==>
      Validate(password, PasswordRules) == Invalid("Password must be at least 6 characters")
  {
    assert Breaks(password, PasswordRules[0]) <==> password == [];
  }
}
