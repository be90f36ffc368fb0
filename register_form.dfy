/**
 * components/auth/register-form.tsx: the sign-up form. Name, email,
 * password and its confirmation are checked by react-hook-form rules; a
 * form that passes them is sent unchanged as the registration credentials.
 */
module RegisterForm {
  import opened Wrappers
  import opened Text
  import opened FormRules

  datatype RegisterInputs = RegisterInputs(name: string, email: string, password: string, passwordConfirmation: string)

  /** JavaScript's `\s`: white space and line terminators. */
  const Spaces: set<char> := {
    ' ', '\t', '\n', '\r', '\U{000B}', '\U{000C}', '\U{00A0}', '\U{1680}',
    '\U{2000}', '\U{2001}', '\U{2002}', '\U{2003}', '\U{2004}', '\U{2005}', '\U{2006}', '\U{2007}',
    '\U{2008}', '\U{2009}', '\U{200A}', '\U{2028}', '\U{2029}', '\U{202F}', '\U{205F}', '\U{3000}', '\U{FEFF}'}

  predicate NoSpace(t: string) {
    forall k :: 0 <= k < |t| ==> t[k] !in Spaces
  }

  /** `t` splits as `\S+` "@" `\S+` "." `\S+` with the "@" at `at` and the "." at `dot`. */
  predicate ShapeAt(t: string, at: int, dot: int) {
    0 < at && at + 1 < dot && dot + 1 < |t| &&
    t[at] == '@' && t[dot] == '.' && NoSpace(t[..at]) && NoSpace(t[at + 1..dot]) && NoSpace(t[dot + 1..])
  }

  /** A whole string of the shape `\S+@\S+\.\S+`. */
  predicate EmailShape(t: string) {
    exists at, dot :: 0 <= at < |t| && 0 <= dot < |t| && ShapeAt(t, at, dot)
  }

  /** `/\S+@\S+\.\S+/.test(s)`: the pattern is not anchored, so any substring may match. */
  predicate PatternFinds(s: string) {
    exists i, j :: 0 <= i <= j <= |s| && EmailShape(s[i..j])
  }

  /**
   * The characters around an "@" at `at` and a later "." at `dot`: one
   * non-space before the "@", only non-spaces (at least one) between
   * them, and one non-space after the ".".
   */
  predicate AcceptedAt(s: string, at: int, dot: int) {
    1 <= at && at + 1 < dot && dot + 1 < |s| &&
    s[at] == '@' && s[dot] == '.' && s[at - 1] !in Spaces && NoSpace(s[at + 1..dot]) && s[dot + 1] !in Spaces
  }

  predicate EmailAccepted(s: string) {
    exists at, dot :: 0 <= at < |s| && 0 <= dot < |s| && AcceptedAt(s, at, dot)
  }

  /** The local reading decides exactly the strings the unanchored pattern finds a match in. */
  lemma EmailAcceptedIsPattern(s: string)
    ensures EmailAccepted(s) <==> PatternFinds(s)
  {
    if PatternFinds(s) {
      PatternGivesAccepted(s);
    }
    if EmailAccepted(s) {
      AcceptedGivesPattern(s);
    }
  }

  lemma PatternGivesAccepted(s: string)
    requires PatternFinds(s)
    ensures EmailAccepted(s)
  {
    var i, j :| 0 <= i <= j <= |s| && EmailShape(s[i..j]);
    var at, dot :| 0 <= at < |s[i..j]| && 0 <= dot < |s[i..j]| && ShapeAt(s[i..j], at, dot);
    ShapeGivesAcceptedAt(s, i, j, at, dot);
  }

  /** A match of the pattern in `s[i..j]` puts an accepted "@" and "." at the same places in `s`. */
  lemma ShapeGivesAcceptedAt(s: string, i: int, j: int, at: int, dot: int)
    requires 0 <= i <= j <= |s| && ShapeAt(s[i..j], at, dot)
    ensures AcceptedAt(s, i + at, i + dot)
  {
    var t := s[i..j];
    assert t[at - 1] !in Spaces by { assert t[..at][at - 1] == t[at - 1]; }
    assert t[dot + 1] !in Spaces by { assert t[dot + 1..][0] == t[dot + 1]; }
    var middle := s[i + at + 1..i + dot];
    forall k | 0 <= k < |middle| ensures middle[k] == t[at + 1..dot][k] { }
    assert middle == t[at + 1..dot];
  }

  lemma AcceptedGivesPattern(s: string)
    requires EmailAccepted(s)
    ensures PatternFinds(s)
  {
    var at, dot :| 0 <= at < |s| && 0 <= dot < |s| && AcceptedAt(s, at, dot);
    var t := s[at - 1..dot + 2];
    var a, d := 1, dot - at + 1;
    assert t[..a] == [s[at - 1]];
    var middle := t[a + 1..d];
    forall k | 0 <= k < |middle| ensures middle[k] == s[at + 1..dot][k] { }
    assert middle == s[at + 1..dot];
    assert t[d + 1..] == [s[dot + 1]];
    assert ShapeAt(t, a, d);
  }

  /** `.` in a JavaScript pattern without the `s` flag: anything but a line terminator. */
  predicate IsLineTerminator(c: char) {
    c == '\n' || c == '\r' || c == '\U{2028}' || c == '\U{2029}'
  }

  predicate IsAsciiLetter(c: char) {
    'a' <= c <= 'z' || 'A' <= c <= 'Z'
  }

  /**
   * `/^(?=.*[A-Za-z])(?=.*\d).+$/`: a non-empty single line holding at
   * least one ASCII letter and at least one ASCII digit.
   */
  predicate PasswordPattern(p: string)
    ensures PasswordPattern(p) ==> |p| >= 2
  {
    |p| >= 1 &&
    (forall k :: 0 <= k < |p| ==> !IsLineTerminator(p[k])) &&
    (exists k :: 0 <= k < |p| && IsAsciiLetter(p[k])) &&
    (exists k :: 0 <= k < |p| && IsDigit(p[k]))
  }

  /** `{ required: true }`, the rule of `ModalConfirm.LabelError`. */
  function NameError(name: string): (e: Option<RuleError>)
    ensures e == None <==> name != ""
  {
    TextRule(name, true, 0)
  }

  /** Email: required, then the pattern. */
  function EmailError(email: string): (e: Option<RuleError>)
    ensures e == Some(Required) <==> email == ""
    ensures e == None <==> email != "" && PatternFinds(email)
    ensures e.Some? ==> e == Some(Required) || e == Some(PatternMismatch)
  {
    EmailAcceptedIsPattern(email);
    if email == "" then Some(Required)
    else if !EmailAccepted(email) then Some(PatternMismatch)
    else None
  }

  /** Password: required, at least 8 UTF-16 code units, then letters and digits. */
  function PasswordError(password: string): (e: Option<RuleError>)
    ensures e == Some(Required) <==> password == ""
    ensures e == Some(TooShort) <==> password != "" && Utf16Length(password) < 8
    ensures e == None <==> Utf16Length(password) >= 8 && PasswordPattern(password)
    ensures e.Some? ==> e == Some(Required) || e == Some(TooShort) || e == Some(PatternMismatch)
  {
    match TextRule(password, true, 8)
    case Some(err) => Some(err)
    case None => if PasswordPattern(password) then None else Some(PatternMismatch)
  }

  /** Confirmation: required, then equal to the password. */
  function ConfirmationError(confirmation: string, password: string): (e: Option<RuleError>)
    ensures e == None <==> confirmation != "" && confirmation == password
    ensures e == Some(Required) <==> confirmation == ""
  {
    if confirmation == "" then Some(Required)
    else if confirmation != password then Some(Rejected)
    else None
  }

  predicate FormValid(form: RegisterInputs) {
    NameError(form.name) == None && EmailError(form.email) == None &&
    PasswordError(form.password) == None &&
    ConfirmationError(form.passwordConfirmation, form.password) == None
  }

  /**
   * `onSubmit`: a valid form is the credentials, unchanged; an invalid one
   * sends nothing. `LoginForm.Credentials` has the same shape for its form.
   */
  function Credentials(form: RegisterInputs): (r: Option<RegisterInputs>)
    ensures r.Some? <==> FormValid(form)
    ensures r.Some? ==> r.value == form
  {
    if FormValid(form) then Some(form) else None
  }

  /**
   * What a sent registration guarantees: a name, an email with an "@"
   * followed later by a ".", a password of at least eight UTF-16 code units with
   * a letter and a digit, and a confirmation equal to it.
   */
  lemma SentRegistration(form: RegisterInputs)
    requires Credentials(form).Some?
    ensures form.name != ""
    ensures exists at, dot :: 0 <= at < |form.email| && 0 <= dot < |form.email| && at < dot && form.email[at] == '@' && form.email[dot] == '.'
    ensures Utf16Length(form.password) >= 8
    ensures exists k :: 0 <= k < |form.password| && IsAsciiLetter(form.password[k])
    ensures exists k :: 0 <= k < |form.password| && IsDigit(form.password[k])
    ensures form.passwordConfirmation == form.password
  {
    EmailAcceptedIsPattern(form.email);
  }
}
