/**
 * components/auth/login-form.tsx: the sign-in form. The email is required
 * and must match `/^[A-Z0-9._%+-]+@[A-Z0-9.-]+\.[A-Z]{2,4}$/i`; the
 * password is required and at least six UTF-16 code units long. A form that
 * passes both rules is sent unchanged as the login credentials.
 */
module LoginForm {
  import opened Wrappers
  import opened FormRules

  datatype LoginInputs = LoginInputs(email: string, password: string)

  const MinPasswordLength := 6

  /** `[A-Z]` under the `i` flag: an ASCII letter of either case. */
  predicate IsLetter(c: char) {
    'a' <= c <= 'z' || 'A' <= c <= 'Z'
  }

  predicate IsAsciiDigit(c: char) {
    '0' <= c <= '9'
  }

  /** `[A-Z0-9._%+-]` under the `i` flag. */
  predicate IsLocalChar(c: char) {
    IsLetter(c) || IsAsciiDigit(c) || c == '.' || c == '_' || c == '%' || c == '+' || c == '-'
  }

  /** `[A-Z0-9.-]` under the `i` flag. */
  predicate IsDomainChar(c: char) {
    IsLetter(c) || IsAsciiDigit(c) || c == '.' || c == '-'
  }

  /**
   * `s` is the whole match with its "@" at `at` and the dot before the
   * top-level label at `dot`: a non-empty local part, a non-empty domain,
   * and two to four letters after the dot.
   */
  predicate ShapeAt(s: string, at: int, dot: int) {
    0 < at && at + 1 < dot && dot + 3 <= |s| <= dot + 5 &&
    s[at] == '@' && s[dot] == '.' &&
    (forall k :: 0 <= k < at ==> IsLocalChar(s[k])) &&
    (forall k :: at < k < dot ==> IsDomainChar(s[k])) &&
    (forall k :: dot < k < |s| ==> IsLetter(s[k]))
  }

  /** The anchored pattern matches `s`. */
  predicate PatternMatches(s: string) {
    exists at, dot :: 0 <= at < |s| && 0 <= dot < |s| && ShapeAt(s, at, dot)
  }

  /** The first position of `c` in `s`. */
  function IndexOf(s: string, c: char): (r: Option<nat>)
    ensures r.Some? ==> r.value < |s| && s[r.value] == c && forall k :: 0 <= k < r.value ==> s[k] != c
    ensures r.None? <==> c !in s
  {
    if s == [] then None
    else if s[0] == c then Some(0)
    else match IndexOf(s[1..], c)
      case None => None
      case Some(i) => Some(i + 1)
  }

  /** The last position of `c` in `s`. */
  function LastIndexOf(s: string, c: char): (r: Option<nat>)
    ensures r.Some? ==> r.value < |s| && s[r.value] == c && forall k :: r.value < k < |s| ==> s[k] != c
    ensures r.None? <==> c !in s
  {
    if s == [] then None
    else if s[|s| - 1] == c then Some(|s| - 1)
    else
      var r := LastIndexOf(s[..|s| - 1], c);
      assert s == s[..|s| - 1] + [s[|s| - 1]];
      r
  }

  /**
   * A direct test: the only candidates are the first "@" (the local part
   * has none) and the last "." (the letters after it have none).
   */
  predicate EmailValid(s: string)
    ensures EmailValid(s) ==> |s| > 0 && s[0] != '@' && '@' in s
    ensures EmailValid(s) ==> exists dot :: 0 <= dot < |s| && s[dot] == '.' && dot + 3 <= |s| <= dot + 5
  {
    var at := IndexOf(s, '@');
    var dot := LastIndexOf(s, '.');
    at.Some? && dot.Some? && ShapeAt(s, at.value, dot.value)
  }

  /** The direct test accepts exactly the strings the pattern matches. */
  lemma EmailValidIsPattern(s: string)
    ensures EmailValid(s) <==> PatternMatches(s)
  {
    if PatternMatches(s) {
      var at, dot :| 0 <= at < |s| && 0 <= dot < |s| && ShapeAt(s, at, dot);
      var i, j := IndexOf(s, '@'), LastIndexOf(s, '.');
      assert i.Some? && j.Some?;
      assert !IsLocalChar('@') && !IsLetter('.');
      assert i.value == at && j.value == dot;
    }
  }

  /** Email: required, then the pattern. */
  function EmailError(email: string): (e: Option<RuleError>)
    ensures e == Some(Required) <==> email == ""
    ensures e == None <==> PatternMatches(email)
    ensures e.Some? ==> e == Some(Required) || e == Some(PatternMismatch)
  {
    EmailValidIsPattern(email);
    if email == "" then Some(Required)
    else if !EmailValid(email) then Some(PatternMismatch)
    else None
  }

  /** Password: required, then at least six UTF-16 code units. */
  function PasswordError(password: string): (e: Option<RuleError>)
    ensures e == Some(Required) <==> password == ""
    ensures e == Some(TooShort) <==> password != "" && Utf16Length(password) < MinPasswordLength
    ensures e == None <==> Utf16Length(password) >= MinPasswordLength
  {
    TextRule(password, true, MinPasswordLength)
  }

  predicate FormValid(form: LoginInputs) {
    EmailError(form.email) == None && PasswordError(form.password) == None
  }

  /** `onSubmit`: a valid form is sent unchanged; an invalid one sends nothing. */
  function Credentials(form: LoginInputs): (r: Option<LoginInputs>)
    ensures r.Some? <==> FormValid(form)
    ensures r.Some? ==> r.value == form
  {
    if FormValid(form) then Some(form) else None
  }

  /**
   * What a sent login guarantees: exactly one "@", a top-level label of
   * two to four letters at the end, and a password whose JavaScript
   * length is six or more.
   */
  lemma SentLogin(form: LoginInputs)
    requires Credentials(form).Some?
    ensures var s := form.email;
      exists at :: 0 <= at < |s| && s[at] == '@' && forall k :: 0 <= k < |s| && k != at ==> s[k] != '@'
    ensures 3 <= |form.email| && IsLetter(form.email[|form.email| - 1]) && IsLetter(form.email[|form.email| - 2])
    ensures Utf16Length(form.password) >= MinPasswordLength
  {
    var s := form.email;
    var at, dot :| 0 <= at < |s| && 0 <= dot < |s| && ShapeAt(s, at, dot);
    assert !IsLocalChar('@') && !IsDomainChar('@') && !IsLetter('@');
    assert forall k :: 0 <= k < |s| && k != at ==> s[k] != '@' by {
      forall k | 0 <= k < |s| && k != at ensures s[k] != '@' {
        if k < at { assert IsLocalChar(s[k]); }
        else if k < dot { assert IsDomainChar(s[k]); }
        else if k > dot { assert IsLetter(s[k]); }
      }
    }
  }
}
