/** The login and registration schemas as predicates, and the submit
    handler's routing. */
module AuthForm {
  import opened Wrappers
  import opened GdprConsent

  /** A string's `length` in the browser: characters outside the Basic
      Multilingual Plane take two UTF-16 code units. */
  function Utf16Length(s: string): (n: nat)
    ensures |s| <= n <= 2 * |s|
    ensures (forall i :: 0 <= i < |s| ==> s[i] as int <= 0xFFFF) ==> n == |s|
    decreases |s|
  {
    if |s| == 0 then 0
    else (if s[0] as int > 0xFFFF then 2 else 1) + Utf16Length(s[1..])
  }

  predicate IsLower(c: char) { 'a' <= c <= 'z' }
  predicate IsUpper(c: char) { 'A' <= c <= 'Z' }
  /** `\d` without the unicode flag. */
  predicate IsDigit(c: char) { '0' <= c <= '9' }
  predicate IsSpecial(c: char) { c == '@' || c == '$' || c == '!' || c == '%' || c == '*' || c == '?' || c == '&' }
  /** `[A-Za-z\d@$!%*?&]`. */
  predicate IsPasswordChar(c: char) { IsLower(c) || IsUpper(c) || IsDigit(c) || IsSpecial(c) }

  /** The characters `.` does not match. */
  predicate IsLineTerminator(c: char)
  {
    c == '\n' || c == '\r' || c == '\U{2028}' || c == '\U{2029}'
  }

  /** `\s`: the ECMAScript white-space and line-terminator characters. */
  predicate IsJsWhitespace(c: char)
  {
    ('\t' <= c <= '\r') || c == ' ' || c == '\U{00A0}' || c == '\U{1680}' ||
    ('\U{2000}' <= c <= '\U{200A}') || c == '\U{2028}' || c == '\U{2029}' ||
    c == '\U{202F}' || c == '\U{205F}' || c == '\U{3000}' || c == '\U{FEFF}'
  }

  /** The text before the first line terminator: what `.*` can run over. */
  function FirstLine(s: string): (line: string)
    ensures line <= s
    ensures forall i :: 0 <= i < |line| ==> !IsLineTerminator(line[i])
    ensures |line| < |s| ==> IsLineTerminator(s[|line|])
    decreases |s|
  {
    if |s| == 0 || IsLineTerminator(s[0]) then ""
    else [s[0]] + FirstLine(s[1..])
  }

  /** No line terminator occurs in `s[..i+1]`. */
  predicate NoBreakThrough(s: string, i: int)
    requires 0 <= i < |s|
  {
    forall j :: 0 <= j <= i ==> !IsLineTerminator(s[j])
  }

  /** `(?=.*[a-z])`-style lookahead at the start: such a character occurs
      before the first line break. */
  predicate LookaheadFinds(s: string, charClass: char -> bool)
    ensures LookaheadFinds(s, charClass) <==>
      exists i :: 0 <= i < |s| && charClass(s[i]) && NoBreakThrough(s, i)
  {
    var line := FirstLine(s);
    assert forall i :: 0 <= i < |s| ==> (i < |line| <==> NoBreakThrough(s, i)) by {
      forall i | 0 <= i < |s|
        ensures i < |line| <==> NoBreakThrough(s, i)
      {
        if i >= |line| {
          assert IsLineTerminator(s[|line|]);
        } else {
          assert forall j :: 0 <= j <= i ==> s[j] == line[j];
        }
      }
    }
    exists i :: 0 <= i < |line| && charClass(line[i])
  }

  /** `/^(?=.*[a-z])(?=.*[A-Z])(?=.*\d)(?=.*[@$!%*?&])[A-Za-z\d@$!%*?&]/`:
      the four lookaheads, then one allowed first character; with no end
      anchor nothing after it is checked. */
  predicate PasswordPattern(s: string)
    ensures PasswordPattern(s) ==> |s| >= 4 && IsPasswordChar(s[0])
    ensures PasswordPattern(s) ==>
      (exists i :: 0 <= i < |s| && IsLower(s[i])) && (exists i :: 0 <= i < |s| && IsUpper(s[i])) &&
      (exists i :: 0 <= i < |s| && IsDigit(s[i])) && (exists i :: 0 <= i < |s| && IsSpecial(s[i]))
  {
    |s| > 0 && IsPasswordChar(s[0]) &&
    LookaheadFinds(s, IsLower) && LookaheadFinds(s, IsUpper) &&
    LookaheadFinds(s, IsDigit) && LookaheadFinds(s, IsSpecial)
  }

  predicate PasswordValid(s: string)
    ensures PasswordValid(s) ==> Utf16Length(s) >= 8 && IsPasswordChar(s[0])
    ensures PasswordValid(s) ==>
      (exists i :: 0 <= i < |s| && IsLower(s[i])) && (exists i :: 0 <= i < |s| && IsUpper(s[i])) &&
      (exists i :: 0 <= i < |s| && IsDigit(s[i])) && (exists i :: 0 <= i < |s| && IsSpecial(s[i]))
  {
    Utf16Length(s) >= 8 && PasswordPattern(s)
  }

  /** `.min(1).email()`; the address format is the validator library's,
      passed in as `isEmail`. */
  predicate EmailValid(s: string, isEmail: string -> bool)
    ensures EmailValid(s, isEmail) <==> s != "" && isEmail(s)
  {
    Utf16Length(s) >= 1 && isEmail(s)
  }

  /** `.min(2).max(50).regex(/^[a-zA-Z\s]+$/)`. */
  predicate NameValid(s: string)
    ensures NameValid(s) <==>
      (2 <= |s| <= 50 && forall i :: 0 <= i < |s| ==> IsLower(s[i]) || IsUpper(s[i]) || IsJsWhitespace(s[i]))
  {
    2 <= Utf16Length(s) <= 50 &&
    |s| > 0 && forall i :: 0 <= i < |s| ==> IsLower(s[i]) || IsUpper(s[i]) || IsJsWhitespace(s[i])
  }

  /** The form's fields; the login form reads only email and password. */
  datatype FormData = FormData(
    email: string, password: string, name: string, confirmPassword: string,
    acceptTerms: bool, gdprConsent: ConsentOptions)

  /** `loginSchema`. */
  predicate LoginValid(f: FormData, isEmail: string -> bool)
    ensures LoginValid(f, isEmail) ==>
      f.email != "" && isEmail(f.email) && Utf16Length(f.password) >= 8 && IsPasswordChar(f.password[0])
  {
    EmailValid(f.email, isEmail) && PasswordValid(f.password)
  }

  datatype Field = Email | Password | Name | AcceptTerms | GdprNecessary | ConfirmPassword

  const AllFields: set<Field> := {Email, Password, Name, AcceptTerms, GdprNecessary, ConfirmPassword}

  /** Whether the rule `registerSchema` attaches to a field holds. */
  predicate Passes(f: FormData, isEmail: string -> bool, field: Field)
  {
    match field
    case Email => EmailValid(f.email, isEmail)
    case Password => PasswordValid(f.password)
    case Name => NameValid(f.name)
    case AcceptTerms => f.acceptTerms
    case GdprNecessary => f.gdprConsent.necessary
    case ConfirmPassword => f.password == f.confirmPassword
  }

  /** The fields `registerSchema` reports an issue on. The field rules all
      run, and the password-match refinement runs after them and reports
      on `confirmPassword`. */
  function RegisterIssues(f: FormData, isEmail: string -> bool): (issues: set<Field>)
    ensures Email in issues <==> !EmailValid(f.email, isEmail)
    ensures Password in issues <==> !PasswordValid(f.password)
    ensures ConfirmPassword in issues <==> f.password != f.confirmPassword
    ensures Name in issues <==> !NameValid(f.name)
    ensures AcceptTerms in issues <==> !f.acceptTerms
    ensures GdprNecessary in issues <==> !f.gdprConsent.necessary
  {
    set field | field in AllFields && !Passes(f, isEmail, field)
  }

  /** `registerSchema`: accepted when no field has an issue. */
  predicate RegisterValid(f: FormData, isEmail: string -> bool)
    ensures RegisterValid(f, isEmail) ==>
      LoginValid(f, isEmail) && f.gdprConsent.necessary && f.password == f.confirmPassword
  {
    RegisterIssues(f, isEmail) == {}
  }

  /** The registration schema extends the login one; the optional consents
      are free. */
  lemma RegisterValidMeans(f: FormData, isEmail: string -> bool)
    ensures RegisterValid(f, isEmail) <==>
      LoginValid(f, isEmail) && NameValid(f.name) && f.acceptTerms &&
      f.gdprConsent.necessary && f.password == f.confirmPassword
    ensures RegisterValid(f, isEmail) ==> LoginValid(f, isEmail)
  {
    var issues := RegisterIssues(f, isEmail);
    if !EmailValid(f.email, isEmail) { assert Email in issues; }
    if !PasswordValid(f.password) { assert Password in issues; }
  }

  /** The consents other than `necessary` never decide registration. */
  lemma OptionalConsentsFree(f: FormData, isEmail: string -> bool, analytics: bool, marketing: bool)
    ensures RegisterValid(f, isEmail) ==
      RegisterValid(f.(gdprConsent := f.gdprConsent.(analytics := analytics, marketing := marketing)), isEmail)
  {
    RegisterValidMeans(f, isEmail);
    RegisterValidMeans(f.(gdprConsent := f.gdprConsent.(analytics := analytics, marketing := marketing)), isEmail);
  }

  lemma {:induction false} FirstLineOfAppend(s: string, t: string)
    ensures FirstLine(s) <= FirstLine(s + t)
    decreases |s|
  {
    if |s| > 0 && !IsLineTerminator(s[0]) {
      assert (s + t)[1..] == s[1..] + t;
      FirstLineOfAppend(s[1..], t);
    }
  }

  lemma LookaheadKept(s: string, t: string, charClass: char -> bool)
    requires LookaheadFinds(s, charClass)
    ensures LookaheadFinds(s + t, charClass)
  {
    FirstLineOfAppend(s, t);
    var line := FirstLine(s);
    var i :| 0 <= i < |line| && charClass(line[i]);
    assert FirstLine(s + t)[i] == line[i];
  }

  /** Only the first character is restricted to the allowed set: whatever
      follows a matching password, it still matches. */
  lemma PasswordTailUnconstrained(s: string, t: string)
    requires PasswordPattern(s)
    ensures PasswordPattern(s + t)
  {
    LookaheadKept(s, t, IsLower);
    LookaheadKept(s, t, IsUpper);
    LookaheadKept(s, t, IsDigit);
    LookaheadKept(s, t, IsSpecial);
    assert (s + t)[0] == s[0];
  }

  /** A password with the four classes on its first line and an allowed
      first character matches. */
  lemma PasswordAccepted()
    ensures PasswordValid("Abcdef1!")
  {
    var ok := "Abcdef1!";
    FirstLineWhole(ok);
    assert LookaheadFinds(ok, IsLower) by { assert IsLower(ok[1]); }
    assert LookaheadFinds(ok, IsUpper) by { assert IsUpper(ok[0]); }
    assert LookaheadFinds(ok, IsDigit) by { assert IsDigit(ok[6]); }
    assert LookaheadFinds(ok, IsSpecial) by { assert IsSpecial(ok[7]); }
    assert PasswordPattern(ok);
  }

  /** The first character is checked: a password that starts outside the
      allowed set is refused, whatever follows. */
  lemma PasswordFirstCharChecked(s: string)
    requires |s| > 0 && !IsPasswordChar(s[0])
    ensures !PasswordValid(s)
  {
  }

  /** What follows a line break is invisible to a lookahead: a class is found
      in a line followed by a break exactly when it is found in the line. */
  lemma ClassAfterLineBreak(s: string, t: string, charClass: char -> bool)
    requires FirstLine(s) == s
    requires |t| > 0 && IsLineTerminator(t[0])
    ensures LookaheadFinds(s + t, charClass) <==> LookaheadFinds(s, charClass)
  {
    FirstLineBreak(s, t);
  }

  /** An instance: the only uppercase letter comes after a line break. */
  lemma PasswordClassAfterLineBreak()
    ensures !PasswordValid("abcdef1!\nA")
  {
    var first := "abcdef1!";
    assert "abcdef1!\nA" == first + "\nA";
    FirstLineWhole(first);
    ClassAfterLineBreak(first, "\nA", IsUpper);
    assert forall i :: 0 <= i < |first| ==> !IsUpper(first[i]);
  }

  lemma {:induction false} FirstLineWhole(s: string)
    requires forall i :: 0 <= i < |s| ==> !IsLineTerminator(s[i])
    ensures FirstLine(s) == s
    decreases |s|
  {
    if |s| > 0 {
      FirstLineWhole(s[1..]);
      assert [s[0]] + s[1..] == s;
    }
  }

  lemma {:induction false} FirstLineBreak(s: string, t: string)
    requires FirstLine(s) == s
    requires |t| > 0 && IsLineTerminator(t[0])
    ensures FirstLine(s + t) == s
    decreases |s|
  {
    if |s| > 0 {
      assert (s + t)[1..] == s[1..] + t;
      assert FirstLine(s[1..]) == s[1..];
      FirstLineBreak(s[1..], t);
    } else {
      assert s + t == t;
    }
  }

  /** The consent the registration form starts with. */
  const InitialConsent := ConsentOptions(true, false, false)

  /** Starting from the form's initial consent, no series of checkbox
      changes can make the necessary-consent rule fail. */
  lemma InterfaceConsentNeverBlocks(f: FormData, isEmail: string -> bool, changes: seq<(ConsentKey, bool)>)
    requires forall i :: 0 <= i < |changes| ==> Enabled(changes[i].0)
    ensures GdprNecessary !in RegisterIssues(f.(gdprConsent := ApplyAll(InitialConsent, changes)), isEmail)
  {
    InterfaceKeepsNecessary(InitialConsent, changes);
  }

  datatype Mode = LoginMode | RegisterMode

  const DashboardRoute := "/dashboard"
  const LoginRoute := "/auth/login"

  /** The form's own state: its loading flag and the consent it edits. */
  class AuthFormState {
    var isLoading: bool
    var gdprConsent: ConsentOptions

    constructor ()
      ensures !isLoading && gdprConsent == InitialConsent
    {
      isLoading := false;
      gdprConsent := InitialConsent;
    }

    /** `handleGdprChange`: records the consent the checkboxes emitted (the
        same record is handed to the form data the schema validates). */
    method HandleGdprChange(consent: ConsentOptions)
      modifies this
      ensures gdprConsent == consent && isLoading == old(isLoading)
    {
      gdprConsent := consent;
    }

    /** `onSubmit`, given what the awaited `login` or `register` threw (None
        when it resolved): where to navigate and what to alert. */
    method OnSubmit(mode: Mode, thrown: Option<string>) returns (route: Option<string>, alert: Option<string>)
      modifies this
      ensures !isLoading && gdprConsent == old(gdprConsent)
      ensures thrown.None? && mode == LoginMode ==> route == Some(DashboardRoute) && alert.None?
      ensures thrown.None? && mode == RegisterMode ==> route == Some(LoginRoute) && alert.None?
      ensures thrown.Some? ==> route.None? && alert == Some("Error: " + thrown.value)
    {
      isLoading := true;
      if thrown.None? {
        route := Some(if mode == LoginMode then DashboardRoute else LoginRoute);
        alert := None;
      } else {
        route := None;
        alert := Some("Error: " + thrown.value);
      }
      isLoading := false;
    }
  }
}
