/**
 * The registration page: the role preselected from the `type` query
 * parameter, the six ordered form checks with their messages, the email
 * pattern `\S+@\S+\.\S+`, and the submit handler.
 */
module Registration {
  import opened Wrappers
  import opened Text
  import opened AuthContext
  import opened ProtectedRoute
  import opened Login
  import App

  /** The `type` query parameter preselects a role only when it names one exactly; otherwise the picker shows. */
  function InitialRegisterRole(typeParam: Option<string>): (r: UserType)
    ensures r == Some(Seeker) <==> typeParam == Some("seeker")
    ensures r == Some(Owner) <==> typeParam == Some("owner")
  {
    if typeParam == Some("seeker") then Some(Seeker)
    else if typeParam == Some("owner") then Some(Owner)
    else None
  }

  /** Following the login page's "Register" link keeps the role the visitor had chosen. */
  lemma RegisterLinkKeepsRole(r: Role)
    ensures InitialRegisterRole(RegisterLink(r).typeParam) == Some(r)
  {
  }

  /** The registration page links back to `/login` with no `type`, which opens the seeker tab. */
  lemma LoginLinkOpensSeekerTab()
    ensures InitialLoginRole(None) == Seeker
  {
  }

  // The email pattern. `test` is unanchored, so a match may sit anywhere in the string.

  /** `s[i..j]` is a non-empty run of `\S` characters. */
  predicate NonSpaceRun(s: string, i: int, j: int)
  {
    0 <= i < j <= |s| && forall k | i <= k < j :: !IsWhiteSpace(s[k])
  }

  /** `\S+@\S+\.\S+` matches `s[a..e]` with the `@` at `at` and the `.` at `d`. */
  predicate MatchAt(s: string, a: int, at: int, d: int, e: int)
  {
    0 <= a < at < d < e <= |s| && NonSpaceRun(s, a, at) && s[at] == '@' && NonSpaceRun(s, at + 1, d)
    && s[d] == '.' && NonSpaceRun(s, d + 1, e)
  }

  /** `/\S+@\S+\.\S+/.test(s)`. */
  predicate EmailPattern(s: string)
  {
    exists a, at, d, e | 0 <= a < at < d < e <= |s| :: MatchAt(s, a, at, d, e)
  }

  /** An `@` with a non-space before it, then at least one non-space, a `.`, and a non-space after it. */
  predicate ShapeAt(s: string, at: int, d: int)
  {
    1 <= at && at + 1 < d && d + 1 < |s|
    && !IsWhiteSpace(s[at - 1]) && s[at] == '@'
    && NonSpaceRun(s, at + 1, d) && s[d] == '.' && !IsWhiteSpace(s[d + 1])
  }

  predicate EmailShape(s: string)
  {
    exists at, d | 1 <= at < d < |s| :: ShapeAt(s, at, d)
  }

  /** The pattern matches exactly when some `@` and later `.` have the shape above: the outer runs need only one character. */
  lemma EmailPatternIffShape(s: string)
    ensures EmailPattern(s) <==> EmailShape(s)
  {
    if EmailPattern(s) {
      var a, at, d, e :| 0 <= a < at < d < e <= |s| && MatchAt(s, a, at, d, e);
      assert ShapeAt(s, at, d);
    }
    if EmailShape(s) {
      var at, d :| 1 <= at < d < |s| && ShapeAt(s, at, d);
      assert MatchAt(s, at - 1, at, d, d + 2);
    }
  }

  /** An accepted email has an `@`, a `.` and at least five characters. */
  lemma EmailPatternNeeds(s: string)
    requires EmailPattern(s)
    ensures '@' in s && '.' in s && |s| >= 5 && !IsBlank(s)
  {
    var a, at, d, e :| 0 <= a < at < d < e <= |s| && MatchAt(s, a, at, d, e);
    assert s[at] == '@' && s[d] == '.' && !IsWhiteSpace(s[at]);
  }

  /** A run of non-space characters stays one when the string is embedded at offset `n`. */
  lemma RunShift(s: string, t: string, n: nat, i: int, j: int)
    requires NonSpaceRun(s, i, j) && n + |s| <= |t|
    requires forall k | 0 <= k < |s| :: t[n + k] == s[k]
    ensures NonSpaceRun(t, n + i, n + j)
  {
    forall k | n + i <= k < n + j
      ensures !IsWhiteSpace(t[k])
    {
      assert t[k] == s[k - n];
    }
  }

  /** Text around an accepted email does not stop it matching: the pattern is not anchored. */
  lemma EmailPatternUnanchored(p: string, s: string, q: string)
    requires EmailPattern(s)
    ensures EmailPattern(p + s + q)
  {
    var a, at, d, e :| 0 <= a < at < d < e <= |s| && MatchAt(s, a, at, d, e);
    var t := p + s + q;
    var n := |p|;
    assert forall k | 0 <= k < |s| :: t[n + k] == s[k];
    RunShift(s, t, n, a, at);
    RunShift(s, t, n, at + 1, d);
    RunShift(s, t, n, d + 1, e);
    assert t[n + at] == '@' && t[n + d] == '.';
    assert MatchAt(t, n + a, n + at, n + d, n + e);
  }

  lemma EmailPatternExamples()
    ensures EmailPattern("ravi@mail.com")
    ensures !EmailPattern("ravi@mail")
  {
    assert MatchAt("ravi@mail.com", 0, 4, 9, 13);
    if EmailPattern("ravi@mail") {
      EmailPatternNeeds("ravi@mail");
      assert false;
    }
  }

  datatype RegisterForm = RegisterForm(
    userType: UserType, name: string, email: string, password: string, confirmPassword: string)

  const SelectUserType := "Please select a user type"
  const NameRequired := "Name is required"
  const InvalidEmail := "Please enter a valid email address"
  const PasswordTooShort := "Password must be at least 6 characters long"
  const PasswordMismatch := "Passwords do not match"

  /** `validateForm`: the message of the first failed check, in the page's order. */
  function ValidateRegistration(f: RegisterForm): (error: Option<string>)
    ensures error.Some? ==>
      (error.value in {SelectUserType, NameRequired, EmailRequired, InvalidEmail, PasswordTooShort, PasswordMismatch})
  {
    if f.userType.None? then Some(SelectUserType)
    // `!name.trim()` and `!email.trim()`, stated as blankness (Text.TrimEmptyIffBlank)
    else if IsBlank(f.name) then Some(NameRequired)
    else if IsBlank(f.email) then Some(EmailRequired)
    else if !EmailPattern(f.email) then Some(InvalidEmail)
    else if |f.password| < 6 then Some(PasswordTooShort)
    else if f.password != f.confirmPassword then Some(PasswordMismatch)
    else None
  }

  /** Everything the page requires of a registration. */
  predicate Acceptable(f: RegisterForm)
  {
    f.userType.Some? && !IsBlank(f.name) && EmailPattern(f.email)
    && |f.password| >= 6 && f.password == f.confirmPassword
  }

  /** A form passes exactly when it is acceptable: the blank-email check is subsumed by the pattern. */
  lemma PassesIffAcceptable(f: RegisterForm)
    ensures ValidateRegistration(f).None? <==> Acceptable(f)
  {
    if EmailPattern(f.email) {
      EmailPatternNeeds(f.email);
    }
  }

  /** Each message is shown exactly when its check is the first to fail. */
  lemma FirstFailedCheck(f: RegisterForm)
    ensures ValidateRegistration(f) == Some(SelectUserType) <==> f.userType.None?
    ensures ValidateRegistration(f) == Some(NameRequired) <==> f.userType.Some? && IsBlank(f.name)
    ensures ValidateRegistration(f) == Some(EmailRequired) <==>
      f.userType.Some? && !IsBlank(f.name) && IsBlank(f.email)
    ensures ValidateRegistration(f) == Some(InvalidEmail) <==>
      f.userType.Some? && !IsBlank(f.name) && !IsBlank(f.email) && !EmailPattern(f.email)
    ensures ValidateRegistration(f) == Some(PasswordTooShort) <==>
      f.userType.Some? && !IsBlank(f.name) && EmailPattern(f.email) && |f.password| < 6
    ensures ValidateRegistration(f) == Some(PasswordMismatch) <==>
      f.userType.Some? && !IsBlank(f.name) && EmailPattern(f.email) && |f.password| >= 6
      && f.password != f.confirmPassword
  {
    var r := ValidateRegistration(f);
    var pattern := EmailPattern(f.email);
    if pattern {
      EmailPatternNeeds(f.email);
    }
    if f.userType.None? {
      assert r == Some(SelectUserType);
    } else if IsBlank(f.name) {
      assert r == Some(NameRequired);
    } else if IsBlank(f.email) {
      assert r == Some(EmailRequired);
    } else if !pattern {
      assert r == Some(InvalidEmail);
    } else if |f.password| < 6 {
      assert r == Some(PasswordTooShort);
    } else if f.password != f.confirmPassword {
      assert r == Some(PasswordMismatch);
    } else {
      assert r.None?;
    }
  }

  /** The registration page's form state. */
  class RegisterPage {
    var userType: UserType
    var name: string
    var email: string
    var password: string
    var confirmPassword: string
    var error: string
    var isLoading: bool

    constructor (typeParam: Option<string>)
      ensures userType == InitialRegisterRole(typeParam)
      ensures name == "" && email == "" && password == "" && confirmPassword == ""
      ensures error == "" && !isLoading
    {
      userType := InitialRegisterRole(typeParam);
      name := "";
      email := "";
      password := "";
      confirmPassword := "";
      error := "";
      isLoading := false;
    }

    /** The page's fields taken together, as the checks read them. */
    function Form(): RegisterForm
      reads this
    {
      RegisterForm(userType, name, email, password, confirmPassword)
    }

    /** The role cards pick a role; "Change" (`setUserType('')`) returns to the picker. */
    method SetUserType(t: UserType)
      modifies this`userType
      ensures userType == t
    {
      userType := t;
    }

    /**
     * `handleSubmit`: clear the error, stop at the first failed check,
     * otherwise register with the chosen role and go to that role's dashboard.
     */
    method HandleSubmit(auth: AuthProvider, stamp: string) returns (target: Option<Path>)
      modifies this`error, this`isLoading, auth`user, auth.storage
      ensures ValidateRegistration(Form()).Some? ==>
        error == ValidateRegistration(Form()).value && target.None? && isLoading == old(isLoading)
        && auth.user == old(auth.user) && auth.storage.items == old(auth.storage.items)
      ensures ValidateRegistration(Form()).None? ==>
        Acceptable(Form()) && error == "" && !isLoading && target == Some(DashboardPath(userType))
        && auth.user == Some(RegisterUser(name, email, userType, stamp)) && auth.Synced()
        && auth.storage.items == old(auth.storage.items)[UserKey := auth.user.value]
      ensures ValidateRegistration(Form()).None? && !auth.loading ==>
        App.Resolve(target.value, App.SessionOf(auth))
          == App.Render(if userType == Some(Seeker) then App.SeekerDashboard else App.OwnerDashboard)
    {
      error := "";
      var v := ValidateRegistration(Form());
      if v.Some? {
        error := v.value;
        return None;
      }
      PassesIffAcceptable(Form());
      isLoading := true;
      auth.Register(name, email, password, userType, stamp);
      target := Some(DashboardPath(userType));
      isLoading := false;
      if !auth.loading {
        var session := App.SessionOf(auth);
        assert App.Admits(session, userType.value);
        App.DashboardsAreFixpoints(session, userType.value);
      }
    }
  }
}
