/**
 * The login page: the role preselected from the `type` query parameter,
 * the two submit checks, the call into the session store and the
 * navigation that follows, and the redirect away from the page once a
 * session exists.
 */
module Login {
  import opened Wrappers
  import opened Text
  import opened AuthContext
  import opened ProtectedRoute
  import App

  /** The `type` query parameter picks the owner tab only when it says "owner"; anything else means seeker. */
  function InitialLoginRole(typeParam: Option<string>): (r: Role)
    ensures r == Owner <==> typeParam == Some("owner")
  {
    if typeParam == Some("owner") then Owner else Seeker
  }

  /** The effect shared by the login and registration pages: a signed-in visitor is sent to their dashboard. */
  function AlreadySignedInRedirect(isAuthenticated: bool, currentUserType: UserType): (target: Option<Path>)
    ensures target.Some? <==> isAuthenticated
    ensures target.Some? ==> target.value == DashboardPath(currentUserType)
  {
    if isAuthenticated then Some(DashboardPath(currentUserType)) else None
  }

  const EmailRequired := "Email is required"
  const PasswordRequired := "Password is required"

  /** The checks made before calling `login`: a blank email first, then an empty password. */
  function ValidateLogin(email: string, password: string): (error: Option<string>)
    ensures error.None? <==> !IsBlank(email) && password != ""
    ensures error == Some(EmailRequired) <==> IsBlank(email)
    ensures error == Some(PasswordRequired) <==> !IsBlank(email) && password == ""
  {
    // `!email.trim()`, stated as blankness (Text.TrimEmptyIffBlank)
    if IsBlank(email) then Some(EmailRequired)
    else if password == "" then Some(PasswordRequired)
    else None
  }

  /** The email check is the page's `!email.trim()` test. */
  lemma EmailCheckIsTrim(email: string, password: string)
    ensures ValidateLogin(email, password) == Some(EmailRequired) <==> Trim(email) == ""
  {
    TrimEmptyIffBlank(email);
  }

  /** The password is not trimmed: a password of spaces passes, an email of spaces does not. */
  lemma SpacesOnlyPassword(email: string)
    requires !IsBlank(email)
    ensures ValidateLogin(email, "   ").None?
    ensures ValidateLogin("   ", "secret") == Some(EmailRequired)
  {
    assert IsBlank("   ") by {
      assert forall i | 0 <= i < 3 :: "   "[i] == ' ';
    }
  }

  /** A query string link such as `/register?type=owner`: a path and the value of `type`, if any. */
  datatype Link = Link(path: Path, typeParam: Option<string>)

  /** The "Register" link carries the selected tab to the registration page. */
  function RegisterLink(userType: Role): (l: Link)
    ensures l.path == ["register"] && l.typeParam == Some(RoleName(userType))
  {
    Link(["register"], Some(RoleName(userType)))
  }

  /** The login page's form state. */
  class LoginPage {
    var userType: Role
    var email: string
    var password: string
    var error: string
    var isLoading: bool

    constructor (typeParam: Option<string>)
      ensures userType == InitialLoginRole(typeParam)
      ensures email == "" && password == "" && error == "" && !isLoading
    {
      userType := InitialLoginRole(typeParam);
      email := "";
      password := "";
      error := "";
      isLoading := false;
    }

    /** The two tab buttons. */
    method SelectUserType(r: Role)
      modifies this`userType
      ensures userType == r
    {
      userType := r;
    }

    /**
     * `handleSubmit`: clear the error, stop at the first failed check,
     * otherwise log in with the selected role and go to that role's dashboard.
     */
    method HandleSubmit(auth: AuthProvider, stamp: string) returns (target: Option<Path>)
      modifies this`error, this`isLoading, auth`user, auth.storage
      ensures target.None? <==> ValidateLogin(email, password).Some?
      ensures target.None? ==>
        error == ValidateLogin(email, password).value && isLoading == old(isLoading)
        && auth.user == old(auth.user) && auth.storage.items == old(auth.storage.items)
      ensures target.Some? ==>
        error == "" && !isLoading && target.value == DashboardPath(Some(userType))
        && auth.user == Some(LoginUser(email, Some(userType), stamp)) && auth.Synced()
        && auth.storage.items == old(auth.storage.items)[UserKey := auth.user.value]
      ensures target.Some? && !auth.loading ==>
        App.Resolve(target.value, App.SessionOf(auth))
          == App.Render(if userType == Seeker then App.SeekerDashboard else App.OwnerDashboard)
    {
      error := "";
      var v := ValidateLogin(email, password);
      if v.Some? {
        error := v.value;
        return None;
      }
      isLoading := true;
      auth.Login(email, password, Some(userType), stamp);
      target := Some(DashboardPath(Some(userType)));
      isLoading := false;
      if !auth.loading {
        var session := App.SessionOf(auth);
        assert App.Admits(session, userType);
        App.DashboardsAreFixpoints(session, userType);
      }
    }
  }
}
