/**
 * The session store: who is signed in, whether the start-up check has run,
 * and the one record kept in the browser's local storage.
 */
module AuthContext {
  import opened Wrappers

  datatype Role = Seeker | Owner

  /** `'seeker' | 'owner' | null`: the declared user type admits null. */
  type UserType = Option<Role>

  datatype User = User(id: string, name: string, email: string, userType: UserType)

  /** The key the session record is stored under. */
  const UserKey: string := "pgBuddyUser"

  /** How a role is spelled in paths and query parameters. */
  function RoleName(r: Role): (s: string)
    ensures s == "seeker" || s == "owner"
  {
    match r
    case Seeker => "seeker"
    case Owner => "owner"
  }

  /** A user type as a template literal renders it: null becomes `"null"`. */
  function UserTypeName(t: UserType): (s: string)
    ensures t.Some? ==> s == RoleName(t.value)
    ensures t.None? ==> s == "null"
  {
    match t
    case Some(r) => RoleName(r)
    case None => "null"
  }

  /** Distinct roles are spelled differently, so a spelling names one role. */
  lemma RoleNameInjective(a: Role, b: Role)
    ensures RoleName(a) == RoleName(b) <==> a == b
  {
  }

  /** `email.split('@')[0]`: the part of `email` before its first `@`, or all of it when there is none. */
  function NameFromEmail(email: string): (name: string)
    ensures |name| <= |email| && name == email[..|name|]
    ensures '@' !in name
    ensures |name| < |email| ==> email[|name|] == '@'
  {
    if email == [] || email[0] == '@' then []
    else [email[0]] + NameFromEmail(email[1..])
  }

  /** The record `login` creates; `stamp` is the decimal clock reading that makes the id. */
  function LoginUser(email: string, userType: UserType, stamp: string): (u: User)
    ensures u.email == email && u.userType == userType
    ensures u.name == NameFromEmail(email)
    ensures u.id == "user-" + stamp
  {
    User("user-" + stamp, NameFromEmail(email), email, userType)
  }

  /** The record `register` creates. */
  function RegisterUser(name: string, email: string, userType: UserType, stamp: string): (u: User)
    ensures u.name == name && u.email == email && u.userType == userType
    ensures u.id == "user-" + stamp
  {
    User("user-" + stamp, name, email, userType)
  }

  /** The browser's local storage, restricted to records of this application; it outlives a page load. */
  class LocalStorage {
    var items: map<string, User>

    constructor (items: map<string, User>)
      ensures this.items == items
    {
      this.items := items;
    }

    /** `getItem(key)`. */
    function GetItem(key: string): (r: Option<User>)
      reads this
      ensures r.Some? <==> key in items
      ensures r.Some? ==> r.value == items[key]
    {
      if key in items then Some(items[key]) else None
    }
  }

  /** The context provider: the in-memory user and the loading flag, backed by `storage`. */
  class AuthProvider {
    const storage: LocalStorage
    var user: Option<User>
    var loading: bool

    /** The in-memory user is the stored record (or its absence). */
    ghost predicate Synced()
      reads this, storage
    {
      user == storage.GetItem(UserKey)
    }

    /** `!!user`. */
    function IsAuthenticated(): (b: bool)
      reads this
      ensures b <==> user.Some?
    {
      user.Some?
    }

    /** `user?.type || null`. */
    function CurrentUserType(): (t: UserType)
      reads this
      ensures user.None? ==> t.None?
      ensures user.Some? ==> t == user.value.userType
    {
      match user
      case Some(u) => u.userType
      case None => None
    }

    /** Mounting the provider: no user yet, and the start-up check still pending. */
    constructor (storage: LocalStorage)
      ensures this.storage == storage
      ensures user.None? && loading
    {
      this.storage := storage;
      user := None;
      loading := true;
    }

    /** `checkUserSession`: adopt the stored record if there is one, then stop loading. */
    method CheckUserSession()
      modifies this`user, this`loading
      ensures !loading
      ensures user == (if UserKey in storage.items then Some(storage.items[UserKey]) else old(user))
    {
      var stored := storage.GetItem(UserKey);
      if stored.Some? {
        user := stored;
      }
      loading := false;
    }

    /** `login`: always succeeds; the password is never consulted. */
    method Login(email: string, password: string, userType: UserType, stamp: string)
      modifies this`user, storage
      ensures user == Some(LoginUser(email, userType, stamp))
      ensures storage.items == old(storage.items)[UserKey := user.value]
      ensures Synced()
    {
      var mockUser := LoginUser(email, userType, stamp);
      storage.items := storage.items[UserKey := mockUser];
      user := Some(mockUser);
    }

    /** `register`: like `login`, but the name is the one supplied. */
    method Register(name: string, email: string, password: string, userType: UserType, stamp: string)
      modifies this`user, storage
      ensures user == Some(RegisterUser(name, email, userType, stamp))
      ensures storage.items == old(storage.items)[UserKey := user.value]
      ensures Synced()
    {
      var mockUser := RegisterUser(name, email, userType, stamp);
      storage.items := storage.items[UserKey := mockUser];
      user := Some(mockUser);
    }

    /** `logout`: forget the stored record and the in-memory user. */
    method Logout()
      modifies this`user, storage
      ensures user.None? && !IsAuthenticated() && CurrentUserType().None?
      ensures storage.items == old(storage.items) - {UserKey}
      ensures Synced()
    {
      storage.items := storage.items - {UserKey};
      user := None;
    }
  }

  /** A fresh provider over the same storage, after its start-up check, holds exactly the stored record. */
  method StartUp(storage: LocalStorage) returns (auth: AuthProvider)
    ensures fresh(auth) && auth.storage == storage
    ensures !auth.loading && auth.Synced()
  {
    auth := new AuthProvider(storage);
    auth.CheckUserSession();
  }

  /** Signing in and then reloading the page restores a user with the same email and type. */
  method LoginThenReload(storage: LocalStorage, email: string, password: string, userType: UserType, stamp: string)
    returns (restored: Option<User>)
    modifies storage
    ensures restored == Some(LoginUser(email, userType, stamp))
    ensures restored.value.email == email && restored.value.userType == userType
  {
    var first := StartUp(storage);
    first.Login(email, password, userType, stamp);
    var second := StartUp(storage);
    restored := second.user;
  }
}
