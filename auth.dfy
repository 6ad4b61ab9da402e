/**
 * The authentication store of the lending client (vue-app/src/stores/auth.js):
 * the signed-in user, the role currently viewed, and the browser's durable
 * storage.
 *
 * The user record's `role` is either one token or a list of tokens. The role
 * that is viewed (`currentRole`) is kept apart from the roles that are held:
 * `isAdmin` looks at the first, `isRealAdmin` at the second, so that a real
 * admin can browse as a regular user and switch back.
 *
 * The credential lookup against the remote table is not modelled: `Login`
 * receives its outcome. Navigation is returned as a target path.
 */
module Auth {
  import opened Wrappers

  const Admin: string := "ADMIN"
  const RegularUser: string := "USER"

  /** Storage key of the persisted user record. */
  const UserKey: string := "user"
  /** Storage key of the token of an earlier sign-in scheme, cleared on logout. */
  const LegacyTokenKey: string := "admin_token"

  /** The `role` attribute of a user record: absent, one token, or a list. */
  datatype RoleField = NoRole | Single(token: string) | Many(tokens: seq<string>)

  /** A row of the users table; its other columns are opaque here. */
  datatype User = User(username: string, role: RoleField)

  /** A value in durable storage: a serialised user record, or other text.
      `parsesTruthy` says whether that text parses to a truthy value (such as
      "1", "true" or "[]") rather than a falsy one (such as "null", "0" or
      "false"). */
  datatype Stored = Record(user: User) | Other(text: string, parsesTruthy: bool)

  /** What a truthy non-record value reads as: a user with no role. */
  const Anonymous: User := User("", NoRole)

  /** The one error login raises: the lookup found no single match. */
  datatype AuthError = InvalidCredentials

  /** getRoles: the user's roles as a list. No user, no role or an empty
      (falsy) role token give none; a list is kept as it is. */
  function GetRoles(u: Option<User>): (roles: seq<string>)
    ensures u.None? ==> roles == []
    ensures u.Some? && u.value.role.Many? ==> roles == u.value.role.tokens
    ensures !(u.Some? && u.value.role.Many?) ==> |roles| <= 1 && "" !in roles
  {
    match u
    case None => []
    case Some(v) =>
      match v.role
      case NoRole => []
      case Single(t) => if t == "" then [] else [t]
      case Many(ts) => ts
  }

  /** The user read back from storage at startup: `JSON.parse(...) || null`
      of the text under "user". A stored record is the user; other text
      that parses to a truthy value is a user with no role; a missing key
      or falsy text gives no user. */
  function StoredUser(storage: map<string, Stored>): (u: Option<User>)
    ensures u.Some? <==> UserKey in storage && (storage[UserKey].Record? || storage[UserKey].parsesTruthy)
    ensures u.Some? && storage[UserKey].Record? ==> u.value == storage[UserKey].user
    ensures u.Some? && storage[UserKey].Other? ==> u.value == Anonymous && GetRoles(u) == []
  {
    if UserKey !in storage then None
    else
      match storage[UserKey]
      case Record(v) => Some(v)
      case Other(_, truthy) => if truthy then Some(Anonymous) else None
  }

  /** The role viewed at startup: ADMIN when held, else the first role unless
      it is falsy, else null. */
  function StartupRole(u: Option<User>): (r: Option<string>)
    ensures r == Some(Admin) <==> Admin in GetRoles(u)
    ensures r.Some? ==> u.Some? && r.value in GetRoles(u) && r.value != ""
    ensures r.Some? && r.value != Admin ==> r.value == GetRoles(u)[0]
    ensures r.None? <==> Admin !in GetRoles(u) && (GetRoles(u) == [] || GetRoles(u)[0] == "")
  {
    var roles := GetRoles(u);
    if Admin in roles then Some(Admin)
    else if roles == [] || roles[0] == "" then None
    else Some(roles[0])
  }

  /** The role viewed after a successful login. Login normalises the role
      without getRoles: a single token, even an empty one, is kept, and an
      absent role or an empty list leaves the role undefined. */
  function LoginRole(u: User): (r: Option<string>)
    ensures r == Some(Admin) <==> Admin in GetRoles(Some(u))
    ensures r.Some? && r.value != "" ==> r.value in GetRoles(Some(u))
    ensures Admin !in GetRoles(Some(u)) && GetRoles(Some(u)) != [] ==> r == Some(GetRoles(Some(u))[0])
    ensures GetRoles(Some(u)) == [] ==> r == None || r == Some("")
  {
    match u.role
    case NoRole => None
    case Single(t) => Some(t)
    case Many(ts) =>
      if Admin in ts then Some(Admin)
      else if ts == [] then None
      else Some(ts[0])
  }

  /** The navigation switchRole asks for: the equipment page when a real
      admin takes the regular view from an admin page, the admin dashboard
      when taking the admin view, nowhere otherwise. */
  function SwitchTarget(targetRole: string, currentPath: string): (r: Option<string>)
    ensures r == Some("/equipment") <==> targetRole == RegularUser && "/admin" <= currentPath
    ensures r == Some("/admin/dashboard") <==> targetRole == Admin
    ensures r.None? <==> targetRole != Admin && !(targetRole == RegularUser && "/admin" <= currentPath)
  {
    if targetRole == RegularUser && "/admin" <= currentPath then Some("/equipment")
    else if targetRole == Admin then Some("/admin/dashboard")
    else None
  }

  /** The authentication store. */
  class AuthStore {
    var user: Option<User>
    var currentRole: Option<string>
    var storage: map<string, Stored>

    /** A role is viewed only while someone is signed in. */
    ghost predicate Valid()
      reads this
    {
      currentRole.Some? ==> user.Some?
    }

    /** Startup: the user is read back from storage and the viewed role
        derived from the user's roles. */
    constructor (storage: map<string, Stored>)
      ensures Valid()
      ensures this.storage == storage
      ensures user == StoredUser(storage)
      ensures currentRole == StartupRole(user)
    {
      this.storage := storage;
      user := StoredUser(storage);
      currentRole := StartupRole(StoredUser(storage));
    }

    /** isAuthenticated: someone is signed in. Signed out, no role is held,
        and in a consistent store none is viewed. */
    predicate IsAuthenticated()
      reads this
      ensures !IsAuthenticated() ==> GetRoles(user) == []
      ensures Valid() && !IsAuthenticated() ==> currentRole.None?
    {
      user.Some?
    }

    /** isAdmin: the role viewed is ADMIN; in a consistent store only a
        signed-in user can have it. */
    predicate IsAdmin()
      reads this
      ensures IsAdmin() ==> currentRole.Some?
      ensures Valid() && IsAdmin() ==> user.Some?
    {
      currentRole == Some(Admin)
    }

    /** isRealAdmin: the signed-in user holds ADMIN, and would therefore be
        given the admin view at startup. */
    predicate IsRealAdmin()
      reads this
      ensures IsRealAdmin() ==> user.Some?
      ensures IsRealAdmin() <==> StartupRole(user) == Some(Admin)
    {
      Admin in GetRoles(user)
    }

    /** login: `lookup` is the single matching row, or None when the lookup
        failed or matched no single row. A failure throws and changes
        nothing; a success signs the user in, picks the viewed role and
        persists the record. */
    method Login(lookup: Option<User>) returns (r: Result<User, AuthError>)
      requires Valid()
      modifies this
      ensures Valid()
      ensures lookup.None? ==>
        r == Failure(InvalidCredentials) &&
        user == old(user) && currentRole == old(currentRole) && storage == old(storage)
      ensures lookup.Some? ==>
        r == Success(lookup.value) &&
        user == lookup && currentRole == LoginRole(lookup.value) &&
        storage == old(storage)[UserKey := Record(lookup.value)]
    {
      if lookup.None? {
        return Failure(InvalidCredentials);
      }
      var data := lookup.value;
      user := Some(data);
      currentRole := LoginRole(data);
      storage := storage[UserKey := Record(data)];
      r := Success(data);
    }

    /** logout: sign out, drop the persisted record and the legacy token,
        and go to the landing page. */
    method Logout() returns (target: string)
      modifies this
      ensures Valid()
      ensures user == None && currentRole == None
      ensures storage == old(storage) - {UserKey, LegacyTokenKey}
      ensures !IsAuthenticated() && !IsAdmin() && !IsRealAdmin()
      ensures target == "/"
    {
      user := None;
      currentRole := None;
      storage := storage - {UserKey};
      storage := storage - {LegacyTokenKey};
      target := "/";
    }

    /** switchRole: only a real admin may change the viewed role, to any
        token at all (membership in the user's roles is not checked). The
        user and storage never change. */
    method SwitchRole(targetRole: string, currentPath: string) returns (target: Option<string>)
      requires Valid()
      modifies this
      ensures Valid()
      ensures user == old(user) && storage == old(storage)
      ensures IsRealAdmin() == old(IsRealAdmin())
      ensures old(IsRealAdmin()) ==>
        currentRole == Some(targetRole) && target == SwitchTarget(targetRole, currentPath)
      ensures !old(IsRealAdmin()) ==> currentRole == old(currentRole) && target == None
    {
      if !IsRealAdmin() {
        return None;
      }
      currentRole := Some(targetRole);
      target := SwitchTarget(targetRole, currentPath);
    }
  }

  // ---------------------------------------------------------------------
  // Properties
  // ---------------------------------------------------------------------

  /** In a consistent store the admin view implies a signed-in user, and
      holding ADMIN implies it too. */
  lemma AdminIsAuthenticated(store: AuthStore)
    requires store.Valid()
    ensures store.IsAdmin() ==> store.IsAuthenticated()
    ensures store.IsRealAdmin() ==> store.IsAuthenticated()
  {
  }

  /** getRoles yields the list itself for a list, the one token for a
      non-empty token, and nothing otherwise. */
  lemma GetRolesNormalises(u: Option<User>)
    ensures u.None? ==> GetRoles(u) == []
    ensures u.Some? && u.value.role.NoRole? ==> GetRoles(u) == []
    ensures u.Some? && u.value.role.Single? ==>
      GetRoles(u) == (if u.value.role.token == "" then [] else [u.value.role.token])
    ensures u.Some? && u.value.role.Many? ==> GetRoles(u) == u.value.role.tokens
  {
  }

  /** Login and startup pick the same viewed role for the same record except
      when login settles on an empty token, which startup turns into null. */
  lemma LoginMatchesStartup(u: User)
    ensures LoginRole(u) == StartupRole(Some(u)) <==> LoginRole(u) != Some("")
  {
  }

  /** A real admin who switches to the regular view stops being treated as
      admin but keeps the privilege to switch back. */
  method AdminPreview(admin: User, storage: map<string, Stored>, currentPath: string)
    returns (isAdmin: bool, isRealAdmin: bool, target: Option<string>)
    requires Admin in GetRoles(Some(admin))
    ensures !isAdmin && isRealAdmin
    ensures target == (if "/admin" <= currentPath then Some("/equipment") else None)
  {
    var store := new AuthStore(storage);
    var signedIn := store.Login(Some(admin));
    assert store.IsAdmin() && store.IsRealAdmin();
    target := store.SwitchRole(RegularUser, currentPath);
    isAdmin, isRealAdmin := store.IsAdmin(), store.IsRealAdmin();
  }
}
