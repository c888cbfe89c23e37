/** The session holder every page reads: the logged-in user, a loading flag
    and the browser's stored-session slot, with login, logout, the session
    restore run on mount and three permission checks that fail closed. */
module AuthContext {
  import opened Options
  import opened Rbac

  /** What the stored-session slot can hold: a serialised user, or text that
      does not parse as one (an empty string behaves the same way: it is
      skipped and the user is left as it was). */
  datatype StoredSession = Serialized(user: UserWithRole) | Unparseable(text: string)

  // ---------------------------------------------------------------------
  // The checks, as functions of the current user
  // ---------------------------------------------------------------------

  /** `checkPermission`: false when no one is logged in. */
  function CheckPermission(user: Option<UserWithRole>, permissionId: string): (r: bool)
    ensures r <==> user.Some? && user.value.role.Some? &&
                   permissionId in user.value.role.value.permissions
  {
    if user.None? then false else HasPermission(user.value, permissionId)
  }

  /** `checkAnyPermission`: false when no one is logged in. */
  function CheckAnyPermission(user: Option<UserWithRole>, permissionIds: seq<string>): (r: bool)
    ensures r <==> user.Some? && user.value.role.Some? &&
                   exists id :: id in permissionIds && id in user.value.role.value.permissions
  {
    if user.None? then false else HasAnyPermission(user.value, permissionIds)
  }

  /** `checkAllPermissions`: false when no one is logged in, even for the
      empty list. */
  function CheckAllPermissions(user: Option<UserWithRole>, permissionIds: seq<string>): (r: bool)
    ensures r <==> user.Some? && user.value.role.Some? &&
                   forall id :: id in permissionIds ==> id in user.value.role.value.permissions
  {
    if user.None? then false else HasAllPermissions(user.value, permissionIds)
  }

  /** With no one logged in all three checks refuse, whatever is asked. */
  lemma NoUserRefused(id: string, ids: seq<string>)
    ensures !CheckPermission(None, id)
    ensures !CheckAnyPermission(None, ids)
    ensures !CheckAllPermissions(None, ids)
  {
  }

  /** With a user logged in the checks are the evaluator's. */
  lemma ChecksDelegate(u: UserWithRole, id: string, ids: seq<string>)
    ensures CheckPermission(Some(u), id) == HasPermission(u, id)
    ensures CheckAnyPermission(Some(u), ids) == HasAnyPermission(u, ids)
    ensures CheckAllPermissions(Some(u), ids) == HasAllPermissions(u, ids)
  {
  }

  // ---------------------------------------------------------------------
  // The user `login` creates
  // ---------------------------------------------------------------------

  /** The permissions written out in the mock owner `login` signs in. */
  const MockPermissions: seq<string> := [
    "properties.view", "properties.create", "properties.edit", "properties.delete",
    "rooms.view", "rooms.create", "rooms.edit", "rooms.delete",
    "bookings.view", "bookings.create", "bookings.edit", "bookings.delete",
    "bookings.checkin", "bookings.checkout",
    "guests.view", "guests.create", "guests.edit", "guests.delete",
    "finance.view", "finance.manage", "finance.reports",
    "users.view", "users.create", "users.edit", "users.delete",
    "roles.view", "roles.manage"
  ]

  /** The mock user for `email`; the password is never looked at. */
  function MockUser(email: string): (u: UserWithRole)
    ensures u.email == email && u.roleId == "owner" && u.active
    ensures u.role == Some(Role("owner", "Owner", "Full access to all features", MockPermissions))
  {
    UserWithRole("1", "John Doe", email, "owner",
                 Some(Role("owner", "Owner", "Full access to all features", MockPermissions)), true)
  }

  /** The mock user's list is the catalog, id for id and in catalog order,
      which is also the Owner role's list. */
  lemma MockPermissionsAreCatalog()
    ensures MockPermissions == Ids(Permissions)
    ensures MockPermissions == OwnerRole.permissions
  {
    MockListIsCatalogList();
    CatalogIdsDistinct();
  }

  lemma MockListIsCatalogList()
    ensures MockPermissions == CatalogIdList
  {
  }

  /** The mock user passes `checkPermission` for exactly the catalog ids. */
  lemma MockUserHoldsCatalog(email: string, id: string)
    ensures CheckPermission(Some(MockUser(email)), id) <==> id in Ids(Permissions)
  {
    MockPermissionsAreCatalog();
  }

  // ---------------------------------------------------------------------
  // The provider
  // ---------------------------------------------------------------------

  class AuthProvider {
    var user: Option<UserWithRole>
    var isLoading: bool
    /** The browser's "hotelUser" entry. */
    var stored: Option<StoredSession>

    /** Mounting the provider: nobody logged in, the session check pending. */
    constructor(stored: Option<StoredSession>)
      ensures user == None && isLoading
      ensures this.stored == stored
    {
      user := None;
      isLoading := true;
      this.stored := stored;
    }

    /** The session check run on mount: a stored user that parses becomes
        the current user; in every case loading ends. */
    method CheckSession()
      modifies this
      ensures !isLoading
      ensures stored == old(stored)
      ensures old(stored).Some? && old(stored).value.Serialized? ==> user == Some(old(stored).value.user)
      ensures !(old(stored).Some? && old(stored).value.Serialized?) ==> user == old(user)
    {
      if stored.Some? {
        match stored.value
        case Serialized(u) => user := Some(u);
        case Unparseable(_) =>
      }
      isLoading := false;
    }

    /** `login(email, password)`: signs in the mock owner for `email`. When
        the storage write fails the user is already set, the slot keeps its
        old content and the result is false. */
    method Login(email: string, password: string, storageWritable: bool) returns (ok: bool)
      modifies this
      ensures user == Some(MockUser(email))
      ensures !isLoading
      ensures ok == storageWritable
      ensures ok ==> stored == Some(Serialized(MockUser(email)))
      ensures !ok ==> stored == old(stored)
    {
      isLoading := true;
      user := Some(MockUser(email));
      if storageWritable {
        stored := Some(Serialized(MockUser(email)));
        ok := true;
      } else {
        ok := false;
      }
      isLoading := false;
    }

    /** `logout`: forgets the user and the stored session; the loading flag
        is untouched. */
    method Logout()
      modifies this
      ensures user == None && stored == None
      ensures isLoading == old(isLoading)
      ensures old(user) == None && old(stored) == None ==> unchanged(this)
    {
      user := None;
      stored := None;
    }

    /** The context's `hasPermission`: `CheckPermission` bound to the current user, so
        true only when the signed-in user holds the permission. */
    function HasPermission(permissionId: string): (r: bool)
      reads this
      ensures r == CheckPermission(user, permissionId)
      ensures user.None? ==> !r
    {
      CheckPermission(user, permissionId)
    }

    /** The context's `hasAnyPermission`: `CheckAnyPermission` bound to the current user, so
        true only when the signed-in user holds at least one of the permissions. */
    function HasAnyPermission(permissionIds: seq<string>): (r: bool)
      reads this
      ensures r == CheckAnyPermission(user, permissionIds)
      ensures user.None? ==> !r
    {
      CheckAnyPermission(user, permissionIds)
    }

    /** The context's `hasAllPermissions`: `CheckAllPermissions` bound to the current user, so
        true only when the signed-in user holds every one of the permissions. */
    function HasAllPermissions(permissionIds: seq<string>): (r: bool)
      reads this
      ensures r == CheckAllPermissions(user, permissionIds)
      ensures user.None? ==> !r
    {
      CheckAllPermissions(user, permissionIds)
    }
  }

  /** A restored stored session is the user that was logged in when it was
      written: login, then a fresh provider over the same slot, then the
      session check, gives back the same user. */
  method LoginThenRestore(email: string, password: string) returns (restored: Option<UserWithRole>)
    ensures restored == Some(MockUser(email))
  {
    var first := new AuthProvider(None);
    var ok := first.Login(email, password, true);
    var second := new AuthProvider(first.stored);
    second.CheckSession();
    restored := second.user;
  }
}
