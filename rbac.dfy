/** Role-based access control: the permission catalog, the four predefined
    roles and the permission evaluator the whole dashboard consults. */
module Rbac {
  import opened Options
  import opened Seqs
  import Strings
  import ManagerIds

  /** One action that can be performed, e.g. `bookings.create`. The optional
      description of the source is not modelled. */
  datatype Permission = Permission(id: string, name: string, moduleName: string, action: string)

  /** A named collection of permission ids (timestamps are not modelled). */
  datatype Role = Role(id: string, name: string, description: string, permissions: seq<string>)

  /** A user together with the role object, which may be absent. */
  datatype UserWithRole = UserWithRole(
    id: string, name: string, email: string, roleId: string, role: Option<Role>, active: bool)

  // ---------------------------------------------------------------------
  // The evaluator
  // ---------------------------------------------------------------------

  /** The user holds `permissionId`; a user without a role holds nothing. */
  function HasPermission(user: UserWithRole, permissionId: string): (r: bool)
    ensures r <==> user.role.Some? && permissionId in user.role.value.permissions
  {
    if user.role.None? then false
    else Includes(user.role.value.permissions, permissionId)
  }

  /** The user holds at least one of `permissionIds` (never true for an
      empty list, never true without a role). */
  function HasAnyPermission(user: UserWithRole, permissionIds: seq<string>): (r: bool)
    ensures r <==> user.role.Some? &&
                   exists id :: id in permissionIds && id in user.role.value.permissions
  {
    if user.role.None? then false
    else
      var granted := user.role.value.permissions;
      Any(permissionIds, id => Includes(granted, id))
  }

  /** The user holds every one of `permissionIds`; without a role the answer
      is false even for the empty list. */
  function HasAllPermissions(user: UserWithRole, permissionIds: seq<string>): (r: bool)
    ensures r <==> user.role.Some? &&
                   forall id :: id in permissionIds ==> id in user.role.value.permissions
  {
    if user.role.None? then false
    else
      var granted := user.role.value.permissions;
      All(permissionIds, id => Includes(granted, id))
  }

  /** The test `getModulePermissions` filters with. */
  function InModule(moduleName: string): Permission -> bool {
    (p: Permission) => p.moduleName == moduleName
  }

  /** The permissions of one module, in catalog order. */
  function GetModulePermissions(permissions: seq<Permission>, moduleName: string): (r: seq<Permission>)
    ensures forall p :: p in r <==> p in permissions && p.moduleName == moduleName
    ensures IsSubsequence(r, permissions)
  {
    FilterIsSubsequence(permissions, InModule(moduleName));
    Filter(permissions, InModule(moduleName))
  }

  // ---------------------------------------------------------------------
  // Facts about the evaluator
  // ---------------------------------------------------------------------

  /** A user without a role is refused by all three checks, whatever is asked,
      the empty list included. */
  lemma NoRoleDeniesEverything(user: UserWithRole, id: string, ids: seq<string>)
    requires user.role.None?
    ensures !HasPermission(user, id) && !HasAnyPermission(user, ids) && !HasAllPermissions(user, ids)
  {
  }

  /** With a role, the empty list passes the "all" check and fails the "any" check. */
  lemma EmptyListWithRole(user: UserWithRole)
    requires user.role.Some?
    ensures HasAllPermissions(user, []) && !HasAnyPermission(user, [])
  {
  }

  /** The list checks agree with the single check on a one-element list. */
  lemma SingletonAgreement(user: UserWithRole, id: string)
    ensures HasAnyPermission(user, [id]) == HasPermission(user, id)
    ensures HasAllPermissions(user, [id]) == HasPermission(user, id)
  {
  }

  /** "All" of a non-empty list implies "any" of it. */
  lemma AllImpliesAny(user: UserWithRole, ids: seq<string>)
    requires ids != [] && HasAllPermissions(user, ids)
    ensures HasAnyPermission(user, ids)
  {
    assert ids[0] in ids;
  }

  /** The list checks split over concatenation; for "all" this needs a role,
      since without one even the empty halves fail. */
  lemma ListChecksAppend(user: UserWithRole, a: seq<string>, b: seq<string>)
    ensures HasAnyPermission(user, a + b) == (HasAnyPermission(user, a) || HasAnyPermission(user, b))
    ensures user.role.Some? ==>
              HasAllPermissions(user, a + b) == (HasAllPermissions(user, a) && HasAllPermissions(user, b))
  {
  }

  /** The list checks depend only on which ids are asked for: order and
      repetition do not matter. */
  lemma ListChecksDependOnMembers(user: UserWithRole, a: seq<string>, b: seq<string>)
    requires forall x :: x in a <==> x in b
    ensures HasAnyPermission(user, a) == HasAnyPermission(user, b)
    ensures HasAllPermissions(user, a) == HasAllPermissions(user, b)
  {
  }

  /** Giving a user a role that grants more never takes a permission away. */
  lemma RoleMonotone(user: UserWithRole, bigger: Role, ids: seq<string>)
    requires user.role.Some?
    requires forall id :: id in user.role.value.permissions ==> id in bigger.permissions
    ensures HasAnyPermission(user, ids) ==> HasAnyPermission(user.(role := Some(bigger)), ids)
    ensures HasAllPermissions(user, ids) ==> HasAllPermissions(user.(role := Some(bigger)), ids)
  {
  }

  // ---------------------------------------------------------------------
  // The catalog
  // ---------------------------------------------------------------------

  const PropertiesPermissions: seq<Permission> := [
    Permission("properties.view", "View Properties", "properties", "view"),
    Permission("properties.create", "Create Properties", "properties", "create"),
    Permission("properties.edit", "Edit Properties", "properties", "edit"),
    Permission("properties.delete", "Delete Properties", "properties", "delete")
  ]

  const RoomsPermissions: seq<Permission> := [
    Permission("rooms.view", "View Rooms", "rooms", "view"),
    Permission("rooms.create", "Create Rooms", "rooms", "create"),
    Permission("rooms.edit", "Edit Rooms", "rooms", "edit"),
    Permission("rooms.delete", "Delete Rooms", "rooms", "delete")
  ]

  const BookingsPermissions: seq<Permission> := [
    Permission("bookings.view", "View Bookings", "bookings", "view"),
    Permission("bookings.create", "Create Bookings", "bookings", "create"),
    Permission("bookings.edit", "Edit Bookings", "bookings", "edit"),
    Permission("bookings.delete", "Delete Bookings", "bookings", "delete"),
    Permission("bookings.checkin", "Check-in Guests", "bookings", "checkin"),
    Permission("bookings.checkout", "Check-out Guests", "bookings", "checkout")
  ]

  const GuestsPermissions: seq<Permission> := [
    Permission("guests.view", "View Guests", "guests", "view"),
    Permission("guests.create", "Create Guests", "guests", "create"),
    Permission("guests.edit", "Edit Guests", "guests", "edit"),
    Permission("guests.delete", "Delete Guests", "guests", "delete")
  ]

  const FinancePermissions: seq<Permission> := [
    Permission("finance.view", "View Financial Data", "finance", "view"),
    Permission("finance.manage", "Manage Payments", "finance", "manage"),
    Permission("finance.reports", "Generate Reports", "finance", "reports")
  ]

  const UsersPermissions: seq<Permission> := [
    Permission("users.view", "View Users", "users", "view"),
    Permission("users.create", "Create Users", "users", "create"),
    Permission("users.edit", "Edit Users", "users", "edit"),
    Permission("users.delete", "Delete Users", "users", "delete")
  ]

  const RolesPermissions: seq<Permission> := [
    Permission("roles.view", "View Roles", "roles", "view"),
    Permission("roles.manage", "Manage Roles", "roles", "manage")
  ]

  /** The application's 27 permissions, module by module. */
  const Permissions: seq<Permission> :=
    PropertiesPermissions + RoomsPermissions + BookingsPermissions + GuestsPermissions +
    FinancePermissions + UsersPermissions + RolesPermissions

  /** `permissions.map((p) => p.id)`. */
  function Ids(ps: seq<Permission>): (r: seq<string>)
    ensures |r| == |ps|
    ensures forall i :: 0 <= i < |ps| ==> r[i] == ps[i].id
  {
    seq(|ps|, i requires 0 <= i < |ps| => ps[i].id)
  }

  lemma {:induction false} IdsAppend(a: seq<Permission>, b: seq<Permission>)
    ensures Ids(a + b) == Ids(a) + Ids(b)
  {
  }

  /** Taking ids keeps the subsequence relation. */
  lemma {:induction false} IdsSubsequence(a: seq<Permission>, b: seq<Permission>)
    requires IsSubsequence(a, b)
    ensures IsSubsequence(Ids(a), Ids(b))
    decreases |b|
  {
    if a == [] {
    } else if a[0] == b[0] && IsSubsequence(a[1..], b[1..]) {
      IdsSubsequence(a[1..], b[1..]);
      assert Ids(a)[1..] == Ids(a[1..]) && Ids(b)[1..] == Ids(b[1..]);
    } else {
      IdsSubsequence(a, b[1..]);
      assert Ids(b)[1..] == Ids(b[1..]);
    }
  }

  /** Each module's ids, in catalog order. */
  const PropertiesIds: seq<string> :=
    ["properties.view", "properties.create", "properties.edit", "properties.delete"]
  const RoomsIds: seq<string> := ["rooms.view", "rooms.create", "rooms.edit", "rooms.delete"]
  const BookingsIds: seq<string> :=
    ["bookings.view", "bookings.create", "bookings.edit", "bookings.delete",
     "bookings.checkin", "bookings.checkout"]
  const GuestsIds: seq<string> := ["guests.view", "guests.create", "guests.edit", "guests.delete"]
  const FinanceIds: seq<string> := ["finance.view", "finance.manage", "finance.reports"]
  const UsersIds: seq<string> := ["users.view", "users.create", "users.edit", "users.delete"]
  const RolesIds: seq<string> := ["roles.view", "roles.manage"]

  /** The ids of the whole catalog, module by module. */
  const CatalogIdList: seq<string> :=
    PropertiesIds + RoomsIds + BookingsIds + GuestsIds + FinanceIds + UsersIds + RolesIds

  lemma GroupIds()
    ensures Ids(PropertiesPermissions) == PropertiesIds
    ensures Ids(RoomsPermissions) == RoomsIds
    ensures Ids(BookingsPermissions) == BookingsIds
    ensures Ids(GuestsPermissions) == GuestsIds
    ensures Ids(FinancePermissions) == FinanceIds
    ensures Ids(UsersPermissions) == UsersIds
    ensures Ids(RolesPermissions) == RolesIds
  {
  }

  /** The catalog ids are the module groups' ids one after the other. */
  lemma CatalogIds()
    ensures Ids(Permissions) ==
      Ids(PropertiesPermissions) + Ids(RoomsPermissions) + Ids(BookingsPermissions) +
      Ids(GuestsPermissions) + Ids(FinancePermissions) + Ids(UsersPermissions) + Ids(RolesPermissions)
  {
  }

  lemma CatalogIdListDistinct()
    ensures |CatalogIdList| == 27 && Distinct(CatalogIdList)
  {
  }

  /** The catalog has 27 entries, its ids are the ones listed above, and no
      id occurs twice. */
  lemma CatalogIdsDistinct()
    ensures |Permissions| == 27
    ensures Ids(Permissions) == CatalogIdList
    ensures Distinct(Ids(Permissions))
  {
    GroupIds();
    CatalogIds();
    CatalogIdListDistinct();
  }

  /** A catalog entry's id is its module, a dot and its action. */
  predicate WellFormed(p: Permission) {
    p.id == p.moduleName + "." + p.action
  }

  /** Every entry of `ps` is well formed and belongs to `moduleName`. */
  predicate GroupOf(ps: seq<Permission>, moduleName: string) {
    forall i :: 0 <= i < |ps| ==> WellFormed(ps[i]) && ps[i].moduleName == moduleName
  }

  lemma PropertiesGroup()
    ensures GroupOf(PropertiesPermissions, "properties")
  {
    assert WellFormed(PropertiesPermissions[0]);
    assert WellFormed(PropertiesPermissions[1]);
    assert WellFormed(PropertiesPermissions[2]);
    assert WellFormed(PropertiesPermissions[3]);
  }

  lemma RoomsGroup()
    ensures GroupOf(RoomsPermissions, "rooms")
  {
    assert WellFormed(RoomsPermissions[0]);
    assert WellFormed(RoomsPermissions[1]);
    assert WellFormed(RoomsPermissions[2]);
    assert WellFormed(RoomsPermissions[3]);
  }

  lemma BookingsGroup()
    ensures GroupOf(BookingsPermissions, "bookings")
  {
    assert WellFormed(BookingsPermissions[0]);
    assert WellFormed(BookingsPermissions[1]);
    assert WellFormed(BookingsPermissions[2]);
    assert WellFormed(BookingsPermissions[3]);
    assert WellFormed(BookingsPermissions[4]);
    assert WellFormed(BookingsPermissions[5]);
  }

  lemma GuestsGroup()
    ensures GroupOf(GuestsPermissions, "guests")
  {
    assert WellFormed(GuestsPermissions[0]);
    assert WellFormed(GuestsPermissions[1]);
    assert WellFormed(GuestsPermissions[2]);
    assert WellFormed(GuestsPermissions[3]);
  }

  lemma FinanceGroup()
    ensures GroupOf(FinancePermissions, "finance")
  {
    assert WellFormed(FinancePermissions[0]);
    assert WellFormed(FinancePermissions[1]);
    assert WellFormed(FinancePermissions[2]);
  }

  lemma UsersGroup()
    ensures GroupOf(UsersPermissions, "users")
  {
    assert WellFormed(UsersPermissions[0]);
    assert WellFormed(UsersPermissions[1]);
    assert WellFormed(UsersPermissions[2]);
    assert WellFormed(UsersPermissions[3]);
  }

  lemma RolesGroup()
    ensures GroupOf(RolesPermissions, "roles")
  {
    assert WellFormed(RolesPermissions[0]);
    assert WellFormed(RolesPermissions[1]);
  }

  /** Every catalog id is `module.action`. */
  lemma CatalogWellFormed()
    ensures forall i :: 0 <= i < |Permissions| ==> WellFormed(Permissions[i])
  {
    PropertiesGroup(); RoomsGroup(); BookingsGroup(); GuestsGroup();
    FinanceGroup(); UsersGroup(); RolesGroup();
  }

  // ---------------------------------------------------------------------
  // The predefined roles
  // ---------------------------------------------------------------------

  /** The catalog filtered through `keep`, one module group at a time. */
  lemma CatalogFilter(keep: Permission -> bool)
    ensures Filter(Permissions, keep) ==
      Filter(PropertiesPermissions, keep) + Filter(RoomsPermissions, keep) +
      Filter(BookingsPermissions, keep) + Filter(GuestsPermissions, keep) +
      Filter(FinancePermissions, keep) + Filter(UsersPermissions, keep) +
      Filter(RolesPermissions, keep)
  {
    var P, R, B, G := PropertiesPermissions, RoomsPermissions, BookingsPermissions, GuestsPermissions;
    var F, U, O := FinancePermissions, UsersPermissions, RolesPermissions;
    FilterAppend(P, R, keep);
    FilterAppend(P + R, B, keep);
    FilterAppend(P + R + B, G, keep);
    FilterAppend(P + R + B + G, F, keep);
    FilterAppend(P + R + B + G + F, U, keep);
    FilterAppend(P + R + B + G + F + U, O, keep);
  }


  predicate ManagerKeeps(p: Permission) {
    ManagerIds.Keeps(p.id)
  }

  /** Receptionist keeps the bookings and guests modules plus two view permissions. */
  predicate ReceptionistKeeps(p: Permission) {
    p.moduleName == "bookings" || p.moduleName == "guests" ||
    p.id == "rooms.view" || p.id == "properties.view"
  }

  /** Accountant keeps the finance module plus two view permissions. */
  predicate AccountantKeeps(p: Permission) {
    p.moduleName == "finance" || p.id == "bookings.view" || p.id == "guests.view"
  }

  const OwnerRole: Role :=
    Role("owner", "Owner", "Full access to all features and settings", Ids(Permissions))

  const ManagerRole: Role :=
    Role("manager", "Manager", "Can manage properties, bookings, and staff",
         Ids(Filter(Permissions, ManagerKeeps)))

  const ReceptionistRole: Role :=
    Role("receptionist", "Receptionist", "Can manage bookings and guests",
         Ids(Filter(Permissions, ReceptionistKeeps)))

  const AccountantRole: Role :=
    Role("accountant", "Accountant", "Can access financial data and reports",
         Ids(Filter(Permissions, AccountantKeeps)))

  const PredefinedRoles: seq<Role> := [OwnerRole, ManagerRole, ReceptionistRole, AccountantRole]

  /** Filtering permissions by a test on their ids and then taking ids is
      filtering the ids. */
  lemma {:induction false} IdsFilter(ps: seq<Permission>, f: Permission -> bool, k: string -> bool)
    requires forall p :: f(p) == k(p.id)
    ensures Ids(Filter(ps, f)) == Filter(Ids(ps), k)
  {
    if ps != [] {
      IdsFilter(ps[1..], f, k);
      assert Ids(ps) == [ps[0].id] + Ids(ps[1..]);
    }
  }

  /** The catalog ids filtered through `keep`, one module group at a time. */
  lemma CatalogIdFilter(keep: string -> bool)
    ensures Filter(CatalogIdList, keep) ==
      Filter(PropertiesIds, keep) + Filter(RoomsIds, keep) + Filter(BookingsIds, keep) +
      Filter(GuestsIds, keep) + Filter(FinanceIds, keep) + Filter(UsersIds, keep) +
      Filter(RolesIds, keep)
  {
    var P, R, B, G := PropertiesIds, RoomsIds, BookingsIds, GuestsIds;
    var F, U, O := FinanceIds, UsersIds, RolesIds;
    FilterAppend(P, R, keep);
    FilterAppend(P + R, B, keep);
    FilterAppend(P + R + B, G, keep);
    FilterAppend(P + R + B + G, F, keep);
    FilterAppend(P + R + B + G + F, U, keep);
    FilterAppend(P + R + B + G + F + U, O, keep);
  }

  lemma ManagerProperties()
    ensures Filter(PropertiesIds, ManagerIds.Keeps) == PropertiesIds[..3]
  {
    ManagerIds.KeepsPropertiesView();
    ManagerIds.KeepsPropertiesCreate();
    ManagerIds.KeepsPropertiesEdit();
    ManagerIds.DropsExcluded("properties.delete");
    FilterDropsLast(PropertiesIds, ManagerIds.Keeps);
  }

  lemma ManagerRooms()
    ensures Filter(RoomsIds, ManagerIds.Keeps) == RoomsIds
  {
    ManagerIds.ShortIdsKept();
    ManagerIds.KeepsRoomsCreate();
    ManagerIds.KeepsRoomsDelete();
    FilterKeepsAll(RoomsIds, ManagerIds.Keeps);
  }

  lemma ManagerBookings()
    ensures Filter(BookingsIds, ManagerIds.Keeps) == BookingsIds
  {
    ManagerIds.KeepsBookingsView();
    ManagerIds.KeepsBookingsCreate();
    ManagerIds.KeepsBookingsEdit();
    ManagerIds.KeepsBookingsDelete();
    ManagerIds.KeepsBookingsCheckin();
    ManagerIds.KeepsBookingsCheckout();
    FilterKeepsAll(BookingsIds, ManagerIds.Keeps);
  }

  lemma ManagerGuests()
    ensures Filter(GuestsIds, ManagerIds.Keeps) == GuestsIds
  {
    ManagerIds.ShortIdsKept();
    ManagerIds.KeepsGuestsCreate();
    ManagerIds.KeepsGuestsDelete();
    FilterKeepsAll(GuestsIds, ManagerIds.Keeps);
  }

  lemma ManagerFinance()
    ensures Filter(FinanceIds, ManagerIds.Keeps) == FinanceIds
  {
    ManagerIds.KeepsFinanceView();
    ManagerIds.KeepsFinanceManage();
    ManagerIds.KeepsFinanceReports();
    FilterKeepsAll(FinanceIds, ManagerIds.Keeps);
  }

  lemma ManagerUsers()
    ensures Filter(UsersIds, ManagerIds.Keeps) == UsersIds[..3]
  {
    ManagerIds.ShortIdsKept();
    ManagerIds.KeepsUsersCreate();
    ManagerIds.DropsExcluded("users.delete");
    FilterDropsLast(UsersIds, ManagerIds.Keeps);
  }

  lemma ManagerRoles()
    ensures Filter(RolesIds, ManagerIds.Keeps) == RolesIds[..1]
  {
    ManagerIds.ShortIdsKept();
    ManagerIds.DropsExcluded("roles.manage");
    FilterDropsLast(RolesIds, ManagerIds.Keeps);
  }

  /** Manager holds every catalog id except `properties.delete`,
      `users.delete` and `roles.manage`, in catalog order. */
  lemma ManagerPermissions()
    ensures ManagerRole.permissions ==
      PropertiesIds[..3] + RoomsIds + BookingsIds + GuestsIds + FinanceIds +
      UsersIds[..3] + RolesIds[..1]
    ensures |ManagerRole.permissions| == 24
  {
    IdsFilter(Permissions, ManagerKeeps, ManagerIds.Keeps);
    GroupIds();
    CatalogIds();
    CatalogIdFilter(ManagerIds.Keeps);
    ManagerProperties(); ManagerRooms(); ManagerBookings(); ManagerGuests();
    ManagerFinance(); ManagerUsers(); ManagerRoles();
  }

  /** The ids the catalog filtered through `keep` yields, one module group
      at a time. */
  lemma CatalogIdsOfFilter(keep: Permission -> bool)
    ensures Ids(Filter(Permissions, keep)) ==
      Ids(Filter(PropertiesPermissions, keep)) + Ids(Filter(RoomsPermissions, keep)) +
      Ids(Filter(BookingsPermissions, keep)) + Ids(Filter(GuestsPermissions, keep)) +
      Ids(Filter(FinancePermissions, keep)) + Ids(Filter(UsersPermissions, keep)) +
      Ids(Filter(RolesPermissions, keep))
  {
    var P, R, B, G := Filter(PropertiesPermissions, keep), Filter(RoomsPermissions, keep),
                      Filter(BookingsPermissions, keep), Filter(GuestsPermissions, keep);
    var F, U, O := Filter(FinancePermissions, keep), Filter(UsersPermissions, keep),
                   Filter(RolesPermissions, keep);
    CatalogFilter(keep);
    IdsAppend(P + R + B + G + F + U, O);
    IdsAppend(P + R + B + G + F, U);
    IdsAppend(P + R + B + G, F);
    IdsAppend(P + R + B, G);
    IdsAppend(P + R, B);
    IdsAppend(P, R);
  }

  /** Taking ids commutes with taking a prefix. */
  lemma IdsPrefix(ps: seq<Permission>, n: nat)
    requires n <= |ps|
    ensures Ids(ps[..n]) == Ids(ps)[..n]
  {
  }

  lemma ReceptionistProperties()
    ensures Ids(Filter(PropertiesPermissions, ReceptionistKeeps)) == Ids(PropertiesPermissions)[..1]
  {
    FilterKeepsFirst(PropertiesPermissions, ReceptionistKeeps);
    IdsPrefix(PropertiesPermissions, 1);
  }

  lemma ReceptionistRooms()
    ensures Ids(Filter(RoomsPermissions, ReceptionistKeeps)) == Ids(RoomsPermissions)[..1]
  {
    FilterKeepsFirst(RoomsPermissions, ReceptionistKeeps);
    IdsPrefix(RoomsPermissions, 1);
  }

  lemma ReceptionistBookings()
    ensures Ids(Filter(BookingsPermissions, ReceptionistKeeps)) == Ids(BookingsPermissions)
  {
    FilterKeepsAll(BookingsPermissions, ReceptionistKeeps);
  }

  lemma ReceptionistGuests()
    ensures Ids(Filter(GuestsPermissions, ReceptionistKeeps)) == Ids(GuestsPermissions)
  {
    FilterKeepsAll(GuestsPermissions, ReceptionistKeeps);
  }

  lemma ReceptionistFinance()
    ensures Ids(Filter(FinancePermissions, ReceptionistKeeps)) == []
  {
    FilterRejectsAll(FinancePermissions, ReceptionistKeeps);
  }

  lemma ReceptionistUsers()
    ensures Ids(Filter(UsersPermissions, ReceptionistKeeps)) == []
  {
    FilterRejectsAll(UsersPermissions, ReceptionistKeeps);
  }

  lemma ReceptionistRoles()
    ensures Ids(Filter(RolesPermissions, ReceptionistKeeps)) == []
  {
    FilterRejectsAll(RolesPermissions, ReceptionistKeeps);
  }

  lemma AccountantProperties()
    ensures Ids(Filter(PropertiesPermissions, AccountantKeeps)) == []
  {
    FilterRejectsAll(PropertiesPermissions, AccountantKeeps);
  }

  lemma AccountantRooms()
    ensures Ids(Filter(RoomsPermissions, AccountantKeeps)) == []
  {
    FilterRejectsAll(RoomsPermissions, AccountantKeeps);
  }

  lemma AccountantBookings()
    ensures Ids(Filter(BookingsPermissions, AccountantKeeps)) == Ids(BookingsPermissions)[..1]
  {
    FilterKeepsFirst(BookingsPermissions, AccountantKeeps);
    IdsPrefix(BookingsPermissions, 1);
  }

  lemma AccountantGuests()
    ensures Ids(Filter(GuestsPermissions, AccountantKeeps)) == Ids(GuestsPermissions)[..1]
  {
    FilterKeepsFirst(GuestsPermissions, AccountantKeeps);
    IdsPrefix(GuestsPermissions, 1);
  }

  lemma AccountantFinance()
    ensures Ids(Filter(FinancePermissions, AccountantKeeps)) == Ids(FinancePermissions)
  {
    FilterKeepsAll(FinancePermissions, AccountantKeeps);
  }

  lemma AccountantUsers()
    ensures Ids(Filter(UsersPermissions, AccountantKeeps)) == []
  {
    FilterRejectsAll(UsersPermissions, AccountantKeeps);
  }

  lemma AccountantRoles()
    ensures Ids(Filter(RolesPermissions, AccountantKeeps)) == []
  {
    FilterRejectsAll(RolesPermissions, AccountantKeeps);
  }

  lemma ReceptionistHead()
    ensures Ids(Filter(PropertiesPermissions, ReceptionistKeeps)) + Ids(Filter(RoomsPermissions, ReceptionistKeeps)) +
            Ids(Filter(BookingsPermissions, ReceptionistKeeps)) + Ids(Filter(GuestsPermissions, ReceptionistKeeps)) ==
      Ids(PropertiesPermissions)[..1] + Ids(RoomsPermissions)[..1] +
      Ids(BookingsPermissions) + Ids(GuestsPermissions)
  {
    ReceptionistProperties(); ReceptionistRooms(); ReceptionistBookings(); ReceptionistGuests();
  }

  lemma ReceptionistTail()
    ensures Ids(Filter(FinancePermissions, ReceptionistKeeps)) +
            Ids(Filter(UsersPermissions, ReceptionistKeeps)) + Ids(Filter(RolesPermissions, ReceptionistKeeps)) == []
  {
    ReceptionistFinance(); ReceptionistUsers(); ReceptionistRoles();
  }

  /** Receptionist holds `properties.view`, `rooms.view` and the whole
      bookings and guests modules, in catalog order. */
  lemma ReceptionistPermissions()
    ensures ReceptionistRole.permissions ==
      Ids(PropertiesPermissions)[..1] + Ids(RoomsPermissions)[..1] +
      Ids(BookingsPermissions) + Ids(GuestsPermissions)
  {
    var keep := ReceptionistKeeps;
    CatalogIdsOfFilter(keep);
    ReceptionistHead();
    ReceptionistTail();
    AppendRegroup(
      Ids(Filter(PropertiesPermissions, keep)), Ids(Filter(RoomsPermissions, keep)),
      Ids(Filter(BookingsPermissions, keep)), Ids(Filter(GuestsPermissions, keep)),
      Ids(Filter(FinancePermissions, keep)), Ids(Filter(UsersPermissions, keep)),
      Ids(Filter(RolesPermissions, keep)));
  }

  lemma AccountantHead()
    ensures Ids(Filter(PropertiesPermissions, AccountantKeeps)) + Ids(Filter(RoomsPermissions, AccountantKeeps)) +
            Ids(Filter(BookingsPermissions, AccountantKeeps)) + Ids(Filter(GuestsPermissions, AccountantKeeps)) ==
      Ids(BookingsPermissions)[..1] + Ids(GuestsPermissions)[..1]
  {
    AccountantProperties(); AccountantRooms(); AccountantBookings(); AccountantGuests();
  }

  lemma AccountantTail()
    ensures Ids(Filter(FinancePermissions, AccountantKeeps)) +
            Ids(Filter(UsersPermissions, AccountantKeeps)) + Ids(Filter(RolesPermissions, AccountantKeeps)) == Ids(FinancePermissions)
  {
    AccountantFinance(); AccountantUsers(); AccountantRoles();
  }

  /** Accountant holds `bookings.view`, `guests.view` and the whole finance
      module, in catalog order. */
  lemma AccountantPermissions()
    ensures AccountantRole.permissions ==
      Ids(BookingsPermissions)[..1] + Ids(GuestsPermissions)[..1] + Ids(FinancePermissions)
  {
    var keep := AccountantKeeps;
    CatalogIdsOfFilter(keep);
    AccountantHead();
    AccountantTail();
    AppendRegroup(
      Ids(Filter(PropertiesPermissions, keep)), Ids(Filter(RoomsPermissions, keep)),
      Ids(Filter(BookingsPermissions, keep)), Ids(Filter(GuestsPermissions, keep)),
      Ids(Filter(FinancePermissions, keep)), Ids(Filter(UsersPermissions, keep)),
      Ids(Filter(RolesPermissions, keep)));
  }

  /** The three derived roles, with the ids written out. */
  lemma RoleIdLists()
    ensures ReceptionistRole.permissions ==
      ["properties.view", "rooms.view"] + BookingsIds + GuestsIds
    ensures AccountantRole.permissions == ["bookings.view", "guests.view"] + FinanceIds
    ensures |ReceptionistRole.permissions| == 12 && |AccountantRole.permissions| == 5
  {
    ReceptionistPermissions();
    AccountantPermissions();
    GroupIds();
  }

  /** Manager holds exactly the catalog ids that contain none of the three
      excluded ids, and none of those three. */
  lemma ManagerMembership(id: string)
    ensures id in ManagerRole.permissions <==> id in OwnerRole.permissions && ManagerIds.Keeps(id)
    ensures id !in ManagerRole.permissions
              <== id in ["users.delete", "roles.manage", "properties.delete"]
  {
    IdsFilter(Permissions, ManagerKeeps, ManagerIds.Keeps);
    if id in ["users.delete", "roles.manage", "properties.delete"] {
      ManagerIds.DropsExcluded(id);
    }
  }

  /** Every predefined role holds a subsequence of Owner's ids, so no role
      grants anything outside the catalog, and no role lists an id twice. */
  lemma RolesWithinOwner(keep: Permission -> bool)
    ensures IsSubsequence(Ids(Filter(Permissions, keep)), OwnerRole.permissions)
    ensures Distinct(Ids(Filter(Permissions, keep)))
  {
    FilterIsSubsequence(Permissions, keep);
    IdsSubsequence(Filter(Permissions, keep), Permissions);
    CatalogIdsDistinct();
    SubsequenceDistinct(Ids(Filter(Permissions, keep)), OwnerRole.permissions);
  }

  lemma PredefinedRolesWithinOwner()
    ensures forall i :: 0 <= i < |PredefinedRoles| ==>
              IsSubsequence(PredefinedRoles[i].permissions, OwnerRole.permissions) &&
              Distinct(PredefinedRoles[i].permissions)
  {
    CatalogIdsDistinct();
    IsSubsequenceReflexive(OwnerRole.permissions);
    RolesWithinOwner(ManagerKeeps);
    RolesWithinOwner(ReceptionistKeeps);
    RolesWithinOwner(AccountantKeeps);
  }

  /** The predefined roles have distinct ids. */
  lemma PredefinedRoleIds()
    ensures forall i, j :: 0 <= i < j < |PredefinedRoles| ==> PredefinedRoles[i].id != PredefinedRoles[j].id
  {
  }

  // ---------------------------------------------------------------------
  // Module lookups on the catalog
  // ---------------------------------------------------------------------

  /** `ps` when `b` holds, nothing otherwise. */
  function OnlyIf(b: bool, ps: seq<Permission>): seq<Permission> {
    if b then ps else []
  }

  /** Filtering a group of one module by module name keeps all of it or none. */
  lemma {:induction false} ModuleOfGroup(ps: seq<Permission>, groupModule: string, moduleName: string)
    requires GroupOf(ps, groupModule)
    ensures Filter(ps, InModule(moduleName)) == OnlyIf(groupModule == moduleName, ps)
  {
    if groupModule == moduleName {
      FilterKeepsAll(ps, InModule(moduleName));
    } else {
      FilterRejectsAll(ps, InModule(moduleName));
    }
  }

  lemma PropertiesLookup(m: string)
    ensures Filter(PropertiesPermissions, InModule(m)) == OnlyIf(m == "properties", PropertiesPermissions)
  {
    PropertiesGroup();
    ModuleOfGroup(PropertiesPermissions, "properties", m);
  }

  lemma RoomsLookup(m: string)
    ensures Filter(RoomsPermissions, InModule(m)) == OnlyIf(m == "rooms", RoomsPermissions)
  {
    RoomsGroup();
    ModuleOfGroup(RoomsPermissions, "rooms", m);
  }

  lemma BookingsLookup(m: string)
    ensures Filter(BookingsPermissions, InModule(m)) == OnlyIf(m == "bookings", BookingsPermissions)
  {
    BookingsGroup();
    ModuleOfGroup(BookingsPermissions, "bookings", m);
  }

  lemma GuestsLookup(m: string)
    ensures Filter(GuestsPermissions, InModule(m)) == OnlyIf(m == "guests", GuestsPermissions)
  {
    GuestsGroup();
    ModuleOfGroup(GuestsPermissions, "guests", m);
  }

  lemma FinanceLookup(m: string)
    ensures Filter(FinancePermissions, InModule(m)) == OnlyIf(m == "finance", FinancePermissions)
  {
    FinanceGroup();
    ModuleOfGroup(FinancePermissions, "finance", m);
  }

  lemma UsersLookup(m: string)
    ensures Filter(UsersPermissions, InModule(m)) == OnlyIf(m == "users", UsersPermissions)
  {
    UsersGroup();
    ModuleOfGroup(UsersPermissions, "users", m);
  }

  lemma RolesLookup(m: string)
    ensures Filter(RolesPermissions, InModule(m)) == OnlyIf(m == "roles", RolesPermissions)
  {
    RolesGroup();
    ModuleOfGroup(RolesPermissions, "roles", m);
  }

  lemma ModuleLookupHead(m: string)
    ensures Filter(PropertiesPermissions, InModule(m)) + Filter(RoomsPermissions, InModule(m)) +
            Filter(BookingsPermissions, InModule(m)) + Filter(GuestsPermissions, InModule(m)) ==
            OnlyIf(m == "properties", PropertiesPermissions) + OnlyIf(m == "rooms", RoomsPermissions) +
            OnlyIf(m == "bookings", BookingsPermissions) + OnlyIf(m == "guests", GuestsPermissions)
  {
    PropertiesLookup(m); RoomsLookup(m); BookingsLookup(m); GuestsLookup(m);
  }

  lemma ModuleLookupTail(m: string)
    ensures Filter(FinancePermissions, InModule(m)) + Filter(UsersPermissions, InModule(m)) +
            Filter(RolesPermissions, InModule(m)) ==
            OnlyIf(m == "finance", FinancePermissions) + OnlyIf(m == "users", UsersPermissions) +
            OnlyIf(m == "roles", RolesPermissions)
  {
    FinanceLookup(m); UsersLookup(m); RolesLookup(m);
  }

  /** On the catalog, `getModulePermissions(m)` is the group of module `m`,
      and nothing for a name that is not a module. */
  lemma CatalogModuleLookup(m: string)
    ensures GetModulePermissions(Permissions, m) ==
      OnlyIf(m == "properties", PropertiesPermissions) + OnlyIf(m == "rooms", RoomsPermissions) +
      OnlyIf(m == "bookings", BookingsPermissions) + OnlyIf(m == "guests", GuestsPermissions) +
      OnlyIf(m == "finance", FinancePermissions) + OnlyIf(m == "users", UsersPermissions) +
      OnlyIf(m == "roles", RolesPermissions)
  {
    var keep := InModule(m);
    CatalogFilter(keep);
    ModuleLookupHead(m);
    ModuleLookupTail(m);
    AppendRegroup(
      Filter(PropertiesPermissions, keep), Filter(RoomsPermissions, keep),
      Filter(BookingsPermissions, keep), Filter(GuestsPermissions, keep),
      Filter(FinancePermissions, keep), Filter(UsersPermissions, keep),
      Filter(RolesPermissions, keep));
    AppendRegroup(
      OnlyIf(m == "properties", PropertiesPermissions), OnlyIf(m == "rooms", RoomsPermissions),
      OnlyIf(m == "bookings", BookingsPermissions), OnlyIf(m == "guests", GuestsPermissions),
      OnlyIf(m == "finance", FinancePermissions), OnlyIf(m == "users", UsersPermissions),
      OnlyIf(m == "roles", RolesPermissions));
  }

  /** A name that is not one of the seven modules has no permissions. */
  lemma UnknownModuleLookup(m: string)
    requires m !in ["properties", "rooms", "bookings", "guests", "finance", "users", "roles"]
    ensures GetModulePermissions(Permissions, m) == []
  {
    CatalogModuleLookup(m);
  }
}
