/** The user-management permissions page: the catalog entries of the
    "users" and "roles" modules, a role-by-permission matrix of checkboxes
    built from the predefined roles, single-cell toggles and the save
    button. */
module UserManagement {
  import opened Options
  import opened Seqs
  import opened Rbac
  import ManagerIds

  // ---------------------------------------------------------------------
  // The permissions on the page
  // ---------------------------------------------------------------------

  /** The filter the page applies to the catalog. */
  predicate UserModule(p: Permission) {
    p.moduleName == "users" || p.moduleName == "roles"
  }

  /** `userPermissions`: the catalog entries of the two user modules. */
  function UserPermissions(catalog: seq<Permission>): (r: seq<Permission>)
    ensures forall p :: p in r <==> p in catalog && UserModule(p)
    ensures IsSubsequence(r, catalog)
  {
    FilterIsSubsequence(catalog, UserModule);
    Filter(catalog, UserModule)
  }

  /** Every entry of `ps` belongs to module `moduleName`. */
  predicate OneModule(ps: seq<Permission>, moduleName: string) {
    forall i :: 0 <= i < |ps| ==> ps[i].moduleName == moduleName
  }

  /** A group of one module is kept whole or dropped whole. */
  lemma {:induction false} UserModuleOfGroup(ps: seq<Permission>, groupModule: string)
    requires OneModule(ps, groupModule)
    ensures Filter(ps, UserModule) == OnlyIf(groupModule == "users" || groupModule == "roles", ps)
  {
    if groupModule == "users" || groupModule == "roles" {
      FilterKeepsAll(ps, UserModule);
    } else {
      FilterRejectsAll(ps, UserModule);
    }
  }

  lemma UserModuleProperties()
    ensures Filter(PropertiesPermissions, UserModule) == []
  {
    assert OneModule(PropertiesPermissions, "properties");
    UserModuleOfGroup(PropertiesPermissions, "properties");
  }

  lemma UserModuleRooms()
    ensures Filter(RoomsPermissions, UserModule) == []
  {
    assert OneModule(RoomsPermissions, "rooms");
    UserModuleOfGroup(RoomsPermissions, "rooms");
  }

  lemma UserModuleBookings()
    ensures Filter(BookingsPermissions, UserModule) == []
  {
    assert OneModule(BookingsPermissions, "bookings");
    UserModuleOfGroup(BookingsPermissions, "bookings");
  }

  lemma UserModuleGuests()
    ensures Filter(GuestsPermissions, UserModule) == []
  {
    assert OneModule(GuestsPermissions, "guests");
    UserModuleOfGroup(GuestsPermissions, "guests");
  }

  lemma UserModuleFinance()
    ensures Filter(FinancePermissions, UserModule) == []
  {
    assert OneModule(FinancePermissions, "finance");
    UserModuleOfGroup(FinancePermissions, "finance");
  }

  lemma UserModuleUsers()
    ensures Filter(UsersPermissions, UserModule) == UsersPermissions
  {
    assert OneModule(UsersPermissions, "users");
    UserModuleOfGroup(UsersPermissions, "users");
  }

  lemma UserModuleRoles()
    ensures Filter(RolesPermissions, UserModule) == RolesPermissions
  {
    assert OneModule(RolesPermissions, "roles");
    UserModuleOfGroup(RolesPermissions, "roles");
  }

  lemma UserModuleHead()
    ensures Filter(PropertiesPermissions, UserModule) + Filter(RoomsPermissions, UserModule) +
            Filter(BookingsPermissions, UserModule) + Filter(GuestsPermissions, UserModule) == []
  {
    UserModuleProperties(); UserModuleRooms(); UserModuleBookings(); UserModuleGuests();
  }

  lemma UserModuleTail()
    ensures Filter(FinancePermissions, UserModule) + Filter(UsersPermissions, UserModule) +
            Filter(RolesPermissions, UserModule) == UsersPermissions + RolesPermissions
  {
    UserModuleFinance(); UserModuleUsers(); UserModuleRoles();
    EmptyFront(Filter(FinancePermissions, UserModule), Filter(UsersPermissions, UserModule),
               Filter(RolesPermissions, UserModule));
  }

  lemma EmptyFront<T>(a: seq<T>, b: seq<T>, c: seq<T>)
    requires a == []
    ensures a + b + c == b + c
  {
  }

  /** On the catalog the page lists the users group followed by the roles
      group: six entries, in catalog order. */
  lemma CatalogUserPermissions()
    ensures UserPermissions(Permissions) == UsersPermissions + RolesPermissions
    ensures |UserPermissions(Permissions)| == 6
  {
    CatalogFilter(UserModule);
    UserModuleHead();
    UserModuleTail();
    AppendRegroup(
      Filter(PropertiesPermissions, UserModule), Filter(RoomsPermissions, UserModule),
      Filter(BookingsPermissions, UserModule), Filter(GuestsPermissions, UserModule),
      Filter(FinancePermissions, UserModule), Filter(UsersPermissions, UserModule),
      Filter(RolesPermissions, UserModule));
  }

  /** The ids of the page's rows, in order. */
  lemma CatalogUserPermissionIds()
    ensures Ids(UserPermissions(Permissions)) == UsersIds + RolesIds
  {
    CatalogUserPermissions();
    IdsAppend(UsersPermissions, RolesPermissions);
    Rbac.GroupIds();
  }

  // ---------------------------------------------------------------------
  // The matrix
  // ---------------------------------------------------------------------

  type Row = map<string, bool>
  type Matrix = map<string, Row>

  /** `matrix[role][permission]` read as a checkbox: a missing cell is
      unticked. */
  predicate Cell(row: Row, permissionId: string) {
    permissionId in row && row[permissionId]
  }

  /** One role's row: each listed id ticked exactly when the role holds it. */
  function RowOf(role: Role, ids: seq<string>): (r: Row)
    ensures forall id :: id in r <==> id in ids
    ensures forall id :: id in r ==> r[id] == (id in role.permissions)
  {
    map id | id in ids :: id in role.permissions
  }

  /** The matrix the page starts from: roles processed in order, a later
      role with the same id replacing an earlier row. */
  function MatrixOf(roles: seq<Role>, ids: seq<string>): (m: Matrix)
    ensures forall roleId :: roleId in m <==> exists r :: r in roles && r.id == roleId
  {
    if roles == [] then map[]
    else
      var before := MatrixOf(roles[..|roles| - 1], ids);
      var last := roles[|roles| - 1];
      assert forall r :: r in roles <==> r in roles[..|roles| - 1] || r == last;
      before[last.id := RowOf(last, ids)]
  }

  /** Role ids that do not repeat. */
  predicate DistinctRoleIds(roles: seq<Role>) {
    forall i, j :: 0 <= i < j < |roles| ==> roles[i].id != roles[j].id
  }

  /** With distinct role ids every role gets its own row. */
  lemma {:induction false} MatrixOfRow(roles: seq<Role>, ids: seq<string>, i: nat)
    requires DistinctRoleIds(roles)
    requires i < |roles|
    ensures roles[i].id in MatrixOf(roles, ids)
    ensures MatrixOf(roles, ids)[roles[i].id] == RowOf(roles[i], ids)
  {
    if i < |roles| - 1 {
      MatrixOfRow(roles[..|roles| - 1], ids, i);
    }
  }

  /** The matrix's cells: ticked exactly when the role holds the permission. */
  lemma MatrixCells(roles: seq<Role>, ids: seq<string>, i: nat, id: string)
    requires DistinctRoleIds(roles)
    requires i < |roles| && id in ids
    ensures id in MatrixOf(roles, ids)[roles[i].id]
    ensures Cell(MatrixOf(roles, ids)[roles[i].id], id) <==> id in roles[i].permissions
  {
    MatrixOfRow(roles, ids, i);
  }

  /** The nested loops that build the initial matrix. */
  method BuildMatrix(roles: seq<Role>, permissions: seq<Permission>) returns (matrix: Matrix)
    ensures matrix == MatrixOf(roles, Ids(permissions))
  {
    var ids := Ids(permissions);
    matrix := map[];
    var i := 0;
    while i < |roles|
      invariant 0 <= i <= |roles|
      invariant matrix == MatrixOf(roles[..i], ids)
    {
      var role := roles[i];
      var row: Row := map[];
      var j := 0;
      while j < |permissions|
        invariant 0 <= j <= |permissions|
        invariant row == RowOf(role, ids[..j])
      {
        RowOfStep(role, ids, j);
        row := row[permissions[j].id := permissions[j].id in role.permissions];
        j := j + 1;
      }
      assert ids[..|permissions|] == ids;
      assert roles[..i + 1][..i] == roles[..i];
      matrix := matrix[role.id := row];
      i := i + 1;
    }
    assert roles[..|roles|] == roles;
  }

  lemma RowOfStep(role: Role, ids: seq<string>, j: nat)
    requires j < |ids|
    ensures RowOf(role, ids[..j + 1]) == RowOf(role, ids[..j])[ids[j] := ids[j] in role.permissions]
  {
    assert ids[..j + 1] == ids[..j] + [ids[j]];
  }

  // ---------------------------------------------------------------------
  // Toggling a cell
  // ---------------------------------------------------------------------

  /** `togglePermission(roleId, permissionId)`: the cell is negated (a
      missing cell reads as unticked, so it becomes ticked). The role's row
      must exist: the page reads it before negating the cell. */
  function Toggle(m: Matrix, roleId: string, permissionId: string): (r: Matrix)
    requires roleId in m
    ensures r.Keys == m.Keys
    ensures r[roleId].Keys == m[roleId].Keys + {permissionId}
    ensures Cell(r[roleId], permissionId) == !Cell(m[roleId], permissionId)
    ensures forall id :: id in m[roleId] && id != permissionId ==> r[roleId][id] == m[roleId][id]
    ensures forall other :: other in m && other != roleId ==> r[other] == m[other]
  {
    m[roleId := m[roleId][permissionId := !Cell(m[roleId], permissionId)]]
  }

  /** Toggling an existing cell twice gives back the matrix. */
  lemma ToggleTwice(m: Matrix, roleId: string, permissionId: string)
    requires roleId in m && permissionId in m[roleId]
    ensures Toggle(Toggle(m, roleId, permissionId), roleId, permissionId) == m
  {
    var once := Toggle(m, roleId, permissionId);
    var twice := Toggle(once, roleId, permissionId);
    assert twice[roleId] == m[roleId];
  }

  /** Every row has exactly the listed ids. */
  predicate Shaped(m: Matrix, roleIds: set<string>, ids: seq<string>) {
    m.Keys == roleIds && forall roleId :: roleId in m ==> m[roleId].Keys == set id | id in ids
  }

  /** Toggling an existing cell keeps the shape of the matrix. */
  lemma ToggleKeepsShape(m: Matrix, roleIds: set<string>, ids: seq<string>, roleId: string, permissionId: string)
    requires Shaped(m, roleIds, ids)
    requires roleId in m && permissionId in ids
    ensures Shaped(Toggle(m, roleId, permissionId), roleIds, ids)
  {
  }

  /** The initial matrix has one row per role, each with the listed ids. */
  lemma MatrixOfShaped(roles: seq<Role>, ids: seq<string>)
    ensures Shaped(MatrixOf(roles, ids), set r | r in roles :: r.id, ids)
  {
    var m := MatrixOf(roles, ids);
    forall roleId | roleId in m
      ensures m[roleId].Keys == set id | id in ids
    {
      MatrixOfRowKeys(roles, ids, roleId);
    }
  }

  lemma {:induction false} MatrixOfRowKeys(roles: seq<Role>, ids: seq<string>, roleId: string)
    requires roleId in MatrixOf(roles, ids)
    ensures MatrixOf(roles, ids)[roleId].Keys == set id | id in ids
  {
    if roles[|roles| - 1].id != roleId {
      MatrixOfRowKeys(roles[..|roles| - 1], ids, roleId);
    }
  }

  // ---------------------------------------------------------------------
  // The page
  // ---------------------------------------------------------------------

  /** Where saving sends the browser. */
  const UsersPage := "/dashboard/users"

  class UserManagementPage {
    var permissionMatrix: Matrix
    var isLoading: bool

    /** The page as first shown: the matrix of the predefined roles over the
        user-module permissions. */
    constructor()
      ensures permissionMatrix == MatrixOf(PredefinedRoles, Ids(UserPermissions(Permissions)))
      ensures !isLoading
    {
      var matrix := BuildMatrix(PredefinedRoles, UserPermissions(Permissions));
      permissionMatrix := matrix;
      isLoading := false;
    }

    /** A checkbox of the matrix. */
    method TogglePermission(roleId: string, permissionId: string)
      requires roleId in permissionMatrix
      modifies this
      ensures permissionMatrix == Toggle(old(permissionMatrix), roleId, permissionId)
      ensures isLoading == old(isLoading)
    {
      var row := permissionMatrix[roleId];
      permissionMatrix := permissionMatrix[roleId := row[permissionId := !Cell(row, permissionId)]];
    }

    /** The save button: the matrix is left as it is, loading ends, and the
        browser goes to the users page. */
    method HandleSubmit() returns (redirect: string)
      modifies this
      ensures permissionMatrix == old(permissionMatrix)
      ensures !isLoading
      ensures redirect == UsersPage
    {
      isLoading := true;
      redirect := UsersPage;
      isLoading := false;
    }
  }

  // ---------------------------------------------------------------------
  // The predefined roles' rows
  // ---------------------------------------------------------------------

  /** The ids shown on the page. */
  const PageIds: seq<string> := UsersIds + RolesIds

  /** The owner may do everything on the page. */
  lemma OwnerRow(id: string)
    requires id in PageIds
    ensures id in OwnerRole.permissions
  {
    CatalogIdsDistinct();
  }

  /** The manager may do everything on the page except delete users and
      manage roles. */
  lemma ManagerRow(id: string)
    requires id in PageIds
    ensures id in ManagerRole.permissions <==> id != "users.delete" && id != "roles.manage"
  {
    ManagerMembership(id);
    OwnerRow(id);
    ManagerIds.ShortIdsKept();
  }

  /** The receptionist may do nothing on the page. */
  lemma ReceptionistRow(id: string)
    requires id in PageIds
    ensures id !in ReceptionistRole.permissions
  {
    RoleIdLists();
  }

  /** Nor may the accountant. */
  lemma AccountantRow(id: string)
    requires id in PageIds
    ensures id !in AccountantRole.permissions
  {
    RoleIdLists();
  }

  /** The page's starting matrix, cell by cell. */
  lemma InitialMatrix(id: string)
    requires id in PageIds
    ensures var m := MatrixOf(PredefinedRoles, Ids(UserPermissions(Permissions)));
            Cell(m["owner"], id) &&
            (Cell(m["manager"], id) <==> id != "users.delete" && id != "roles.manage") &&
            !Cell(m["receptionist"], id) && !Cell(m["accountant"], id)
  {
    CatalogUserPermissionIds();
    PredefinedRoleIds();
    MatrixCells(PredefinedRoles, PageIds, 0, id);
    MatrixCells(PredefinedRoles, PageIds, 1, id);
    MatrixCells(PredefinedRoles, PageIds, 2, id);
    MatrixCells(PredefinedRoles, PageIds, 3, id);
    OwnerRow(id);
    ManagerRow(id);
    ReceptionistRow(id);
    AccountantRow(id);
  }
}
