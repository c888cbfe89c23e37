/** The "Create New Role" form: the permission groups shown as checkboxes,
    the permission record behind them, the group select-all / deselect-all
    helper, the all/some selection tests, the form's validation and the list
    of granted ids handed over on submit. */
module CreateRole {
  import opened Options
  import opened Seqs
  import Rbac
  import Strings

  // ---------------------------------------------------------------------
  // The groups shown on the form
  // ---------------------------------------------------------------------

  datatype GroupPermission = GroupPermission(id: string, labelText: string)
  datatype PermissionGroup = PermissionGroup(name: string, description: string, permissions: seq<GroupPermission>)

  /** The ids of one group, in display order. */
  function GroupIds(g: PermissionGroup): (r: seq<string>)
    ensures |r| == |g.permissions|
    ensures forall i :: 0 <= i < |r| ==> r[i] == g.permissions[i].id
  {
    seq(|g.permissions|, i requires 0 <= i < |g.permissions| => g.permissions[i].id)
  }

  const PropertiesGroup := PermissionGroup("Properties", "Manage hotel properties and settings", [
    GroupPermission("properties.view", "View Properties"),
    GroupPermission("properties.create", "Create Properties"),
    GroupPermission("properties.edit", "Edit Properties"),
    GroupPermission("properties.delete", "Delete Properties")])

  const RoomsGroup := PermissionGroup("Rooms", "Manage rooms and room types", [
    GroupPermission("rooms.view", "View Rooms"),
    GroupPermission("rooms.create", "Create Rooms"),
    GroupPermission("rooms.edit", "Edit Rooms"),
    GroupPermission("rooms.delete", "Delete Rooms")])

  const BookingsGroup := PermissionGroup("Bookings", "Manage reservations and guest stays", [
    GroupPermission("bookings.view", "View Bookings"),
    GroupPermission("bookings.create", "Create Bookings"),
    GroupPermission("bookings.edit", "Edit Bookings"),
    GroupPermission("bookings.delete", "Delete Bookings"),
    GroupPermission("bookings.checkin", "Check-in Guests"),
    GroupPermission("bookings.checkout", "Check-out Guests")])

  const GuestsGroup := PermissionGroup("Guests", "Manage guest information", [
    GroupPermission("guests.view", "View Guests"),
    GroupPermission("guests.create", "Create Guests"),
    GroupPermission("guests.edit", "Edit Guests"),
    GroupPermission("guests.delete", "Delete Guests")])

  const FinanceGroup := PermissionGroup("Finance", "Manage financial data and reports", [
    GroupPermission("finance.view", "View Financial Data"),
    GroupPermission("finance.manage", "Manage Payments"),
    GroupPermission("finance.reports", "Generate Reports")])

  /** The form's "Users" group also holds the two role permissions. */
  const UsersGroup := PermissionGroup("Users", "Manage system users and roles", [
    GroupPermission("users.view", "View Users"),
    GroupPermission("users.create", "Create Users"),
    GroupPermission("users.edit", "Edit Users"),
    GroupPermission("users.delete", "Delete Users"),
    GroupPermission("roles.view", "View Roles"),
    GroupPermission("roles.manage", "Manage Roles")])

  const PermissionGroups: seq<PermissionGroup> :=
    [PropertiesGroup, RoomsGroup, BookingsGroup, GuestsGroup, FinanceGroup, UsersGroup]

  /** `flatMap` of the groups' ids, group after group. */
  function FlatIds(groups: seq<PermissionGroup>): (r: seq<string>)
    ensures forall id :: id in r <==> exists g :: g in groups && id in GroupIds(g)
  {
    if groups == [] then []
    else
      var rest := FlatIds(groups[1..]);
      assert forall g :: g in groups <==> g == groups[0] || g in groups[1..];
      GroupIds(groups[0]) + rest
  }

  /** `allPermissions`: the flat list of every id on the form. */
  const AllPermissions: seq<string> := FlatIds(PermissionGroups)

  /** `permissionGroups.find((g) => g.name === name)`. */
  function FindGroup(name: string): (r: Option<PermissionGroup>)
    ensures r.None? <==> forall g :: g in PermissionGroups ==> g.name != name
    ensures r.Some? ==> r.value in PermissionGroups && r.value.name == name
  {
    Find(PermissionGroups, (g: PermissionGroup) => g.name == name)
  }

  // ---------------------------------------------------------------------
  // The permission record
  // ---------------------------------------------------------------------

  /** `permissions[id]` read as a condition: a missing key is unticked. */
  predicate Checked(permissions: map<string, bool>, id: string) {
    id in permissions && permissions[id]
  }

  /** The default record: every id of the flat list present and unticked. */
  function DefaultPermissions(ids: seq<string>): (r: map<string, bool>)
    ensures forall id :: id in r <==> id in ids
    ensures forall id :: !Checked(r, id)
  {
    map id | id in ids :: false
  }

  /** The record after `record[id] = value` for every id of `ids`. */
  function SetAll(permissions: map<string, bool>, ids: seq<string>, value: bool): (r: map<string, bool>)
    ensures forall id :: id in r <==> id in permissions || id in ids
    ensures forall id :: id in r ==> r[id] == if id in ids then value else permissions[id]
  {
    map id | id in permissions.Keys + (set x | x in ids) :: if id in ids then value else permissions[id]
  }

  /** The ids sent with the new role: the ticked keys, in record order. The
      record's keys are those of the default record, so its order is the
      flat list's. */
  function Granted(permissions: map<string, bool>): (r: seq<string>)
    ensures IsSubsequence(r, AllPermissions)
    ensures forall id :: id in r <==> id in AllPermissions && Checked(permissions, id)
  {
    FilterIsSubsequence(AllPermissions, id => Checked(permissions, id));
    Filter(AllPermissions, id => Checked(permissions, id))
  }

  // ---------------------------------------------------------------------
  // Validation
  // ---------------------------------------------------------------------

  /** The form schema: a name of at least 2 characters, a description of at
      least 10 (both counted in UTF-16 code units), and at least one value
      of the record that is `true`. */
  predicate Valid(name: string, description: string, permissions: map<string, bool>) {
    Strings.JsLength(name) >= 2 && Strings.JsLength(description) >= 10 && exists id | id in permissions :: permissions[id]
  }

  /** An untouched form is refused whatever is typed in the text fields. */
  lemma DefaultsInvalid(name: string, description: string)
    ensures !Valid(name, description, DefaultPermissions(AllPermissions))
  {
  }

  /** On a record shaped like the default one, a valid form grants at least
      one permission, and only permissions of the flat list. */
  lemma ValidGrantsSomething(name: string, description: string, permissions: map<string, bool>)
    requires forall id :: id in permissions ==> id in AllPermissions
    requires Valid(name, description, permissions)
    ensures Granted(permissions) != []
  {
    var id :| id in permissions && permissions[id];
    assert Checked(permissions, id);
    assert id in Granted(permissions);
  }

  // ---------------------------------------------------------------------
  // The form
  // ---------------------------------------------------------------------

  /** The role handed over on submit: name, description, granted ids. */
  datatype RoleDraft = RoleDraft(name: string, description: string, permissions: seq<string>)

  /** Where a successful submit sends the browser. */
  const UsersPage := "/dashboard/users"

  class CreateRoleForm {
    var name: string
    var description: string
    var permissions: map<string, bool>
    var isSubmitting: bool

    /** The record always has exactly the keys of the default record. */
    predicate Shaped()
      reads this
    {
      permissions.Keys == set id | id in AllPermissions
    }

    /** The form as first shown. */
    constructor()
      ensures name == "" && description == "" && !isSubmitting
      ensures permissions == DefaultPermissions(AllPermissions)
      ensures Shaped()
    {
      name := "";
      description := "";
      permissions := DefaultPermissions(AllPermissions);
      isSubmitting := false;
    }

    /** One permission's own checkbox. */
    method SetPermission(id: string, checked: bool)
      modifies this
      ensures permissions == old(permissions)[id := checked]
      ensures name == old(name) && description == old(description) && isSubmitting == old(isSubmitting)
      ensures old(Shaped()) && id in AllPermissions ==> Shaped()
    {
      permissions := permissions[id := checked];
    }

    /** A group's "Select All" checkbox: every permission of the named group
        is set to `checked` and nothing else changes; an unknown group leaves
        the record as it is. */
    method ToggleGroupPermissions(groupName: string, checked: bool)
      modifies this
      ensures FindGroup(groupName).None? ==> permissions == old(permissions)
      ensures FindGroup(groupName).Some? ==>
                permissions == SetAll(old(permissions), GroupIds(FindGroup(groupName).value), checked)
      ensures name == old(name) && description == old(description) && isSubmitting == old(isSubmitting)
    {
      var group := FindGroup(groupName);
      if group.None? {
        return;
      }
      var ids := GroupIds(group.value);
      var updated := permissions;
      var i := 0;
      while i < |ids|
        invariant 0 <= i <= |ids|
        invariant unchanged(this)
        invariant updated == SetAll(permissions, ids[..i], checked)
      {
        SetAllStep(permissions, ids, i, checked);
        updated := updated[ids[i] := checked];
        i := i + 1;
      }
      assert ids[..|ids|] == ids;
      permissions := updated;
    }

    /** `areAllGroupPermissionsSelected`. */
    function AreAllGroupPermissionsSelected(groupName: string): (r: bool)
      reads this
      ensures r <==> FindGroup(groupName).Some? &&
                     forall id :: id in GroupIds(FindGroup(groupName).value) ==> Checked(permissions, id)
    {
      var group := FindGroup(groupName);
      var record := permissions;
      if group.None? then false
      else All(GroupIds(group.value), (id: string) => Checked(record, id))
    }

    /** `areSomeGroupPermissionsSelected`. */
    function AreSomeGroupPermissionsSelected(groupName: string): (r: bool)
      reads this
      ensures r <==> FindGroup(groupName).Some? &&
                     exists id :: id in GroupIds(FindGroup(groupName).value) && Checked(permissions, id)
    {
      var group := FindGroup(groupName);
      var record := permissions;
      if group.None? then false
      else Any(GroupIds(group.value), (id: string) => Checked(record, id))
    }

    /** The submit button (disabled while a submit is under way): on a valid
        form the handler hands over the draft with the granted ids and
        redirects to the users page, ending with `isSubmitting` false; an
        invalid form or a disabled button does nothing. */
    method Submit() returns (draft: Option<RoleDraft>, redirect: Option<string>)
      modifies this
      ensures draft.Some? <==> !old(isSubmitting) && Valid(name, description, permissions)
      ensures draft.Some? ==> draft.value == RoleDraft(name, description, Granted(permissions))
      ensures redirect.Some? <==> draft.Some?
      ensures redirect.Some? ==> redirect.value == UsersPage
      ensures draft.Some? ==> !isSubmitting
      ensures draft.None? ==> isSubmitting == old(isSubmitting)
      ensures name == old(name) && description == old(description) && permissions == old(permissions)
    {
      if isSubmitting || !Valid(name, description, permissions) {
        return None, None;
      }
      isSubmitting := true;
      draft := Some(RoleDraft(name, description, Granted(permissions)));
      redirect := Some(UsersPage);
      isSubmitting := false;
    }
  }

  /** One more round of the group loop is one more map update. */
  lemma SetAllStep(permissions: map<string, bool>, ids: seq<string>, i: nat, value: bool)
    requires i < |ids|
    ensures SetAll(permissions, ids[..i + 1], value) == SetAll(permissions, ids[..i], value)[ids[i] := value]
  {
    assert ids[..i + 1] == ids[..i] + [ids[i]];
  }

  // ---------------------------------------------------------------------
  // Facts about the form
  // ---------------------------------------------------------------------

  /** Toggling a group is idempotent, and toggling it back and forth is the
      last toggle alone. */
  lemma ToggleIdempotent(permissions: map<string, bool>, ids: seq<string>, a: bool, b: bool)
    ensures SetAll(SetAll(permissions, ids, a), ids, b) == SetAll(permissions, ids, b)
  {
  }

  /** Overwriting ids the record already has keeps its keys. */
  lemma ToggleKeepsShape(permissions: map<string, bool>, ids: seq<string>, value: bool)
    requires forall id :: id in ids ==> id in permissions
    ensures SetAll(permissions, ids, value).Keys == permissions.Keys
  {
  }

  /** Every group on the form has permissions, and their ids are in the
      flat list. */
  lemma GroupsWithinFlatList()
    ensures forall g :: g in PermissionGroups ==> g.permissions != []
    ensures forall g, id :: g in PermissionGroups && id in GroupIds(g) ==> id in AllPermissions
  {
  }

  /** After ticking a known group its all-test (and so its some-test)
      holds; after unticking it, its some-test fails. */
  lemma ToggleThenTest(permissions: map<string, bool>, g: PermissionGroup, checked: bool)
    requires g in PermissionGroups
    ensures var after := SetAll(permissions, GroupIds(g), checked);
            (checked <==> forall id :: id in GroupIds(g) ==> Checked(after, id)) &&
            (checked <==> exists id :: id in GroupIds(g) && Checked(after, id))
  {
    GroupsWithinFlatList();
    assert GroupIds(g)[0] in GroupIds(g);
  }

  /** A group name is known exactly when it is one of the six headings. */
  lemma KnownGroups(name: string)
    ensures FindGroup(name).Some? <==>
              name in ["Properties", "Rooms", "Bookings", "Guests", "Finance", "Users"]
  {
    assert PermissionGroups[0].name == "Properties" && PermissionGroups[5].name == "Users";
  }

  /** The form's flat list is the catalog, id for id and in catalog order,
      so it has 27 distinct ids. */
  lemma AllPermissionsAreCatalog()
    ensures AllPermissions == Rbac.CatalogIdList
    ensures Distinct(AllPermissions)
  {
    FlatSix(PropertiesGroup, RoomsGroup, BookingsGroup, GuestsGroup, FinanceGroup, UsersGroup);
    assert GroupIds(PropertiesGroup) == Rbac.PropertiesIds;
    assert GroupIds(RoomsGroup) == Rbac.RoomsIds;
    assert GroupIds(BookingsGroup) == Rbac.BookingsIds;
    assert GroupIds(GuestsGroup) == Rbac.GuestsIds;
    assert GroupIds(FinanceGroup) == Rbac.FinanceIds;
    assert GroupIds(UsersGroup) == Rbac.UsersIds + Rbac.RolesIds;
    Rbac.CatalogIdListDistinct();
  }

  lemma FlatSix(a: PermissionGroup, b: PermissionGroup, c: PermissionGroup,
                d: PermissionGroup, e: PermissionGroup, f: PermissionGroup)
    ensures FlatIds([a, b, c, d, e, f]) ==
              GroupIds(a) + GroupIds(b) + GroupIds(c) + GroupIds(d) + GroupIds(e) + GroupIds(f)
  {
    var A, B, C, D, E, F := GroupIds(a), GroupIds(b), GroupIds(c), GroupIds(d), GroupIds(e), GroupIds(f);
    assert [f][1..] == [];
    assert FlatIds([f]) == F;
    assert [e, f][1..] == [f];
    assert FlatIds([e, f]) == E + F;
    assert [d, e, f][1..] == [e, f];
    assert FlatIds([d, e, f]) == D + (E + F) == D + E + F;
    assert [c, d, e, f][1..] == [d, e, f];
    assert FlatIds([c, d, e, f]) == C + (D + E + F) == C + D + E + F;
    assert [b, c, d, e, f][1..] == [c, d, e, f];
    assert FlatIds([b, c, d, e, f]) == B + (C + D + E + F) == B + C + D + E + F;
    assert [a, b, c, d, e, f][1..] == [b, c, d, e, f];
    assert FlatIds([a, b, c, d, e, f]) == A + (B + C + D + E + F) == A + B + C + D + E + F;
  }
}
