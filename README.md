# Hotel management dashboard — a Dafny model of its core

This project models the core of a hotel management dashboard written in
TypeScript and React. It covers:

- **Access control:** the permission catalog and the four predefined roles
  (Owner, Manager, Receptionist, Accountant). It also covers the
  `hasPermission`/`hasAnyPermission`/`hasAllPermissions` checks, the session
  holder that signs users in and out, and the guard component that shows a
  page's content, a fallback or an "Access Denied" card.
- **Role administration:** the "Create New Role" form with its permission
  groups and "select all" toggles. It also covers the user-management
  permission matrix (role × user-administration permission).
- **Inventory:** the inventory data model and its sample catalog, the
  inventory dashboard (low-stock count, stock value, category labels,
  column filters, the category cards), and the "Add Inventory Item" and
  "Record Transaction" forms with their validation and redirects.
- **Bookings and properties:** the two list pages, with their badges,
  labels, row actions, deletion and summary cards. It also covers the
  "Create New Booking" page (guest search, guest pick, form fields) and
  the "Add New Room" page (fields and amenity checkboxes).
- **Dashboard frame:** which navigation links are highlighted for a path,
  and the mobile sheet that closes when the path changes. It also covers
  the data table's sort controls (column labels, the initial selection,
  the change handler).

Pure logic is written as functions and lemmas. The pieces of the user
interface that hold state across events are classes:

- the auth provider;
- the role form and the permission matrix page;
- the list pages and the create pages;
- the layout frame;
- the sort controls.

Each such class has one field per React state variable, and its methods
state the new state as a function of the old one. Router navigation is a
returned path. Storage writes that can fail are a boolean parameter.

## Model

| member | source | states |
|---|---|---|
| Rbac.HasPermission | lib/models/rbac.ts:34-37 | granted exactly when the user has a role and the role lists the id |
| Rbac.HasAnyPermission | lib/models/rbac.ts:40-43 | granted exactly when the user has a role and some listed id is in it |
| Rbac.HasAllPermissions | lib/models/rbac.ts:46-49 | granted exactly when the user has a role and every listed id is in it |
| Rbac.GetModulePermissions | lib/models/rbac.ts:52-54 | exactly the permissions of the module, as a subsequence of the input (order kept) |
| Rbac.NoRoleDeniesEverything | lib/models/rbac.ts:34-49 | a user without a role is refused by all three checks, for every list, including the empty one |
| Rbac.EmptyListWithRole | lib/models/rbac.ts:40-49 | with a role, "all of []" holds and "any of []" does not |
| Rbac.SingletonAgreement | lib/models/rbac.ts:34-49 | on a one-id list, "any" and "all" both agree with the single-id check |
| Rbac.AllImpliesAny | lib/models/rbac.ts:40-49 | on a non-empty list, "all" implies "any" |
| Rbac.ListChecksAppend | lib/models/rbac.ts:40-49 | "any" of a concatenation is the disjunction; with a role, "all" of a concatenation is the conjunction |
| Rbac.ListChecksDependOnMembers | lib/models/rbac.ts:40-49 | the list checks depend only on which ids are listed, not on order or repetition |
| Rbac.RoleMonotone | lib/models/rbac.ts:34-49 | giving the user a role with more ids never turns an "any" or "all" grant into a refusal |
| Rbac.CatalogIdsDistinct | lib/models/rbac.ts:57-98 | the catalog has 27 permissions with pairwise distinct ids |
| Rbac.CatalogWellFormed | lib/models/rbac.ts:57-98 | every catalog id is its module name, a dot and its action |
| Rbac.CatalogModuleLookup | lib/models/rbac.ts:52-98 | on the catalog, looking up a module yields exactly that module's group, in catalog order |
| Rbac.UnknownModuleLookup | lib/models/rbac.ts:52-54 | a name that is none of the seven modules yields no permissions |
| Rbac.ManagerPermissions | lib/models/rbac.ts:110-119 | Manager holds the whole catalog except `properties.delete`, `users.delete` and `roles.manage` (24 ids, catalog order) |
| Rbac.ManagerMembership | lib/models/rbac.ts:110-119 | an id is a Manager's exactly when Owner holds it and it contains none of the three excluded ids |
| Rbac.ReceptionistPermissions | lib/models/rbac.ts:120-129 | Receptionist holds the view permissions of properties and rooms, and all booking and guest permissions |
| Rbac.AccountantPermissions | lib/models/rbac.ts:130-139 | Accountant holds `bookings.view`, `guests.view` and the finance permissions |
| Rbac.RoleIdLists | lib/models/rbac.ts:120-139 | the Receptionist and Accountant id lists, of lengths 12 and 5 |
| Rbac.RolesWithinOwner | lib/models/rbac.ts:101-140 | a role built by filtering the catalog holds a subsequence of Owner's ids, without repeats |
| Rbac.PredefinedRolesWithinOwner | lib/models/rbac.ts:101-140 | each predefined role grants only catalog ids, in catalog order, each once |
| Rbac.PredefinedRoleIds | lib/models/rbac.ts:101-140 | the four predefined roles have distinct ids |
| ManagerIds.DropsExcluded | lib/models/rbac.ts:114-116 | the Manager filter drops each of the three excluded ids |
| AuthContext.CheckPermission | lib/contexts/auth-context.tsx:112-115 | refuses when nobody is signed in; otherwise the user has a role that lists the id |
| AuthContext.CheckAnyPermission | lib/contexts/auth-context.tsx:117-120 | refuses when nobody is signed in; otherwise some listed id is in the user's role |
| AuthContext.CheckAllPermissions | lib/contexts/auth-context.tsx:122-125 | refuses when nobody is signed in; otherwise every listed id is in the user's role |
| AuthContext.NoUserRefused | lib/contexts/auth-context.tsx:112-125 | with nobody signed in, all three checks refuse |
| AuthContext.ChecksDelegate | lib/contexts/auth-context.tsx:112-125 | with a user signed in, the context checks agree with the role checks |
| AuthContext.MockUser | lib/contexts/auth-context.tsx:50-93 | the signed-in user keeps the typed email, is active, has role id `owner` and the Owner role with the listed permissions |
| AuthContext.MockPermissionsAreCatalog | lib/contexts/auth-context.tsx:59-87 | the login's permission list is the catalog's id list, which is also Owner's |
| AuthContext.MockUserHoldsCatalog | lib/contexts/auth-context.tsx:42-115 | after login, a permission check succeeds exactly for catalog ids |
| AuthContext.AuthProvider.constructor | lib/contexts/auth-context.tsx:19-20 | the provider starts with no user and loading |
| AuthContext.AuthProvider.CheckSession | lib/contexts/auth-context.tsx:23-40 | a stored user that parses becomes the current user, anything else leaves the user alone; loading ends in every case |
| AuthContext.AuthProvider.Login | lib/contexts/auth-context.tsx:42-104 | the mock owner for the email is signed in; the result is true and the session is stored exactly when storage accepts the write; loading ends |
| AuthContext.AuthProvider.Logout | lib/contexts/auth-context.tsx:106-109 | user and stored session are cleared; the loading flag is untouched |
| AuthContext.AuthProvider.HasPermission | lib/contexts/auth-context.tsx:112-115 | the provider's check on its current user; refused with nobody signed in |
| AuthContext.AuthProvider.HasAnyPermission | lib/contexts/auth-context.tsx:117-120 | the provider's "any" check on its current user; refused with nobody signed in |
| AuthContext.AuthProvider.HasAllPermissions | lib/contexts/auth-context.tsx:122-125 | the provider's "all" check on its current user; refused with nobody signed in |
| AuthContext.LoginThenRestore | lib/contexts/auth-context.tsx:23-104 | a session stored by a login is restored by the next mount's session check |
| PermissionGuard.EffectiveList | components/permission-guard.tsx:26-28 | the required list, followed by the single permission when one is given and non-empty |
| PermissionGuard.HasAccess | components/permission-guard.tsx:31 | access needs a signed-in user with a role; then "all" or "any" of the list as `requireAll` says |
| PermissionGuard.Guard | components/permission-guard.tsx:16-50 | children exactly on access; otherwise the fallback when one is given, else the "Access Denied" card |
| PermissionGuard.NoUserNeverGranted | components/permission-guard.tsx:31-50 | with nobody signed in the guarded content never shows |
| PermissionGuard.NothingRequiredAnyDenied | components/permission-guard.tsx:16-50 | with nothing required and the default "any" mode, the content never shows |
| PermissionGuard.NothingRequiredAllGranted | components/permission-guard.tsx:16-50 | with nothing required in "all" mode, the content shows exactly for a signed-in user with a role |
| PermissionGuard.AccessDependsOnMembers | components/permission-guard.tsx:31 | access depends only on which permissions are required |
| PermissionGuard.SinglePermissionPosition | components/permission-guard.tsx:26-31 | appending the single permission decides like putting it first |
| PermissionGuard.ExtraPermission | components/permission-guard.tsx:26-31 | an extra single permission can only widen "any" access and only narrow "all" access |
| CreateRole.Valid | app/dashboard/users/roles/new/page.tsx:19-31 | the role schema: a name of at least 2 and a description of at least 10 UTF-16 code units, and at least one permission checked |
| CreateRole.Checked | app/dashboard/users/roles/new/page.tsx:261-284 | a permission's checkbox is ticked exactly when its entry is present and true; a missing entry reads as unticked |
| CreateRole.GroupIds | app/dashboard/users/roles/new/page.tsx:34-98 | the ids of a group's checkboxes, in display order |
| CreateRole.FlatIds | app/dashboard/users/roles/new/page.tsx:101 | an id is in the flat list exactly when some group shows it |
| CreateRole.FindGroup | app/dashboard/users/roles/new/page.tsx:153-182 | the group with that name when one exists, otherwise nothing |
| CreateRole.DefaultPermissions | app/dashboard/users/roles/new/page.tsx:110-120 | one entry per permission id, all unchecked |
| CreateRole.SetAll | app/dashboard/users/roles/new/page.tsx:153-164 | every listed id takes the value and every other entry is kept |
| CreateRole.Granted | app/dashboard/users/roles/new/page.tsx:132-134 | the checked ids, in the order of the flat list |
| CreateRole.DefaultsInvalid | app/dashboard/users/roles/new/page.tsx:19-31 | the untouched form never validates, since it grants nothing |
| CreateRole.ValidGrantsSomething | app/dashboard/users/roles/new/page.tsx:19-134 | a valid form submits a non-empty permission list |
| CreateRole.CreateRoleForm.constructor | app/dashboard/users/roles/new/page.tsx:105-120 | empty name and description, every permission unchecked, not submitting |
| CreateRole.CreateRoleForm.SetPermission | app/dashboard/users/roles/new/page.tsx:277-284 | one checkbox takes the value; everything else is kept |
| CreateRole.CreateRoleForm.ToggleGroupPermissions | app/dashboard/users/roles/new/page.tsx:153-164 | a known group's ids all take the value; an unknown group changes nothing |
| CreateRole.CreateRoleForm.AreAllGroupPermissionsSelected | app/dashboard/users/roles/new/page.tsx:167-173 | true exactly when the group exists and every one of its ids is checked |
| CreateRole.CreateRoleForm.AreSomeGroupPermissionsSelected | app/dashboard/users/roles/new/page.tsx:176-182 | true exactly when the group exists, some of its ids are checked |
| CreateRole.CreateRoleForm.Submit | app/dashboard/users/roles/new/page.tsx:124-150 | a valid form yields the role draft with its checked ids and goes to the users page; an invalid form yields nothing and changes nothing |
| CreateRole.ToggleIdempotent | app/dashboard/users/roles/new/page.tsx:153-164 | toggling a group twice leaves only the second toggle's effect |
| CreateRole.ToggleKeepsShape | app/dashboard/users/roles/new/page.tsx:153-164 | a toggle over known ids adds no new entries |
| CreateRole.ToggleThenTest | app/dashboard/users/roles/new/page.tsx:153-182 | after checking a group, "all selected" holds; after clearing it, "some selected" does not |
| CreateRole.KnownGroups | app/dashboard/users/roles/new/page.tsx:34-98 | the six group names the form knows |
| CreateRole.AllPermissionsAreCatalog | app/dashboard/users/roles/new/page.tsx:34-101 | the form offers exactly the catalog's ids, in catalog order, each once |
| UserManagement.UserPermissions | app/dashboard/users/permissions/user-management/page.tsx:21 | exactly the catalog permissions of the users and roles modules, in order |
| UserManagement.CatalogUserPermissions | app/dashboard/users/permissions/user-management/page.tsx:21 | on the catalog that is the users group followed by the roles group (6 permissions) |
| UserManagement.RowOf | app/dashboard/users/permissions/user-management/page.tsx:27-38 | one cell per permission id, checked exactly when the role holds the id |
| UserManagement.MatrixOf | app/dashboard/users/permissions/user-management/page.tsx:27-38 | one row per role id |
| UserManagement.MatrixCells | app/dashboard/users/permissions/user-management/page.tsx:27-38 | for distinct role ids, each cell is checked exactly when that role holds that id |
| UserManagement.BuildMatrix | app/dashboard/users/permissions/user-management/page.tsx:27-38 | the page's nested loops yield exactly the matrix with one row per role and one cell per id, checked when the role holds the id |
| UserManagement.Toggle | app/dashboard/users/permissions/user-management/page.tsx:41-49 | flips exactly one cell; other cells and other rows are kept |
| UserManagement.ToggleTwice | app/dashboard/users/permissions/user-management/page.tsx:41-49 | flipping an existing cell twice restores the matrix |
| UserManagement.ToggleKeepsShape | app/dashboard/users/permissions/user-management/page.tsx:41-49 | flipping a known cell keeps every row's set of ids |
| UserManagement.MatrixOfShaped | app/dashboard/users/permissions/user-management/page.tsx:27-38 | every row of the built matrix covers exactly the page's ids |
| UserManagement.UserManagementPage.constructor | app/dashboard/users/permissions/user-management/page.tsx:21-38 | the page starts from the matrix of the predefined roles, not loading |
| UserManagement.UserManagementPage.TogglePermission | app/dashboard/users/permissions/user-management/page.tsx:41-49 | the matrix becomes the toggled matrix |
| UserManagement.UserManagementPage.HandleSubmit | app/dashboard/users/permissions/user-management/page.tsx:52-80 | the matrix is kept, loading ends and the page goes to the users list |
| UserManagement.OwnerRow | app/dashboard/users/permissions/user-management/page.tsx:27-38 | Owner's row is fully checked |
| UserManagement.ManagerRow | app/dashboard/users/permissions/user-management/page.tsx:27-38 | Manager's row is checked everywhere except `users.delete` and `roles.manage` |
| UserManagement.ReceptionistRow | app/dashboard/users/permissions/user-management/page.tsx:27-38 | Receptionist's row is empty |
| UserManagement.AccountantRow | app/dashboard/users/permissions/user-management/page.tsx:27-38 | Accountant's row is empty |
| UserManagement.InitialMatrix | app/dashboard/users/permissions/user-management/page.tsx:21-38 | the initial matrix has these four rows |
| Inventory.TypeName | lib/models/inventory.ts:31 | every transaction type has one of the five names |
| Inventory.ParseType | lib/models/inventory.ts:31 | a name parses exactly when it is one of the five, and back to that name |
| Inventory.TypeNameRoundTrip | lib/models/inventory.ts:31 | parsing a type's name gives the type back |
| Inventory.SampleCategoryIds | lib/models/inventory.ts:55-64 | the sample categories have the distinct ids 1 to 8 |
| Inventory.SampleItemIds | lib/models/inventory.ts:67-212 | the sample items have the distinct ids 1 to 8 |
| Inventory.SampleSupplierIds | lib/models/inventory.ts:276-322 | the sample suppliers have the distinct ids 1 to 5 |
| Inventory.ItemCategoriesExist | lib/models/inventory.ts:55-212 | every sample item names an existing category |
| Inventory.TransactionReferencesExist | lib/models/inventory.ts:67-322 | every sample transaction names an existing item, and an existing supplier when it has one |
| Inventory.TransactionDetails | lib/models/inventory.ts:215-273 | received transactions carry a cost, a supplier and an invoice number; used and transferred ones carry none of the three |
| Inventory.SampleQuantities | lib/models/inventory.ts:67-273 | sample reorder points are non-negative and below the stock, reorder quantities and costs positive, transaction quantities positive |
| InventoryPage.IsLowStock | app/dashboard/inventory/page.tsx:19 | an item is low when its stock is at or below its reorder point |
| InventoryPage.FilterFn | app/dashboard/inventory/page.tsx:64-66 | a row passes a column filter when its value for that column is one of the selected values |
| InventoryPage.LowStockItems | app/dashboard/inventory/page.tsx:19 | exactly the items at or below their reorder point, in order |
| InventoryPage.LowStockCount | app/dashboard/inventory/page.tsx:19 | at most the item count; zero exactly when no item is at or below its reorder point |
| InventoryPage.LowStockAppend | app/dashboard/inventory/page.tsx:19 | the low-stock list and count of two lists put together add up |
| InventoryPage.NothingLow | app/dashboard/inventory/page.tsx:19 | when every stock is above its reorder point, the low-stock tab is empty |
| InventoryPage.SampleNothingLow | app/dashboard/inventory/page.tsx:15-19 | the sample inventory has nothing low on stock |
| InventoryPage.CategoryLabel | app/dashboard/inventory/page.tsx:52-62 | a known category id shows its name; an unknown one shows the id itself |
| InventoryPage.CategoryLabelsMatchCategories | app/dashboard/inventory/page.tsx:52-62 | the page's name table agrees with the category list of the model |
| InventoryPage.ColumnFilter | app/dashboard/inventory/page.tsx:64-118 | keeps, in order, exactly the rows whose column value is among the selected values |
| InventoryPage.ColumnFilterSelection | app/dashboard/inventory/page.tsx:64-118 | selecting nothing hides every row; selecting more values never hides a row |
| InventoryPage.ItemValue | app/dashboard/inventory/page.tsx:107-109 | stock times unit cost, never negative for non-negative figures |
| InventoryPage.StockValue | app/dashboard/inventory/page.tsx:20 | the total value is never negative for non-negative figures |
| InventoryPage.Summaries | app/dashboard/inventory/page.tsx:237-246 | one card per category, with the count and stock value of that category's items |
| InventoryPage.CardFromProjections | app/dashboard/inventory/page.tsx:237-246 | a category card's figures equal the counts and sums over the items' category column |
| InventoryPage.CardsOfSampleShape | app/dashboard/inventory/page.tsx:237-246 | for the sample items, the counts match the written cards, as do the values from category 3 on; Linens comes to 6846.3 and Toiletries to 1537.7 |
| InventoryPage.SampleCards | app/dashboard/inventory/page.tsx:237-246 | the computed cards for the sample items |
| InventoryPage.WrittenValuesDiffer | app/dashboard/inventory/page.tsx:237-238 | the written Linens and Toiletries values are not those of the sample items |
| InventoryPage.WrittenCardsFollowCategories | app/dashboard/inventory/page.tsx:237-246 | the written cards list the categories in order, with their names |
| Strings.JsLength | app/dashboard/inventory/items/new/page.tsx:21-24 | a string's length in UTF-16 code units, as zod's `min` measures it: between its character count and twice that, equal to it exactly when no character lies outside the Basic Multilingual Plane |
| NewInventoryItem.Valid | app/dashboard/inventory/items/new/page.tsx:20-33 | the item schema: the length rules in UTF-16 code units, a chosen category and the sign rules on the four numbers |
| Strings.AstralLength | app/dashboard/inventory/items/new/page.tsx:21 | an emoji is one character but two UTF-16 code units |
| NewInventoryItem.AstralNameAccepted | app/dashboard/inventory/items/new/page.tsx:21 | a one-character emoji name meets the two-character minimum, as it does in the schema |
| NewInventoryItem.Errors | app/dashboard/inventory/items/new/page.tsx:20-33 | a field is reported exactly when it breaks its rule, text lengths counted in UTF-16 code units |
| NewInventoryItem.ValidIffNoErrors | app/dashboard/inventory/items/new/page.tsx:20-33 | the form is valid exactly when there are no errors |
| NewInventoryItem.ZeroBoundaries | app/dashboard/inventory/items/new/page.tsx:20-33 | zero stock and zero reorder point pass; zero cost and zero reorder quantity fail; missing numbers fail |
| NewInventoryItem.AnyChosenCategory | app/dashboard/inventory/items/new/page.tsx:20-33 | any chosen category passes; no category fails |
| NewInventoryItem.DefaultErrors | app/dashboard/inventory/items/new/page.tsx:42-53 | the untouched form reports name, category, SKU, cost and reorder quantity |
| NewInventoryItem.ItemPasses | app/dashboard/inventory/items/new/page.tsx:20-33 | an item meeting the length and sign rules passes |
| NewInventoryItem.SampleItemsPass | app/dashboard/inventory/items/new/page.tsx:20-33 | every sample item would pass the form |
| NewInventoryItem.UnitNotCheckedAgainstOptions | app/dashboard/inventory/items/new/page.tsx:177-185 | a unit outside the select's options still passes |
| NewInventoryItem.AddInventoryItemPage.constructor | app/dashboard/inventory/items/new/page.tsx:37-53 | the page starts from the default values, with no errors |
| NewInventoryItem.AddInventoryItemPage.Edit | app/dashboard/inventory/items/new/page.tsx:42-53 | the values become the edited form |
| NewInventoryItem.AddInventoryItemPage.Submit | app/dashboard/inventory/items/new/page.tsx:57-83 | a valid form is saved and the page goes to the inventory exactly when the save succeeds; errors are reported; a second submit while saving does nothing |
| RecordTransaction.PickerIdsAreItemIds | app/dashboard/inventory/transactions/new/page.tsx:20-27 | the picker offers the sample item ids, each once |
| RecordTransaction.PickerNamesDiffer | app/dashboard/inventory/transactions/new/page.tsx:20-27 | the picker's name for item 3 differs from the catalog's |
| RecordTransaction.Valid | app/dashboard/inventory/transactions/new/page.tsx:48-63 | the transaction schema: one of the five kinds, a positive quantity and a date that parses; every other field optional |
| RecordTransaction.ShowsPurchaseFields | app/dashboard/inventory/transactions/new/page.tsx:245-302 | the supplier and invoice fields are shown only for deliveries |
| RecordTransaction.ShowsRoom | app/dashboard/inventory/transactions/new/page.tsx:245-302 | the room field is shown only for usage and transfers |
| RecordTransaction.Errors | app/dashboard/inventory/transactions/new/page.tsx:48-63 | a field is reported exactly when it breaks its rule |
| RecordTransaction.ValidIffNoErrors | app/dashboard/inventory/transactions/new/page.tsx:48-63 | the form is valid exactly when there are no errors |
| RecordTransaction.KindOf | app/dashboard/inventory/transactions/new/page.tsx:48-63 | a valid form's type is one of the five, named as entered |
| RecordTransaction.DefaultForm | app/dashboard/inventory/transactions/new/page.tsx:73-89 | the item from the query, a received quantity of 1 for property 1, and empty room and supplier |
| RecordTransaction.DefaultAccepted | app/dashboard/inventory/transactions/new/page.tsx:73-89 | the default form is valid and is a receipt |
| RecordTransaction.RejectedInputs | app/dashboard/inventory/transactions/new/page.tsx:48-63 | a non-positive quantity, an unknown type or an unparsable date is rejected |
| RecordTransaction.FieldsPerKind | app/dashboard/inventory/transactions/new/page.tsx:245-302 | supplier and cost show only for receipts, and the room only for use and transfer |
| RecordTransaction.SelectedItem | app/dashboard/inventory/transactions/new/page.tsx:97-104 | no item for an empty id; otherwise the entry with that id, or none when there is no such entry |
| RecordTransaction.SelectingAnEntry | app/dashboard/inventory/transactions/new/page.tsx:97-104 | with distinct ids, choosing an entry's id selects that entry |
| RecordTransaction.PickerSelection | app/dashboard/inventory/transactions/new/page.tsx:20-104 | each picker entry is selected by its own id |
| RecordTransaction.Redirect | app/dashboard/inventory/transactions/new/page.tsx:122-126 | the item's page when an item is chosen, otherwise the inventory page |
| RecordTransaction.RedirectInjective | app/dashboard/inventory/transactions/new/page.tsx:122-126 | different item ids lead to different pages |
| RecordTransaction.RecordTransactionPage.constructor | app/dashboard/inventory/transactions/new/page.tsx:73-104 | the page starts from the default form, with the selected item matching it |
| RecordTransaction.RecordTransactionPage.ChooseItem | app/dashboard/inventory/transactions/new/page.tsx:97-104 | the item id changes and the selected item follows it |
| RecordTransaction.RecordTransactionPage.Edit | app/dashboard/inventory/transactions/new/page.tsx:78-89 | the other fields change; the selected item stays in step |
| RecordTransaction.RecordTransactionPage.Submit | app/dashboard/inventory/transactions/new/page.tsx:107-136 | a valid form is saved and redirected exactly when the save succeeds; errors are reported; a second submit while saving does nothing |
| BookingsPage.WithoutId | app/dashboard/bookings/page.tsx:159-161 | exactly the bookings with another id, in order |
| BookingsPage.DeleteProperties | app/dashboard/bookings/page.tsx:159-161 | deleting an unknown id changes nothing, deleting twice equals once, and kept plus removed is the whole list |
| BookingsPage.StatusLabelByChar | app/dashboard/bookings/page.tsx:213-216 | the split, capitalise and join label equals replacing dashes with spaces and capitalising each word's first letter |
| BookingsPage.StatusLabelShape | app/dashboard/bookings/page.tsx:213-216 | the label is as long as the status, with a space at every dash, and no new space anywhere else |
| BookingsPage.StatusLabelExamples | app/dashboard/bookings/page.tsx:213-216 | the labels of the four known statuses |
| BookingsPage.StatusBadge | app/dashboard/bookings/page.tsx:203-211 | destructive exactly for a status other than confirmed, checked in or checked out |
| BookingsPage.StatusBadgesDiffer | app/dashboard/bookings/page.tsx:203-211 | the three live statuses get three different badges; cancelled is destructive |
| BookingsPage.PaymentBadge | app/dashboard/bookings/page.tsx:230-231 | never destructive; secondary exactly for a payment other than paid or pending |
| BookingsPage.PaymentLabelVersusStatusLabel | app/dashboard/bookings/page.tsx:213-232 | a payment label matches the status label without a dash and differs from it with one |
| BookingsPage.Actions | app/dashboard/bookings/page.tsx:253-306 | always view, edit, invoice and delete; check-in exactly for confirmed, check-out exactly for checked in, never both |
| BookingsPage.ActionPath | app/dashboard/bookings/page.tsx:253-306 | every action but delete links to a page |
| BookingsPage.WithStatus | app/dashboard/bookings/page.tsx:335-365 | exactly the bookings with that status, in order |
| BookingsPage.SummaryCards | app/dashboard/bookings/page.tsx:335-365 | the check-out card shows the current-stays figure, and check-ins plus stays never exceed the total |
| BookingsPage.CountStatuses | app/dashboard/bookings/page.tsx:345-365 | counting the status column agrees with filtering the bookings |
| BookingsPage.CardsOfSampleShape | app/dashboard/bookings/page.tsx:335-365 | bookings with the sample's statuses show 12, 6, 4 and 4 |
| BookingsPage.SampleCards | app/dashboard/bookings/page.tsx:26-365 | the sample bookings show 12, 6, 4 and 4 |
| BookingsPage.BookingsPage.constructor | app/dashboard/bookings/page.tsx:151 | the page starts from the sample bookings |
| BookingsPage.BookingsPage.Delete | app/dashboard/bookings/page.tsx:159-161 | the list loses exactly the bookings with that id |
| BookingsPage.DeleteLowersCards | app/dashboard/bookings/page.tsx:159-365 | a deletion never raises any card |
| BookingsPage.DeleteKeepsStatusCards | app/dashboard/bookings/page.tsx:159-365 | deleting an id none of whose bookings is confirmed or checked in leaves the three status cards equal |
| BookingsPage.DeleteKeepsStatus | app/dashboard/bookings/page.tsx:159-365 | deleting an id none of whose bookings has a status keeps exactly the bookings with that status |
| BookingsPage.StatusLabel | app/dashboard/bookings/page.tsx:213-216 | the status cell's text: split on dashes, each word capitalised, joined with spaces (its character-by-character meaning is StatusLabelByChar) |
| BookingsPage.PaymentLabel | app/dashboard/bookings/page.tsx:231 | the payment cell's text differs from the value only in letter case |
| PropertiesPage.RoomSum | app/dashboard/properties/page.tsx:267 | the room total of a list is never negative when no property has a negative count |
| PropertiesPage.RoomSumAppend | app/dashboard/properties/page.tsx:267 | the room total of two lists put together is the sum |
| PropertiesPage.RoomSumPartition | app/dashboard/properties/page.tsx:267-270 | when two tests split the list, their room totals add up to the whole |
| PropertiesPage.WithoutId | app/dashboard/properties/page.tsx:131-133 | exactly the properties with another id, in order |
| PropertiesPage.OnlyOneWithId | app/dashboard/properties/page.tsx:131-133 | with distinct ids, one property has a given position's id |
| PropertiesPage.DeleteLowersRooms | app/dashboard/properties/page.tsx:131-267 | deleting a property lowers the room total by its rooms; deleting an unknown id changes nothing |
| PropertiesPage.TypeLabel | app/dashboard/properties/page.tsx:151 | "Hotel" exactly for hotels; "Boarding House" for every other type |
| PropertiesPage.StatusLabel | app/dashboard/properties/page.tsx:173-174 | "Active" exactly for active; "Maintenance" for every other status |
| PropertiesPage.StatusBadge | app/dashboard/properties/page.tsx:173-174 | the default badge exactly when the label reads "Active" |
| PropertiesPage.OfKind | app/dashboard/properties/page.tsx:256-257 | exactly the properties of that type |
| PropertiesPage.WithStatus | app/dashboard/properties/page.tsx:296-298 | exactly the properties with that status |
| PropertiesPage.SummaryCards | app/dashboard/properties/page.tsx:254-298 | the total is the list length, and each split never exceeds it |
| PropertiesPage.CardsAddUp | app/dashboard/properties/page.tsx:254-298 | when every type is hotel or boarding, hotels plus boarding houses is the total and the two room figures add up to all rooms; the same for active and maintenance |
| PropertiesPage.CountKinds | app/dashboard/properties/page.tsx:256-270 | counting and summing over the type column agrees with filtering the properties |
| PropertiesPage.CountStatuses | app/dashboard/properties/page.tsx:296-298 | counting the status column agrees with filtering the properties |
| PropertiesPage.CardsOfSampleShape | app/dashboard/properties/page.tsx:16-298 | properties with the sample's types, statuses and rooms show 12 (6 hotels, 6 boarding houses), 261 rooms (184 and 77), 10 active and 2 in maintenance |
| PropertiesPage.PropertiesPage.constructor | app/dashboard/properties/page.tsx:129 | the page starts from the sample properties |
| PropertiesPage.PropertiesPage.Delete | app/dashboard/properties/page.tsx:131-133 | the list loses exactly the properties with that id |
| CreateBooking.InitialFormValues | app/dashboard/create-booking/page.tsx:21-34 | one adult, no children, payment pending, every other field empty |
| CreateBooking.WithField | app/dashboard/create-booking/page.tsx:65-72 | the named field takes the value and every other field is kept |
| CreateBooking.WithFieldLastWins | app/dashboard/create-booking/page.tsx:65-72 | a second write to a field wins; writes to different fields commute |
| CreateBooking.WithGuest | app/dashboard/create-booking/page.tsx:74-84 | the four guest fields come from the guest; the rest are kept |
| CreateBooking.RoomButtonLabel | app/dashboard/create-booking/page.tsx:266-268 | "Selected" exactly for the chosen room, "Select" otherwise |
| CreateBooking.RoomButtonAfterPick | app/dashboard/create-booking/page.tsx:266-268 | after a pick, only that room reads "Selected" |
| CreateBooking.FilteredGuests | app/dashboard/create-booking/page.tsx:93-100 | every guest for an empty query; otherwise exactly the matching guests, in order |
| CreateBooking.EmptyQueryMatchesAll | app/dashboard/create-booking/page.tsx:93-100 | the empty-query shortcut lists what the filter itself would |
| CreateBooking.MatchesPrefix | app/dashboard/create-booking/page.tsx:93-100 | a guest matching a query matches every prefix of it |
| CreateBooking.TypingNarrows | app/dashboard/create-booking/page.tsx:93-100 | typing more characters only removes guests from the list |
| CreateBooking.Matches | app/dashboard/create-booking/page.tsx:93-99 | a guest matches when the lower-cased name or email contains the lower-cased query, or the phone contains it as typed |
| CreateBooking.SearchIgnoresCase | app/dashboard/create-booking/page.tsx:93-100 | the upper-cased query lists the same guests as the query as typed, unless a phone number contains one and not the other |
| CreateBooking.NewBookingPage.constructor | app/dashboard/create-booking/page.tsx:20-37 | the guest tab, the initial form, an empty search and no guest chosen |
| CreateBooking.NewBookingPage.Search | app/dashboard/create-booking/page.tsx:36 | only the query changes |
| CreateBooking.NewBookingPage.Listed | app/dashboard/create-booking/page.tsx:93-100 | the listed guests come from the given list, in order |
| CreateBooking.NewBookingPage.SetActiveTab | app/dashboard/create-booking/page.tsx:119 | only the tab changes |
| CreateBooking.NewBookingPage.SetField | app/dashboard/create-booking/page.tsx:65-72 | only the named field changes |
| CreateBooking.NewBookingPage.SelectGuest | app/dashboard/create-booking/page.tsx:74-84 | the guest is remembered and copied into the form, and the booking tab opens |
| CreateBooking.NewBookingPage.Submit | app/dashboard/create-booking/page.tsx:86-91 | the page goes to the bookings list |
| CreateRoom.InitialFieldValues | app/dashboard/create-room/page.tsx:19-31 | available, for two, a maximum of two, every other field empty |
| CreateRoom.Toggled | app/dashboard/create-room/page.tsx:54-66 | ticking appends the id; clearing removes it (a subsequence without it); other amenities are unaffected |
| CreateRoom.Checked | app/dashboard/create-room/page.tsx:238-241 | an amenity's checkbox is ticked exactly when its id is in the list |
| CreateRoom.CheckboxFollows | app/dashboard/create-room/page.tsx:238-241 | after a change the checkbox shows the chosen state; others keep theirs |
| CreateRoom.ClearCounts | app/dashboard/create-room/page.tsx:54-66 | clearing removes every copy and keeps the count of every other amenity |
| CreateRoom.TickAppendsCopy | app/dashboard/create-room/page.tsx:54-66 | ticking adds one copy, even of a listed amenity |
| CreateRoom.ClearUndoesTick | app/dashboard/create-room/page.tsx:54-66 | clearing a new amenity right after ticking it restores the list |
| CreateRoom.ClearTwice | app/dashboard/create-room/page.tsx:54-66 | clearing is idempotent |
| CreateRoom.NewRoomPage.constructor | app/dashboard/create-room/page.tsx:19-31 | the initial fields and no amenities |
| CreateRoom.NewRoomPage.SetField | app/dashboard/create-room/page.tsx:45-52 | only the named field changes |
| CreateRoom.NewRoomPage.ChangeAmenity | app/dashboard/create-room/page.tsx:54-66 | the amenity list becomes the toggled list; the fields are kept |
| CreateRoom.NewRoomPage.Submit | app/dashboard/create-room/page.tsx:68-73 | the page goes to the rooms list |
| DashboardLayout.IsActive | components/dashboard-layout.tsx:64 | a link is highlighted on its own path and on paths below it after a `/`, so only on paths that start with its href |
| DashboardLayout.ActiveLinksNested | components/dashboard-layout.tsx:64 | two links highlighted on one path are equal, or one lies below the other |
| DashboardLayout.BoundaryExamples | components/dashboard-layout.tsx:64 | a shared prefix without a `/` highlights nothing; a path below a link highlights it |
| DashboardLayout.DashboardAlwaysActive | components/dashboard-layout.tsx:43-64 | "Dashboard" is highlighted on every dashboard sub-path |
| DashboardLayout.SectionsUnrelated | components/dashboard-layout.tsx:43-53 | apart from "Dashboard", no navigation link lies below another |
| DashboardLayout.AtMostOneSection | components/dashboard-layout.tsx:43-64 | on any path at most one section link is highlighted |
| DashboardLayout.ActiveItems | components/dashboard-layout.tsx:64 | exactly the navigation items highlighted on the path |
| DashboardLayout.DashboardFrame.constructor | components/dashboard-layout.tsx:35-36 | the sheet is closed and property 1 is selected |
| DashboardLayout.DashboardFrame.SetOpen | components/dashboard-layout.tsx:86-100 | only the sheet's state changes |
| DashboardLayout.DashboardFrame.SelectProperty | components/dashboard-layout.tsx:107 | only the selected property changes |
| DashboardLayout.DashboardFrame.Navigate | components/dashboard-layout.tsx:39-41 | moving to a different path closes the sheet; the same path keeps it as it was |
| SortControls.ColumnLabel | components/data-table/data-table-sort-controls.tsx:42 | empty exactly for the empty id; otherwise the first character uppercased and a space before every later capital |
| SortControls.LabelLength | components/data-table/data-table-sort-controls.tsx:42 | a label is as long as its id plus one per capital after the first character |
| SortControls.SpacesRemovable | components/data-table/data-table-sort-controls.tsx:42 | removing the spaces from a space-free id's label gives the id back |
| SortControls.LabelTailsDetermineIds | components/data-table/data-table-sort-controls.tsx:42 | space-free ids with the same label agree after the first character |
| SortControls.LabelExample | components/data-table/data-table-sort-controls.tsx:42 | "checkIn" reads "Check In" |
| SortControls.DirectionLabel | components/data-table/data-table-sort-controls.tsx:98 | "A to Z" exactly for ascending, "Z to A" exactly for descending |
| SortControls.SortableColumns | components/data-table/data-table-sort-controls.tsx:39-42 | the sortable columns in table order, each with its label |
| SortControls.NoSortableColumns | components/data-table/data-table-sort-controls.tsx:39-70 | the select is empty exactly when no column can be sorted |
| SortControls.InitialSelection | components/data-table/data-table-sort-controls.tsx:36-55 | the current sort's column and direction; unsorted, the first sortable column ascending; nothing when none is sortable |
| SortControls.FirstSortable | components/data-table/data-table-sort-controls.tsx:36-55 | the first sortable entry is the earliest column that can be sorted |
| SortControls.FindColumn | components/data-table/data-table-sort-controls.tsx:58-66 | a column with the id when the table has one, otherwise nothing |
| SortControls.SortControlsState.constructor | components/data-table/data-table-sort-controls.tsx:31-55 | the mounted controls list the sortable columns and hold the initial selection |
| SortControls.SortControlsState.SortChange | components/data-table/data-table-sort-controls.tsx:58-66 | the selection becomes the column and direction, and a sort is requested exactly when the table has that column |
| SortControls.MountedRendering | components/data-table/data-table-sort-controls.tsx:36-70 | the controls draw nothing exactly when no column can be sorted; otherwise the unsorted selection is a listed column |

## Left out

- Browser storage is a `StoredSession` value: either a serialized user or text that does not parse. JSON text and the revival of dates are not modelled. A stored `lastLogin` comes back as a string in the source.
- Timers, `await`, toasts and console output are left out. Every save is atomic. The `isSubmitting`/`isLoading` flags are observable only before and after a call, not during the simulated delay.
- The router is not modelled. A navigation is the returned path. `router.refresh` is not modelled.
- Storage and save failures are boolean parameters (`storageWritable`, `saveFails`), not exceptions.
- Money and unit costs are exact `real` numbers. Floating-point rounding of sums such as 6846.3 and the currency formatting are not modelled.
- Text lengths in the form schemas are counted in UTF-16 code units, as JavaScript counts them; only the distinction between characters inside and outside the Basic Multilingual Plane is modelled, not the encoding itself.
- Case mapping is ASCII only. Unicode case mapping is not modelled, nor JavaScript's `toUpperCase`, which can change a string's length on non-ASCII characters.
- Dates and timestamps are not modelled: `formatDate`, `new Date()` and the booking dates. Whether a transaction date parses is a flag on the form.
- zod's number coercion is simplified. A field that does not coerce to a number is `None`, and `NaN` is not distinguished.
- A record built with `[name]: value` is a map. JavaScript key order is not modelled.
- react-hook-form's path interpretation (dotted names, `valueAsNumber`) is not modelled. The form values are whole records.
- CreateRole: the rule that toggles of two different groups commute is not stated.
- The properties page's average-occupancy card is not modelled. It uses `parseInt` of a percentage string and `Math.round` on a float.
- The properties page's row links (view, edit, rooms) are not modelled. Only deletion is.
- The bookings table's column definitions, sorting and pagination are not modelled: they are part of the table library. The sort controls see the table as its columns (id, sortable) and its current first sort entry, and a sort change is returned as a request.
- CreateRoom.NewRoomPage.SetField: requires that the field is not `amenities`. No input of the page carries that name, and the amenity list is changed only by its checkboxes.
- UserManagement.UserManagementPage.TogglePermission: requires the role row to exist. For a missing row the source reads a field of `undefined` and throws. The page only offers existing rows.
- PropertiesPage: the literal sample cards are stated through `CardsOfSampleShape`, which covers any list with the sample's types, statuses and room counts. No separate lemma is written for the literal list.
- The create-booking and create-room pages save nothing when submitted. The model only returns their redirect.
- An empty stored session is treated like one that does not parse: the user is left as it was, as the source's falsy check does.
- `hasAllPermissions` with no role and an empty list is false. The description of the library suggests a vacuous truth, but the code checks the role first, and the model follows the code.

## Findings

| source | as written | input that shows it | evidently intended | confidence | as-written member | corrected member |
|---|---|---|---|---|---|---|
| app/dashboard/inventory/page.tsx:237-238 | the category cards hard-code Linens at 4798.8 and Toiletries at 1255.7 | the sample inventory of lib/models/inventory.ts: its Linens items are worth 6846.3 and its Toiletries items 1537.7 | each card shows the stock value of its category's items, as the other six cards and the counts do | medium; not executed | InventoryPage.WrittenValuesDiffer | InventoryPage.CardsOfSampleShape |
