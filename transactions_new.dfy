/** The "Record Inventory Transaction" form: its field rules, the values it
    starts from (the item can come from the `itemId` query parameter), the
    item the form shows as selected, which extra fields each kind of
    transaction shows, and where the page goes after a save. */
module RecordTransaction {
  import opened Options
  import opened Seqs
  import opened Strings
  import opened Inventory

  // ---------------------------------------------------------------------
  // The page's own item list
  // ---------------------------------------------------------------------

  /** An entry of the item select. The page keeps its own list rather than
      the inventory model's items. */
  datatype PickerItem = PickerItem(id: string, name: string, sku: string, category: string, currentStock: int)

  const PickerItems: seq<PickerItem> := [
    PickerItem("1", "Bath Towels", "BT-001", "Linens", 150),
    PickerItem("2", "Hand Soap", "HS-002", "Toiletries", 200),
    PickerItem("3", "Toilet Paper", "TP-003", "Toiletries", 300),
    PickerItem("4", "Bed Sheets", "BS-004", "Linens", 100),
    PickerItem("5", "Pillowcases", "PC-005", "Linens", 200),
    PickerItem("6", "Shampoo", "SH-006", "Toiletries", 250),
    PickerItem("7", "Coffee Pods", "CP-007", "Food & Beverage", 500),
    PickerItem("8", "Cleaning Solution", "CS-008", "Cleaning", 75)
  ]

  function PickerIds(items: seq<PickerItem>): (r: seq<string>)
    ensures |r| == |items| && forall i :: 0 <= i < |items| ==> r[i] == items[i].id
  {
    seq(|items|, i requires 0 <= i < |items| => items[i].id)
  }

  /** The select's ids are "1" to "8", the same ids as the inventory
      model's items, so none repeats. */
  lemma PickerIdsAreItemIds()
    ensures PickerIds(PickerItems) == ["1", "2", "3", "4", "5", "6", "7", "8"]
    ensures PickerIds(PickerItems) == ItemIds(SampleItems)
    ensures Distinct(PickerIds(PickerItems))
  {
    SampleItemIds();
  }

  /** The same id can name different things in the two lists: item "3" is
      toilet paper here and an all-purpose cleaner in the inventory model. */
  lemma PickerNamesDiffer()
    ensures PickerItems[2].id == SampleItems[2].id
    ensures PickerItems[2].name != SampleItems[2].name
  {
  }

  // ---------------------------------------------------------------------
  // The form's values and rules
  // ---------------------------------------------------------------------

  /** What the form holds. `kind` is the raw value of the type select;
      `dateParses` says whether the date text reads as a date. */
  datatype TransactionForm = TransactionForm(
    itemId: string,
    kind: string,
    quantity: real,
    dateParses: bool,
    notes: Option<string>,
    cost: Option<real>,
    supplierId: Option<string>,
    invoiceNumber: Option<string>,
    roomId: Option<string>,
    propertyId: string)

  /** The fields that carry a rule. The item id must only be a string, which
      every value of the field is, so it never fails. */
  datatype Field = Kind | Quantity | Date

  predicate FieldOk(f: TransactionForm, field: Field) {
    match field
    case Kind => f.kind in TypeNames
    case Quantity => f.quantity > 0.0
    case Date => f.dateParses
  }

  /** The message shown under a field that breaks its rule. */
  function Message(field: Field): string {
    match field
    case Kind => "Please select a transaction type."
    case Quantity => "Quantity must be a positive number."
    case Date => "Please enter a valid date."
  }

  /** The whole schema: one of the five kinds, a positive quantity and a
      date that parses; everything else is optional. */
  predicate Valid(f: TransactionForm) {
    ParseType(f.kind).Some? && f.quantity > 0.0 && f.dateParses
  }

  function Issue(f: TransactionForm, field: Field): seq<Field> {
    if FieldOk(f, field) then [] else [field]
  }

  /** The fields that break their rule, in form order. */
  function Errors(f: TransactionForm): (r: seq<Field>)
    ensures forall field :: field in r <==> !FieldOk(f, field)
  {
    Issue(f, Kind) + Issue(f, Quantity) + Issue(f, Date)
  }

  /** The form is accepted exactly when no field shows a message. */
  lemma ValidIffNoErrors(f: TransactionForm)
    ensures Valid(f) <==> Errors(f) == []
  {
    if Errors(f) != [] {
      assert Errors(f)[0] in Errors(f);
    }
  }

  /** The kind an accepted form records. */
  function KindOf(f: TransactionForm): (t: TransactionType)
    requires Valid(f)
    ensures TypeName(t) == f.kind
  {
    ParseType(f.kind).value
  }

  // ---------------------------------------------------------------------
  // Defaults
  // ---------------------------------------------------------------------

  /** The form as first shown: the item from the query when it names one,
      a delivery of one unit for property "1", dated today (today's date in
      ISO form, which always reads as a date). */
  function DefaultForm(itemIdFromQuery: Option<string>): (f: TransactionForm)
    ensures f.itemId == if itemIdFromQuery.Some? then itemIdFromQuery.value else ""
    ensures f.kind == "received" && f.quantity == 1.0 && f.propertyId == "1"
    ensures f.cost.None? && f.roomId == Some("") && f.supplierId == Some("")
  {
    TransactionForm(itemIdFromQuery.GetOr(""), "received", 1.0, true, Some(""), None, Some(""), Some(""),
                    Some(""), "1")
  }

  /** The untouched form is accepted, whatever the query says, even with no
      item chosen. */
  lemma DefaultAccepted(itemIdFromQuery: Option<string>)
    ensures Valid(DefaultForm(itemIdFromQuery))
    ensures Errors(DefaultForm(itemIdFromQuery)) == []
    ensures KindOf(DefaultForm(itemIdFromQuery)) == Received
  {
    ValidIffNoErrors(DefaultForm(itemIdFromQuery));
  }

  /** A quantity of zero, or a kind outside the five, is rejected. */
  lemma RejectedInputs(f: TransactionForm)
    ensures f.quantity <= 0.0 ==> Quantity in Errors(f) && !Valid(f)
    ensures f.kind !in TypeNames ==> Kind in Errors(f) && !Valid(f)
    ensures !f.dateParses ==> Date in Errors(f) && !Valid(f)
  {
  }

  // ---------------------------------------------------------------------
  // Fields shown per kind
  // ---------------------------------------------------------------------

  /** Cost, supplier and invoice number are shown for deliveries only. */
  predicate ShowsPurchaseFields(kind: string) {
    kind == "received"
  }

  /** The room is shown for usage and transfers. */
  predicate ShowsRoom(kind: string) {
    kind == "used" || kind == "transferred"
  }

  /** For each of the five kinds: deliveries show the purchase fields,
      usage and transfers the room, adjustments and damage neither; no kind
      shows both. */
  lemma FieldsPerKind(t: TransactionType)
    ensures ShowsPurchaseFields(TypeName(t)) <==> t == Received
    ensures ShowsRoom(TypeName(t)) <==> t == Used || t == Transferred
    ensures !(ShowsPurchaseFields(TypeName(t)) && ShowsRoom(TypeName(t)))
  {
  }

  // ---------------------------------------------------------------------
  // The selected item
  // ---------------------------------------------------------------------

  /** The item shown as selected: none while the id is empty, otherwise the
      first list entry with that id, if any. */
  function SelectedItem(items: seq<PickerItem>, itemId: string): (r: Option<PickerItem>)
    ensures itemId == "" ==> r.None?
    ensures itemId != "" ==> (r.None? <==> forall i :: 0 <= i < |items| ==> items[i].id != itemId)
    ensures r.Some? ==> r.value in items && r.value.id == itemId
  {
    if itemId == "" then None else Find(items, (item: PickerItem) => item.id == itemId)
  }

  /** With distinct ids, choosing an entry's id selects that entry. */
  lemma SelectingAnEntry(items: seq<PickerItem>, i: nat)
    requires i < |items| && items[i].id != ""
    requires Distinct(PickerIds(items))
    ensures SelectedItem(items, items[i].id) == Some(items[i])
  {
    var r := SelectedItem(items, items[i].id);
    var j :| 0 <= j < |items| && items[j] == r.value;
    assert PickerIds(items)[j] == PickerIds(items)[i];
  }

  /** In the page's list, each id selects its own entry. */
  lemma PickerSelection()
    ensures forall i :: 0 <= i < |PickerItems| ==> SelectedItem(PickerItems, PickerItems[i].id) == Some(PickerItems[i])
  {
    PickerIdsAreItemIds();
    forall i | 0 <= i < |PickerItems|
      ensures SelectedItem(PickerItems, PickerItems[i].id) == Some(PickerItems[i])
    {
      SelectingAnEntry(PickerItems, i);
    }
  }

  // ---------------------------------------------------------------------
  // Redirect
  // ---------------------------------------------------------------------

  const InventoryPath := "/dashboard/inventory"
  const ItemPagePrefix := "/dashboard/inventory/items/"

  /** Where a saved transaction leads: the item's page when an item was
      chosen, the inventory list otherwise. */
  function Redirect(itemId: string): (path: string)
    ensures StartsWith(path, InventoryPath)
    ensures itemId == "" ==> path == InventoryPath
    ensures itemId != "" ==> StartsWith(path, ItemPagePrefix) && path[|ItemPagePrefix|..] == itemId
  {
    if itemId != "" then ItemPagePrefix + itemId else InventoryPath
  }

  /** Different items lead to different pages. */
  lemma RedirectInjective(a: string, b: string)
    ensures Redirect(a) == Redirect(b) <==> a == b
  {
    if a != b {
      if a != "" && b != "" {
        assert Redirect(a)[|ItemPagePrefix|..] != Redirect(b)[|ItemPagePrefix|..];
      } else {
        assert |Redirect(a)| != |Redirect(b)|;
      }
    }
  }

  // ---------------------------------------------------------------------
  // The page
  // ---------------------------------------------------------------------

  class RecordTransactionPage {
    var values: TransactionForm
    var selectedItem: Option<PickerItem>
    var errors: seq<Field>
    var isSubmitting: bool

    /** The item list never changes, so the selected item always follows
        the form's item id. */
    predicate Synced()
      reads this
    {
      selectedItem == SelectedItem(PickerItems, values.itemId)
    }

    constructor(itemIdFromQuery: Option<string>)
      ensures values == DefaultForm(itemIdFromQuery) && errors == [] && !isSubmitting
      ensures Synced()
    {
      var initial := DefaultForm(itemIdFromQuery);
      values := initial;
      selectedItem := SelectedItem(PickerItems, initial.itemId);
      errors := [];
      isSubmitting := false;
    }

    /** The item select changes; the effect that watches the id then
        updates the selected item. */
    method ChooseItem(itemId: string)
      modifies this
      ensures values == old(values).(itemId := itemId)
      ensures Synced()
      ensures errors == old(errors) && isSubmitting == old(isSubmitting)
    {
      values := values.(itemId := itemId);
      selectedItem := SelectedItem(PickerItems, itemId);
    }

    /** Any other edit: the item id stays, and so does the selection. */
    method Edit(f: TransactionForm)
      requires f.itemId == values.itemId
      modifies this
      ensures values == f && selectedItem == old(selectedItem)
      ensures errors == old(errors) && isSubmitting == old(isSubmitting)
      ensures old(Synced()) ==> Synced()
    {
      values := f;
    }

    /** The "Record Transaction" button (disabled while a save is under
        way). The form is checked first; with a message to show, nothing is
        saved. Otherwise the save runs (`saveFails` says whether it throws);
        on success the page goes to `Redirect(itemId)`; either way
        `isSubmitting` ends false. */
    method Submit(saveFails: bool) returns (saved: Option<TransactionForm>, redirect: Option<string>)
      modifies this
      ensures old(isSubmitting) ==> saved.None? && redirect.None? && errors == old(errors) && isSubmitting
      ensures !old(isSubmitting) ==> errors == Errors(values)
      ensures saved.Some? <==> !old(isSubmitting) && Valid(values) && !saveFails
      ensures saved.Some? ==> saved.value == values
      ensures redirect.Some? <==> saved.Some?
      ensures redirect.Some? ==> redirect.value == Redirect(values.itemId)
      ensures !old(isSubmitting) ==> !isSubmitting
      ensures values == old(values) && selectedItem == old(selectedItem)
    {
      if isSubmitting {
        return None, None;
      }
      errors := Errors(values);
      ValidIffNoErrors(values);
      if errors != [] {
        return None, None;
      }
      isSubmitting := true;
      if saveFails {
        saved, redirect := None, None;
      } else {
        saved, redirect := Some(values), Some(Redirect(values.itemId));
      }
      isSubmitting := false;
    }
  }
}
