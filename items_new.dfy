/** The "Add Inventory Item" form: the field rules it checks before saving,
    the values it starts from, and the submit handler's `isSubmitting`
    flag and redirect. */
module NewInventoryItem {
  import opened Options
  import opened Seqs
  import opened Inventory
  import opened Strings

  // ---------------------------------------------------------------------
  // The form's values
  // ---------------------------------------------------------------------

  /** What the form holds. The number fields are read with `Number(...)`
      before they are checked; `None` stands for an input that does not
      read as a number. A select that was never touched holds nothing. */
  datatype ItemForm = ItemForm(
    name: string,
    categoryId: Option<string>,
    description: Option<string>,
    sku: string,
    unitOfMeasure: string,
    costPerUnit: Option<real>,
    currentStock: Option<real>,
    reorderPoint: Option<real>,
    reorderQuantity: Option<real>,
    location: Option<string>,
    propertyId: Option<string>,
    supplier: Option<string>)

  /** The fields that carry a rule; the optional text fields carry none. */
  datatype Field = Name | CategoryId | Sku | UnitOfMeasure | CostPerUnit | CurrentStock | ReorderPoint | ReorderQuantity

  /** The checked fields in the order the form declares them. */
  const CheckedFields: seq<Field> :=
    [Name, CategoryId, Sku, UnitOfMeasure, CostPerUnit, CurrentStock, ReorderPoint, ReorderQuantity]

  /** A number that is there and is above zero. */
  predicate Positive(x: Option<real>) {
    x.Some? && x.value > 0.0
  }

  /** A number that is there and is not below zero. */
  predicate Nonnegative(x: Option<real>) {
    x.Some? && x.value >= 0.0
  }

  /** The rule of one field. Text lengths are counted in UTF-16 code
      units, as a string's `length` is. */
  predicate FieldOk(f: ItemForm, field: Field) {
    match field
    case Name => JsLength(f.name) >= 2
    case CategoryId => f.categoryId.Some?
    case Sku => JsLength(f.sku) >= 3
    case UnitOfMeasure => JsLength(f.unitOfMeasure) >= 1
    case CostPerUnit => Positive(f.costPerUnit)
    case CurrentStock => Nonnegative(f.currentStock)
    case ReorderPoint => Nonnegative(f.reorderPoint)
    case ReorderQuantity => Positive(f.reorderQuantity)
  }

  /** The message shown under a field that breaks its rule. */
  function Message(field: Field): string {
    match field
    case Name => "Item name must be at least 2 characters."
    case CategoryId => "Please select a category."
    case Sku => "SKU must be at least 3 characters."
    case UnitOfMeasure => "Unit of measure is required."
    case CostPerUnit => "Cost must be a positive number."
    case CurrentStock => "Stock cannot be negative."
    case ReorderPoint => "Reorder point cannot be negative."
    case ReorderQuantity => "Reorder quantity must be positive."
  }

  /** The whole schema: every field keeps its rule. */
  predicate Valid(f: ItemForm) {
    JsLength(f.name) >= 2 && f.categoryId.Some? && JsLength(f.sku) >= 3 && JsLength(f.unitOfMeasure) >= 1 &&
    Positive(f.costPerUnit) && Nonnegative(f.currentStock) && Nonnegative(f.reorderPoint) &&
    Positive(f.reorderQuantity)
  }

  /** The one-field list of `field` when it breaks its rule. */
  function Issue(f: ItemForm, field: Field): seq<Field> {
    if FieldOk(f, field) then [] else [field]
  }

  /** The fields that break their rule, in form order. */
  function Errors(f: ItemForm): (r: seq<Field>)
    ensures forall field :: field in r <==> !FieldOk(f, field)
  {
    Issue(f, Name) + Issue(f, CategoryId) + Issue(f, Sku) + Issue(f, UnitOfMeasure) +
    Issue(f, CostPerUnit) + Issue(f, CurrentStock) + Issue(f, ReorderPoint) + Issue(f, ReorderQuantity)
  }

  /** The form is accepted exactly when no field shows a message. */
  lemma ValidIffNoErrors(f: ItemForm)
    ensures Valid(f) <==> Errors(f) == []
  {
    if Errors(f) != [] {
      assert Errors(f)[0] in Errors(f);
    }
    if !Valid(f) {
      var field :| field in CheckedFields && !FieldOk(f, field);
      assert field in Errors(f);
    }
  }

  /** Zero is a valid stock level and reorder point but not a valid cost or
      reorder quantity; a number field that does not read as a number is
      always rejected. */
  lemma ZeroBoundaries(f: ItemForm)
    ensures f.currentStock == Some(0.0) ==> CurrentStock !in Errors(f)
    ensures f.reorderPoint == Some(0.0) ==> ReorderPoint !in Errors(f)
    ensures f.costPerUnit == Some(0.0) ==> CostPerUnit in Errors(f)
    ensures f.reorderQuantity == Some(0.0) ==> ReorderQuantity in Errors(f)
    ensures f.costPerUnit.None? ==> CostPerUnit in Errors(f)
    ensures f.currentStock.None? ==> CurrentStock in Errors(f)
  {
  }

  /** The category only has to be chosen: any chosen id passes its rule. */
  /** A name of one emoji is one character yet two code units long, so it
      passes the two-character rule. */
  lemma AstralNameAccepted(f: ItemForm)
    requires f.name == "\U{1F600}"
    ensures |f.name| == 1 && Name !in Errors(f)
  {
    AstralLength();
  }

  lemma AnyChosenCategory(f: ItemForm, id: string)
    ensures CategoryId !in Errors(f.(categoryId := Some(id)))
    ensures CategoryId in Errors(f.(categoryId := None))
  {
  }

  // ---------------------------------------------------------------------
  // Defaults and the unit select
  // ---------------------------------------------------------------------

  /** The form as first shown: no category and no property chosen, unit
      "piece", zero in every number field. */
  const DefaultForm := ItemForm("", None, Some(""), "", "piece", Some(0.0), Some(0.0), Some(0.0), Some(0.0),
                                Some(""), None, Some(""))

  /** Submitting the untouched form shows five messages: name, category,
      SKU, cost and reorder quantity. */
  lemma DefaultErrors()
    ensures Errors(DefaultForm) == [Name, CategoryId, Sku, CostPerUnit, ReorderQuantity]
    ensures !Valid(DefaultForm)
  {
    ValidIffNoErrors(DefaultForm);
  }

  /** The values the unit select offers. */
  const UnitOptions: seq<string> := ["piece", "set", "box", "bottle", "roll", "pack", "case", "kg", "liter"]

  /** What the form holds when filled in from an existing item. */
  function FormOf(item: InventoryItem): ItemForm {
    ItemForm(item.name, Some(item.categoryId), item.description, item.sku, item.unitOfMeasure,
             Some(item.costPerUnit), Some(item.currentStock as real), Some(item.reorderPoint as real),
             Some(item.reorderQuantity as real), item.location, item.propertyId, item.supplier)
  }

  /** An item with a long enough name and SKU, a unit, a positive cost and
      reorder quantity and no negative stock or reorder point passes. */
  lemma ItemPasses(item: InventoryItem)
    requires JsLength(item.name) >= 2 && JsLength(item.sku) >= 3 && item.unitOfMeasure != ""
    requires item.costPerUnit > 0.0 && item.currentStock >= 0 && item.reorderPoint >= 0 && item.reorderQuantity > 0
    ensures Valid(FormOf(item)) && Errors(FormOf(item)) == []
  {
    ValidIffNoErrors(FormOf(item));
  }

  /** Every sample item would pass the form. */
  lemma SampleItemsPass()
    ensures forall i :: 0 <= i < |SampleItems| ==> Valid(FormOf(SampleItems[i]))
  {
    SampleQuantities();
    SampleTexts();
    forall i | 0 <= i < |SampleItems|
      ensures Valid(FormOf(SampleItems[i]))
    {
      ItemPasses(SampleItems[i]);
    }
  }

  /** The sample names and SKUs are long enough and every unit is given. */
  lemma SampleTexts()
    ensures forall i :: 0 <= i < |SampleItems| ==>
              |SampleItems[i].name| >= 2 && |SampleItems[i].sku| >= 3 && SampleItems[i].unitOfMeasure != ""
  {
  }

  /** The unit is only checked for being there: the coffee pods' unit "pod"
      is not one the select offers, yet that item passes. */
  lemma UnitNotCheckedAgainstOptions()
    ensures SampleItems[6].unitOfMeasure !in UnitOptions
    ensures Valid(FormOf(SampleItems[6]))
  {
    SampleItemsPass();
    PodNotOffered(SampleItems[6].unitOfMeasure);
  }

  lemma PodNotOffered(unit: string)
    requires unit == "pod"
    ensures unit !in UnitOptions
  {
  }

  // ---------------------------------------------------------------------
  // The page
  // ---------------------------------------------------------------------

  /** Where the page goes after a save, and where "Back" and "Cancel" lead. */
  const InventoryPath := "/dashboard/inventory"

  class AddInventoryItemPage {
    var values: ItemForm
    var errors: seq<Field>
    var isSubmitting: bool

    constructor()
      ensures values == DefaultForm && errors == [] && !isSubmitting
    {
      values := DefaultForm;
      errors := [];
      isSubmitting := false;
    }

    /** The user edits the form; the messages stay until the next submit. */
    method Edit(f: ItemForm)
      modifies this
      ensures values == f && errors == old(errors) && isSubmitting == old(isSubmitting)
    {
      values := f;
    }

    /** The "Create Item" button (disabled while a save is under way). The
        form is checked first; with a message to show, nothing is saved.
        Otherwise the save runs (`saveFails` says whether it throws); on
        success the page redirects to the inventory list; either way
        `isSubmitting` ends false. */
    method Submit(saveFails: bool) returns (saved: Option<ItemForm>, redirect: Option<string>)
      modifies this
      ensures old(isSubmitting) ==> saved.None? && redirect.None? && errors == old(errors) && isSubmitting
      ensures !old(isSubmitting) ==> errors == Errors(values)
      ensures saved.Some? <==> !old(isSubmitting) && Valid(values) && !saveFails
      ensures saved.Some? ==> saved.value == values
      ensures redirect.Some? <==> saved.Some?
      ensures redirect.Some? ==> redirect.value == InventoryPath
      ensures !old(isSubmitting) ==> !isSubmitting
      ensures values == old(values)
    {
      if isSubmitting {
        return None, None;
      }
      errors := Errors(values);
      ValidIffNoErrors(values);
      if errors != [] {
        return None, None;
      }
      isSubmitting := true;
      if saveFails {
        saved, redirect := None, None;
      } else {
        saved, redirect := Some(values), Some(InventoryPath);
      }
      isSubmitting := false;
    }
  }
}
