/** The inventory data model: categories, items, transactions and suppliers,
    with the sample data the inventory pages start from. Money and unit
    costs are exact decimals (`real`); stock levels are whole units. */
module Inventory {
  import opened Options
  import opened Seqs

  // ---------------------------------------------------------------------
  // Types
  // ---------------------------------------------------------------------

  datatype InventoryCategory = InventoryCategory(id: string, name: string, description: Option<string>)

  datatype InventoryItem = InventoryItem(
    id: string,
    name: string,
    categoryId: string,
    description: Option<string>,
    sku: string,
    unitOfMeasure: string,
    costPerUnit: real,
    currentStock: int,
    reorderPoint: int,
    reorderQuantity: int,
    location: Option<string>,
    propertyId: Option<string>,
    supplier: Option<string>)

  /** The five kinds of stock movement. */
  datatype TransactionType = Received | Used | Transferred | Adjusted | Damaged

  /** The wire name of a transaction kind. */
  function TypeName(t: TransactionType): (r: string)
    ensures r in TypeNames
  {
    match t
    case Received => "received"
    case Used => "used"
    case Transferred => "transferred"
    case Adjusted => "adjusted"
    case Damaged => "damaged"
  }

  const TypeNames: seq<string> := ["received", "used", "transferred", "adjusted", "damaged"]

  /** Reading a wire name back; anything else is not a transaction kind. */
  function ParseType(s: string): (r: Option<TransactionType>)
    ensures r.Some? <==> s in TypeNames
    ensures r.Some? ==> TypeName(r.value) == s
  {
    if s == "received" then Some(Received)
    else if s == "used" then Some(Used)
    else if s == "transferred" then Some(Transferred)
    else if s == "adjusted" then Some(Adjusted)
    else if s == "damaged" then Some(Damaged)
    else None
  }

  /** Writing a kind and reading it back gives the same kind. */
  lemma TypeNameRoundTrip(t: TransactionType)
    ensures ParseType(TypeName(t)) == Some(t)
  {
  }

  datatype InventoryTransaction = InventoryTransaction(
    id: string,
    itemId: string,
    kind: TransactionType,
    quantity: int,
    notes: Option<string>,
    userId: string,
    propertyId: string,
    roomId: Option<string>,
    cost: Option<real>,
    supplierId: Option<string>,
    invoiceNumber: Option<string>)

  datatype InventorySupplier = InventorySupplier(
    id: string,
    name: string,
    contactPerson: Option<string>,
    email: Option<string>,
    phone: Option<string>,
    address: Option<string>,
    website: Option<string>,
    notes: Option<string>)

  // ---------------------------------------------------------------------
  // Sample data
  // ---------------------------------------------------------------------

  const SampleCategories: seq<InventoryCategory> := [
    InventoryCategory("1", "Linens", Some("Bed sheets, towels, pillowcases, etc.")),
    InventoryCategory("2", "Toiletries", Some("Soaps, shampoos, toilet paper, etc.")),
    InventoryCategory("3", "Cleaning Supplies", Some("Detergents, disinfectants, etc.")),
    InventoryCategory("4", "Furniture", Some("Beds, chairs, tables, etc.")),
    InventoryCategory("5", "Electronics", Some("TVs, phones, alarm clocks, etc.")),
    InventoryCategory("6", "Kitchen Supplies", Some("Dishes, utensils, cookware, etc.")),
    InventoryCategory("7", "Maintenance", Some("Tools, spare parts, light bulbs, etc.")),
    InventoryCategory("8", "Amenities", Some("Coffee, tea, snacks, etc."))
  ]

  const SampleItems: seq<InventoryItem> := [
    InventoryItem("1", "Bath Towels", "1", Some("Standard white bath towels"), "LIN-BT-001", "piece",
                  12.99, 250, 50, 100, Some("Main Storage"), Some("1"), Some("Linen Suppliers Inc.")),
    InventoryItem("2", "Hand Soap", "2", Some("Luxury hand soap 250ml bottles"), "TOI-HS-001", "bottle",
                  3.49, 180, 40, 120, Some("Toiletries Storage"), Some("1"), Some("Clean & Fresh Co.")),
    InventoryItem("3", "All-Purpose Cleaner", "3", Some("Multi-surface cleaning solution 1L bottles"), "CLN-AP-001", "bottle",
                  5.99, 45, 15, 30, Some("Cleaning Supply Room"), Some("1"), Some("CleanPro Supplies")),
    InventoryItem("4", "Queen Bed Sheets", "1", Some("White 400 thread count queen size bed sheets"), "LIN-QS-001", "set",
                  29.99, 120, 30, 50, Some("Main Storage"), Some("1"), Some("Linen Suppliers Inc.")),
    InventoryItem("5", "Toilet Paper", "2", Some("2-ply toilet paper rolls"), "TOI-TP-001", "roll",
                  0.89, 350, 100, 200, Some("Toiletries Storage"), Some("1"), Some("Clean & Fresh Co.")),
    InventoryItem("6", "Light Bulbs", "7", Some("LED light bulbs 9W"), "MNT-LB-001", "piece",
                  4.29, 75, 20, 50, Some("Maintenance Room"), Some("1"), Some("ElectroParts Ltd.")),
    InventoryItem("7", "Coffee Pods", "8", Some("Single-serve coffee pods"), "AMN-CP-001", "pod",
                  0.45, 500, 150, 300, Some("Amenities Storage"), Some("1"), Some("Gourmet Supplies Co.")),
    InventoryItem("8", "Shampoo", "2", Some("Luxury shampoo 50ml bottles"), "TOI-SH-001", "bottle",
                  2.99, 200, 50, 150, Some("Toiletries Storage"), Some("1"), Some("Clean & Fresh Co."))
  ]

  const SampleTransactions: seq<InventoryTransaction> := [
    InventoryTransaction("1", "1", Received, 100, Some("Regular monthly order"), "1", "1",
                         None, Some(1299.0), Some("1"), Some("INV-2025-04-123")),
    InventoryTransaction("2", "1", Used, 10, Some("Replaced towels in rooms 101-110"), "3", "1",
                         Some("101"), None, None, None),
    InventoryTransaction("3", "2", Received, 120, Some("Regular order"), "1", "1",
                         None, Some(418.8), Some("2"), Some("INV-2025-04-145")),
    InventoryTransaction("4", "3", Used, 5, Some("Used for deep cleaning"), "4", "1",
                         None, None, None, None),
    InventoryTransaction("5", "5", Transferred, 50, Some("Transferred to Beach Resort property"), "1", "1",
                         None, None, None, None)
  ]

  const SampleSuppliers: seq<InventorySupplier> := [
    InventorySupplier("1", "Linen Suppliers Inc.", Some("John Smith"), Some("john@linensuppliers.com"),
                      Some("555-123-4567"), Some("123 Textile Ave, Fabric City, FC 12345"),
                      Some("www.linensuppliers.com"), None),
    InventorySupplier("2", "Clean & Fresh Co.", Some("Sarah Johnson"), Some("sarah@cleanfresh.com"),
                      Some("555-987-6543"), Some("456 Soap St, Cleanville, CV 67890"),
                      Some("www.cleanfresh.com"), None),
    InventorySupplier("3", "CleanPro Supplies", Some("Mike Wilson"), Some("mike@cleanpro.com"),
                      Some("555-456-7890"), Some("789 Cleaner Rd, Sparkle Town, ST 34567"),
                      Some("www.cleanprosupplies.com"), None),
    InventorySupplier("4", "ElectroParts Ltd.", Some("Lisa Chen"), Some("lisa@electroparts.com"),
                      Some("555-789-0123"), Some("321 Electric Ave, Circuit City, CC 45678"),
                      Some("www.electroparts.com"), None),
    InventorySupplier("5", "Gourmet Supplies Co.", Some("David Brown"), Some("david@gourmetsupplies.com"),
                      Some("555-234-5678"), Some("654 Flavor St, Tasteville, TV 89012"),
                      Some("www.gourmetsupplies.com"), None)
  ]

  // ---------------------------------------------------------------------
  // Id lists
  // ---------------------------------------------------------------------

  function CategoryIds(cs: seq<InventoryCategory>): (r: seq<string>)
    ensures |r| == |cs| && forall i :: 0 <= i < |cs| ==> r[i] == cs[i].id
  {
    seq(|cs|, i requires 0 <= i < |cs| => cs[i].id)
  }

  function ItemIds(items: seq<InventoryItem>): (r: seq<string>)
    ensures |r| == |items| && forall i :: 0 <= i < |items| ==> r[i] == items[i].id
  {
    seq(|items|, i requires 0 <= i < |items| => items[i].id)
  }

  function SupplierIds(ss: seq<InventorySupplier>): (r: seq<string>)
    ensures |r| == |ss| && forall i :: 0 <= i < |ss| ==> r[i] == ss[i].id
  {
    seq(|ss|, i requires 0 <= i < |ss| => ss[i].id)
  }

  // ---------------------------------------------------------------------
  // Facts about the sample data
  // ---------------------------------------------------------------------

  /** The sample category ids are "1" to "8", so none repeats. */
  lemma SampleCategoryIds()
    ensures CategoryIds(SampleCategories) == ["1", "2", "3", "4", "5", "6", "7", "8"]
    ensures Distinct(CategoryIds(SampleCategories))
  {
  }

  /** The sample item ids are "1" to "8", so none repeats. */
  lemma SampleItemIds()
    ensures ItemIds(SampleItems) == ["1", "2", "3", "4", "5", "6", "7", "8"]
    ensures Distinct(ItemIds(SampleItems))
  {
  }

  /** The sample supplier ids are "1" to "5", so none repeats. */
  lemma SampleSupplierIds()
    ensures SupplierIds(SampleSuppliers) == ["1", "2", "3", "4", "5"]
    ensures Distinct(SupplierIds(SampleSuppliers))
  {
  }

  /** Every sample item names a sample category. */
  lemma ItemCategoriesExist()
    ensures forall i :: 0 <= i < |SampleItems| ==> SampleItems[i].categoryId in CategoryIds(SampleCategories)
  {
    SampleCategoryIds();
  }

  /** Every sample transaction names a sample item, and every supplier it
      names is a sample supplier. */
  lemma TransactionReferencesExist()
    ensures forall i :: 0 <= i < |SampleTransactions| ==> SampleTransactions[i].itemId in ItemIds(SampleItems)
    ensures forall i :: 0 <= i < |SampleTransactions| && SampleTransactions[i].supplierId.Some? ==>
              SampleTransactions[i].supplierId.value in SupplierIds(SampleSuppliers)
  {
    SampleItemIds();
    SampleSupplierIds();
  }

  /** Deliveries carry a cost, a supplier and an invoice number; usage and
      transfers carry none of the three. */
  lemma TransactionDetails()
    ensures forall i :: 0 <= i < |SampleTransactions| && SampleTransactions[i].kind == Received ==>
              SampleTransactions[i].cost.Some? && SampleTransactions[i].supplierId.Some? &&
              SampleTransactions[i].invoiceNumber.Some?
    ensures forall i :: 0 <= i < |SampleTransactions| && SampleTransactions[i].kind in {Used, Transferred} ==>
              SampleTransactions[i].cost.None? && SampleTransactions[i].supplierId.None? &&
              SampleTransactions[i].invoiceNumber.None?
  {
  }

  /** Stock levels and reorder points are never negative; reorder and
      transaction quantities are positive; every sample item is above its
      reorder point. */
  lemma SampleQuantities()
    ensures forall i :: 0 <= i < |SampleItems| ==>
              0 <= SampleItems[i].reorderPoint < SampleItems[i].currentStock &&
              SampleItems[i].reorderQuantity > 0 && SampleItems[i].costPerUnit > 0.0
    ensures forall i :: 0 <= i < |SampleTransactions| ==> SampleTransactions[i].quantity > 0
  {
  }
}
