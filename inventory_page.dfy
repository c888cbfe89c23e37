/** The inventory dashboard: the low-stock rule and its tab, the category
    column's label and filter, the location filter and the category cards. */
module InventoryPage {
  import opened Options
  import opened Seqs
  import opened Inventory

  // ---------------------------------------------------------------------
  // Low stock
  // ---------------------------------------------------------------------

  /** An item needs reordering once its stock is at or below its reorder
      point; reaching the point exactly already counts. */
  predicate IsLowStock(item: InventoryItem) {
    item.currentStock <= item.reorderPoint
  }

  /** The "Low Stock" tab: the low items, in list order. */
  function LowStockItems(items: seq<InventoryItem>): (r: seq<InventoryItem>)
    ensures IsSubsequence(r, items)
    ensures forall item :: item in r <==> item in items && IsLowStock(item)
  {
    FilterIsSubsequence(items, IsLowStock);
    Filter(items, IsLowStock)
  }

  /** The "Low Stock Items" card: the length of the tab's list, never more
      than the "Total Items" card, and zero exactly when nothing is low. */
  function LowStockCount(items: seq<InventoryItem>): (n: nat)
    ensures n <= |items|
    ensures n == 0 <==> forall i :: 0 <= i < |items| ==> !IsLowStock(items[i])
  {
    var low := LowStockItems(items);
    if low != [] then assert low[0] in low; |low| else |low|
  }

  /** The tab over two lists is the tabs over each, one after the other. */
  lemma LowStockAppend(a: seq<InventoryItem>, b: seq<InventoryItem>)
    ensures LowStockItems(a + b) == LowStockItems(a) + LowStockItems(b)
    ensures LowStockCount(a + b) == LowStockCount(a) + LowStockCount(b)
  {
    FilterAppend(a, b, IsLowStock);
  }

  /** A list with no item at or below its reorder point has an empty tab. */
  lemma NothingLow(items: seq<InventoryItem>)
    requires forall i :: 0 <= i < |items| ==> items[i].currentStock > items[i].reorderPoint
    ensures LowStockItems(items) == []
    ensures LowStockCount(items) == 0
  {
    FilterRejectsAll(items, IsLowStock);
  }

  /** The sample stock starts with nothing to reorder. */
  lemma SampleNothingLow()
    ensures LowStockItems(SampleItems) == []
    ensures LowStockCount(SampleItems) == 0
  {
    SampleQuantities();
    NothingLow(SampleItems);
  }

  // ---------------------------------------------------------------------
  // The category column
  // ---------------------------------------------------------------------

  /** The names the category column shows. */
  const CategoryNames: map<string, string> := map[
    "1" := "Linens", "2" := "Toiletries", "3" := "Cleaning Supplies", "4" := "Furniture",
    "5" := "Electronics", "6" := "Kitchen Supplies", "7" := "Maintenance", "8" := "Amenities"]

  /** `categoryMap[categoryId] || categoryId`: the name when there is one,
      the raw id otherwise. */
  function CategoryLabel(categoryId: string): (r: string)
    ensures categoryId in CategoryNames ==> r == CategoryNames[categoryId]
    ensures categoryId !in CategoryNames ==> r == categoryId
  {
    if categoryId in CategoryNames && CategoryNames[categoryId] != "" then CategoryNames[categoryId]
    else categoryId
  }

  /** The column's names are the sample categories' names, for exactly the
      sample category ids. */
  lemma CategoryLabelsMatchCategories()
    ensures CategoryNames.Keys == {"1", "2", "3", "4", "5", "6", "7", "8"}
    ensures forall i :: 0 <= i < |SampleCategories| ==> CategoryLabel(SampleCategories[i].id) == SampleCategories[i].name
  {
  }

  // ---------------------------------------------------------------------
  // Column filters
  // ---------------------------------------------------------------------

  /** The two columns with a value-list filter. */
  datatype FilterColumn = CategoryColumn | LocationColumn

  /** `row.getValue(id)` for those columns; an item without a location has
      no value. */
  function RowValue(item: InventoryItem, column: FilterColumn): Option<string> {
    match column
    case CategoryColumn => Some(item.categoryId)
    case LocationColumn => item.location
  }

  /** `filterFn`: the row's value is one of the selected values. */
  predicate FilterFn(item: InventoryItem, column: FilterColumn, selected: seq<string>) {
    RowValue(item, column).Some? && Includes(selected, RowValue(item, column).value)
  }

  /** The rows a column filter leaves, in order. */
  function ColumnFilter(items: seq<InventoryItem>, column: FilterColumn, selected: seq<string>): (r: seq<InventoryItem>)
    ensures IsSubsequence(r, items)
    ensures forall item :: item in r <==>
              item in items && RowValue(item, column).Some? && RowValue(item, column).value in selected
  {
    FilterIsSubsequence(items, item => FilterFn(item, column, selected));
    Filter(items, item => FilterFn(item, column, selected))
  }

  /** Selecting nothing hides every row; selecting more values never hides
      a row. */
  lemma ColumnFilterSelection(items: seq<InventoryItem>, column: FilterColumn, fewer: seq<string>, more: seq<string>)
    requires forall v :: v in fewer ==> v in more
    ensures ColumnFilter(items, column, []) == []
    ensures IsSubsequence(ColumnFilter(items, column, fewer), ColumnFilter(items, column, more))
  {
    FilterRejectsAll(items, item => FilterFn(item, column, []));
    FilterStronger(items, item => FilterFn(item, column, fewer), item => FilterFn(item, column, more));
  }

  // ---------------------------------------------------------------------
  // The category cards
  // ---------------------------------------------------------------------

  /** One card: a category, its item count and its stock value. */
  datatype CategorySummary = CategorySummary(id: string, name: string, count: nat, value: real)

  /** The items of one category. */
  function ItemsIn(items: seq<InventoryItem>, categoryId: string): (r: seq<InventoryItem>)
    ensures forall item :: item in r <==> item in items && item.categoryId == categoryId
  {
    Filter(items, (item: InventoryItem) => item.categoryId == categoryId)
  }

  /** The stock value of one item: its stock times its unit cost. */
  function ItemValue(item: InventoryItem): (v: real)
    ensures item.currentStock >= 0 && item.costPerUnit >= 0.0 ==> v >= 0.0
  {
    item.currentStock as real * item.costPerUnit
  }

  /** The stock value of a list of items, summed. */
  function StockValue(items: seq<InventoryItem>): (v: real)
    ensures (forall i :: 0 <= i < |items| ==> items[i].currentStock >= 0 && items[i].costPerUnit >= 0.0) ==> v >= 0.0
  {
    if items == [] then 0.0
    else ItemValue(items[0]) + StockValue(items[1..])
  }

  /** The cards as written into the page. */
  const WrittenSummaries: seq<CategorySummary> := [
    CategorySummary("1", "Linens", 2, 4798.8),
    CategorySummary("2", "Toiletries", 3, 1255.7),
    CategorySummary("3", "Cleaning Supplies", 1, 269.55),
    CategorySummary("4", "Furniture", 0, 0.0),
    CategorySummary("5", "Electronics", 0, 0.0),
    CategorySummary("6", "Kitchen Supplies", 0, 0.0),
    CategorySummary("7", "Maintenance", 1, 321.75),
    CategorySummary("8", "Amenities", 1, 225.0)
  ]

  /** The cards worked out from the items: one per category, counting its
      items and summing their stock value. */
  function Summaries(categories: seq<InventoryCategory>, items: seq<InventoryItem>): (r: seq<CategorySummary>)
    ensures |r| == |categories|
    ensures forall i :: 0 <= i < |r| ==>
              r[i].id == categories[i].id && r[i].name == categories[i].name &&
              r[i].count == |ItemsIn(items, categories[i].id)| &&
              r[i].value == StockValue(ItemsIn(items, categories[i].id))
  {
    seq(|categories|, i requires 0 <= i < |categories| =>
      CategorySummary(categories[i].id, categories[i].name,
                      |ItemsIn(items, categories[i].id)|, StockValue(ItemsIn(items, categories[i].id))))
  }

  // Counting and summing over the sample data goes through two projections
  // of the item list, which the verifier can evaluate.

  /** The category of each item, in list order. */
  function CategoryKeys(items: seq<InventoryItem>): (r: seq<string>)
    ensures |r| == |items| && forall i :: 0 <= i < |items| ==> r[i] == items[i].categoryId
  {
    seq(|items|, i requires 0 <= i < |items| => items[i].categoryId)
  }

  /** The stock value of each item, in list order. */
  function ItemValues(items: seq<InventoryItem>): (r: seq<real>)
    ensures |r| == |items| && forall i :: 0 <= i < |items| ==> r[i] == ItemValue(items[i])
  {
    seq(|items|, i requires 0 <= i < |items| => ItemValue(items[i]))
  }

  /** The sum of `values[j]` for the `j >= i` whose key is `id`. */
  function SumFrom(keys: seq<string>, values: seq<real>, id: string, i: nat): real
    requires |keys| == |values| && i <= |keys|
    decreases |keys| - i
  {
    if i == |keys| then 0.0 else (if keys[i] == id then values[i] else 0.0) + SumFrom(keys, values, id, i + 1)
  }

  /** Counting keys is counting the items of the category. */
  lemma {:induction false} CountFromItems(items: seq<InventoryItem>, id: string, i: nat)
    requires i <= |items|
    ensures CountFrom(CategoryKeys(items), id, i) == |ItemsIn(items[i..], id)|
    decreases |items| - i
  {
    if i < |items| {
      CountFromItems(items, id, i + 1);
      assert items[i..][1..] == items[i + 1..];
    }
  }

  /** Summing values by key is the stock value of the category's items. */
  lemma {:induction false} SumFromItems(items: seq<InventoryItem>, id: string, i: nat)
    requires i <= |items|
    ensures SumFrom(CategoryKeys(items), ItemValues(items), id, i) == StockValue(ItemsIn(items[i..], id))
    decreases |items| - i
  {
    if i < |items| {
      SumFromItems(items, id, i + 1);
      assert items[i..][1..] == items[i + 1..];
      var rest := ItemsIn(items[i + 1..], id);
      if items[i].categoryId == id {
        assert ItemsIn(items[i..], id) == [items[i]] + rest;
        assert ([items[i]] + rest)[1..] == rest;
      }
    }
  }

  const SampleKeys: seq<string> := ["1", "2", "3", "1", "2", "7", "8", "2"]
  const SampleValues: seq<real> := [3247.5, 628.2, 269.55, 3598.8, 311.5, 321.75, 225.0, 598.0]

  /** The two projections of the sample items. */
  lemma SampleProjections()
    ensures CategoryKeys(SampleItems) == SampleKeys
    ensures ItemValues(SampleItems) == SampleValues
  {
  }

  /** One category's count and value read off the two projections. */
  lemma CardFromProjections(items: seq<InventoryItem>, id: string)
    ensures |ItemsIn(items, id)| == CountFrom(CategoryKeys(items), id, 0)
    ensures StockValue(ItemsIn(items, id)) == SumFrom(CategoryKeys(items), ItemValues(items), id, 0)
  {
    CountFromItems(items, id, 0);
    SumFromItems(items, id, 0);
    assert items[0..] == items;
  }

  /** Every card's count and value can be read off the two projections. */
  lemma CardsFromProjections(categories: seq<InventoryCategory>, items: seq<InventoryItem>)
    ensures forall i :: 0 <= i < |categories| ==>
              Summaries(categories, items)[i].count == CountFrom(CategoryKeys(items), categories[i].id, 0) &&
              Summaries(categories, items)[i].value == SumFrom(CategoryKeys(items), ItemValues(items), categories[i].id, 0)
  {
    forall i | 0 <= i < |categories|
      ensures Summaries(categories, items)[i].count == CountFrom(CategoryKeys(items), categories[i].id, 0)
      ensures Summaries(categories, items)[i].value == SumFrom(CategoryKeys(items), ItemValues(items), categories[i].id, 0)
    {
      CardFromProjections(items, categories[i].id);
    }
  }

  /** Counting the sample projection per written card. */
  lemma ProjectedCounts()
    ensures forall i :: 0 <= i < |WrittenSummaries| ==>
              CountFrom(SampleKeys, WrittenSummaries[i].id, 0) == WrittenSummaries[i].count
  {
  }

  /** Summing the sample projection per written card: the last six agree. */
  lemma ProjectedValues()
    ensures forall i :: 2 <= i < |WrittenSummaries| ==>
              SumFrom(SampleKeys, SampleValues, WrittenSummaries[i].id, 0) == WrittenSummaries[i].value
  {
  }

  /** Summing the sample projection for the first two cards. */
  lemma ProjectedValuesDiffer()
    ensures SumFrom(SampleKeys, SampleValues, WrittenSummaries[0].id, 0) == 6846.3 != WrittenSummaries[0].value
    ensures SumFrom(SampleKeys, SampleValues, WrittenSummaries[1].id, 0) == 1537.7 != WrittenSummaries[1].value
  {
  }

  /** Any item list with the sample's categories and stock values has the
      written counts, and all the written values but the first two. */
  lemma CardsOfSampleShape(items: seq<InventoryItem>)
    requires CategoryKeys(items) == SampleKeys && ItemValues(items) == SampleValues
    ensures forall i :: 0 <= i < |WrittenSummaries| ==>
              |ItemsIn(items, WrittenSummaries[i].id)| == WrittenSummaries[i].count
    ensures forall i :: 2 <= i < |WrittenSummaries| ==>
              StockValue(ItemsIn(items, WrittenSummaries[i].id)) == WrittenSummaries[i].value
    ensures StockValue(ItemsIn(items, WrittenSummaries[0].id)) == 6846.3
    ensures StockValue(ItemsIn(items, WrittenSummaries[1].id)) == 1537.7
    ensures StockValue(ItemsIn(items, WrittenSummaries[0].id)) != WrittenSummaries[0].value
    ensures StockValue(ItemsIn(items, WrittenSummaries[1].id)) != WrittenSummaries[1].value
  {
    ProjectedCounts();
    ProjectedValues();
    ProjectedValuesDiffer();
    forall i | 0 <= i < |WrittenSummaries|
      ensures |ItemsIn(items, WrittenSummaries[i].id)| == CountFrom(SampleKeys, WrittenSummaries[i].id, 0)
      ensures StockValue(ItemsIn(items, WrittenSummaries[i].id)) == SumFrom(SampleKeys, SampleValues, WrittenSummaries[i].id, 0)
    {
      CardFromProjections(items, WrittenSummaries[i].id);
    }
  }

  /** The cards worked out from the sample items agree with the written ones
      in every count, and in every value but those of Linens and Toiletries. */
  lemma SampleCards()
    ensures forall i :: 0 <= i < |WrittenSummaries| ==>
              |ItemsIn(SampleItems, WrittenSummaries[i].id)| == WrittenSummaries[i].count
    ensures forall i :: 2 <= i < |WrittenSummaries| ==>
              StockValue(ItemsIn(SampleItems, WrittenSummaries[i].id)) == WrittenSummaries[i].value
  {
    SampleProjections();
    CardsOfSampleShape(SampleItems);
  }

  /** The Linens and Toiletries cards as written (4798.8 and 1255.7) are not
      the stock value of their items (6846.3 and 1537.7, by
      CardsOfSampleShape). */
  lemma WrittenValuesDiffer()
    ensures StockValue(ItemsIn(SampleItems, WrittenSummaries[0].id)) != WrittenSummaries[0].value
    ensures StockValue(ItemsIn(SampleItems, WrittenSummaries[1].id)) != WrittenSummaries[1].value
  {
    SampleProjections();
    CardsOfSampleShape(SampleItems);
  }

  /** The written cards are in the order of the sample categories and carry
      their names. */
  lemma WrittenCardsFollowCategories()
    ensures |WrittenSummaries| == |SampleCategories|
    ensures forall i :: 0 <= i < |WrittenSummaries| ==>
              WrittenSummaries[i].id == SampleCategories[i].id && WrittenSummaries[i].name == SampleCategories[i].name
  {
  }
}
