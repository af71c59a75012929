/** The dashboard's inventory table: the search-and-filter predicate applied to
    the inventory rows, and the two per-row classifiers it displays. */
module InventoryTable {
  import opened AsciiText

  /** One row of the table: a product as both platforms report it. */
  datatype InventoryItem = InventoryItem(
    name: string,
    sku: string,
    squareQuantity: int,
    shopifyQuantity: int)

  /** The filter modes the table's drop-down offers; any other value keeps
      every row that matches the search. */
  const AllMode := "all"
  const OutOfStockMode := "outOfStock"
  const LowStockMode := "lowStock"
  const SyncedMode := "synced"

  /** The stock threshold at or below which a quantity counts as low. */
  const LowStockLimit := 5

  /** Case-insensitive search: the term occurs in the name or in the SKU. */
  predicate MatchesSearch(item: InventoryItem, term: string) {
    Contains(Lower(item.name), Lower(term)) || Contains(Lower(item.sku), Lower(term))
  }

  /** The `switch (filter)` on a row that has matched the search. */
  predicate PassesMode(item: InventoryItem, mode: string) {
    if mode == OutOfStockMode then
      item.squareQuantity == 0 || item.shopifyQuantity == 0
    else if mode == LowStockMode then
      item.squareQuantity <= LowStockLimit || item.shopifyQuantity <= LowStockLimit
    else if mode == SyncedMode then
      item.squareQuantity == item.shopifyQuantity
    else
      true
  }

  predicate Kept(item: InventoryItem, term: string, mode: string) {
    MatchesSearch(item, term) && PassesMode(item, mode)
  }

  /** `filteredInventory`: the rows the table shows, in their original order.
      Every occurrence of a kept row is shown, and no other row. */
  function FilterInventory(items: seq<InventoryItem>, term: string, mode: string): (r: seq<InventoryItem>)
    ensures |r| <= |items|
    ensures forall x :: x in r <==> x in items && Kept(x, term, mode)
    ensures forall x :: multiset(r)[x] == if Kept(x, term, mode) then multiset(items)[x] else 0
    decreases |items|
  {
    if items == [] then []
    else
      assert items == [items[0]] + items[1..];
      (if Kept(items[0], term, mode) then [items[0]] else []) + FilterInventory(items[1..], term, mode)
  }

  /** `a` is obtained from `b` by deleting elements, keeping the order. */
  predicate IsSubsequence<T(==)>(a: seq<T>, b: seq<T>)
    decreases |b|
  {
    if b == [] then a == []
    else (a != [] && a[0] == b[0] && IsSubsequence(a[1..], b[1..])) || IsSubsequence(a, b[1..])
  }

  /** The filtered rows are an order-preserving subsequence of the rows. */
  lemma {:induction false} FilterIsSubsequence(items: seq<InventoryItem>, term: string, mode: string)
    ensures IsSubsequence(FilterInventory(items, term, mode), items)
    decreases |items|
  {
    if items != [] {
      FilterIsSubsequence(items[1..], term, mode);
      var rest := FilterInventory(items[1..], term, mode);
      if Kept(items[0], term, mode) {
        assert FilterInventory(items, term, mode) == [items[0]] + rest;
        assert ([items[0]] + rest)[1..] == rest;
      } else {
        assert FilterInventory(items, term, mode) == rest;
      }
    }
  }

  /** With the same search term, every row shown under "out of stock" is also
      shown under "low stock", in the same order. */
  lemma {:induction false} OutOfStockWithinLowStock(items: seq<InventoryItem>, term: string)
    ensures IsSubsequence(FilterInventory(items, term, OutOfStockMode), FilterInventory(items, term, LowStockMode))
    decreases |items|
  {
    if items != [] {
      OutOfStockWithinLowStock(items[1..], term);
      var out := FilterInventory(items[1..], term, OutOfStockMode);
      var low := FilterInventory(items[1..], term, LowStockMode);
      if Kept(items[0], term, OutOfStockMode) {
        assert FilterInventory(items, term, OutOfStockMode) == [items[0]] + out;
        assert FilterInventory(items, term, LowStockMode) == [items[0]] + low;
        assert ([items[0]] + out)[1..] == out;
        assert ([items[0]] + low)[1..] == low;
      } else if Kept(items[0], term, LowStockMode) {
        assert FilterInventory(items, term, OutOfStockMode) == out;
        assert FilterInventory(items, term, LowStockMode) == [items[0]] + low;
        assert ([items[0]] + low)[1..] == low;
      } else {
        assert FilterInventory(items, term, OutOfStockMode) == out;
        assert FilterInventory(items, term, LowStockMode) == low;
      }
    }
  }

  /** An empty search term matches every row, so the "all" mode shows the
      whole inventory. */
  lemma {:induction false} EmptySearchShowsAll(items: seq<InventoryItem>)
    ensures FilterInventory(items, "", AllMode) == items
    decreases |items|
  {
    if items != [] {
      ContainsEmpty(Lower(items[0].name));
      EmptySearchShowsAll(items[1..]);
    }
  }

  /** A mode the `switch` does not name behaves like "all". */
  lemma {:induction false} UnknownModeIsAll(items: seq<InventoryItem>, term: string, mode: string)
    requires mode != OutOfStockMode && mode != LowStockMode && mode != SyncedMode
    ensures FilterInventory(items, term, mode) == FilterInventory(items, term, AllMode)
    decreases |items|
  {
    if items != [] {
      UnknownModeIsAll(items[1..], term, mode);
    }
  }

  /** `getQuantityStatus`: the status label of a row. */
  function QuantityStatus(squareQty: int, shopifyQty: int): (r: string)
    ensures r == "synced" || r == "out-of-sync"
    ensures r == "synced" <==> squareQty == shopifyQty
  {
    if squareQty == shopifyQty then "synced" else "out-of-sync"
  }

  /** `getStockLevel`: the stock label of one quantity. Negative quantities are
      labelled low, as the `<= 5` test lets them through. */
  function StockLevel(quantity: int): (r: string)
    ensures r == "Out of Stock" <==> quantity == 0
    ensures r == "Low Stock" <==> quantity != 0 && quantity <= LowStockLimit
    ensures r == "In Stock" <==> quantity > LowStockLimit
  {
    if quantity == 0 then "Out of Stock"
    else if quantity <= LowStockLimit then "Low Stock"
    else "In Stock"
  }

  /** The "synced" mode shows exactly the matching rows whose status label is
      "synced". */
  lemma SyncedModeAgreesWithStatus(item: InventoryItem, term: string)
    ensures Kept(item, term, SyncedMode) <==>
            MatchesSearch(item, term) && QuantityStatus(item.squareQuantity, item.shopifyQuantity) == "synced"
  {
  }

  /** The "out of stock" and "low stock" modes show exactly the matching rows
      where either quantity carries the corresponding stock label (or a
      stricter one). */
  lemma StockModesAgreeWithLevels(item: InventoryItem, term: string)
    ensures Kept(item, term, OutOfStockMode) <==>
            MatchesSearch(item, term) &&
            (StockLevel(item.squareQuantity) == "Out of Stock" || StockLevel(item.shopifyQuantity) == "Out of Stock")
    ensures Kept(item, term, LowStockMode) <==>
            MatchesSearch(item, term) &&
            (StockLevel(item.squareQuantity) != "In Stock" || StockLevel(item.shopifyQuantity) != "In Stock")
  {
  }
}
