/** `performSync`: the inventory reconciliation pass. It first builds a lookup
    map from the Square catalog, keyed by variation SKU (or item name), whose
    values carry the summed inventory counts; then it walks every Shopify
    variant and, for each one whose key is in the map and that has an
    inventory item, pushes the Square quantity to Shopify.

    The platform calls are given as data: `countsOf` is what Square's
    inventory-count call answers for a variation id, `updateOf` is how
    Shopify's set-inventory-level call ends for an inventory item id. */
module Reconciliation {
  import opened Outcomes

  // ---------------------------------------------------------------- Square

  /** A catalog variation: its `id` and `itemVariationData.sku`, where "" stands
      for a variation data or SKU that is absent or empty (both are falsy). */
  datatype SquareVariation = SquareVariation(id: string, sku: string)

  /** `item.itemData`: the item's `name` ("" when absent) and its variations
      (an absent list iterates like an empty one). */
  datatype ItemData = ItemData(name: string, variations: seq<SquareVariation>)

  datatype SquareItem = SquareItem(itemData: Option<ItemData>)

  /** One inventory count; a missing `quantity` is read as 0. */
  datatype InventoryCount = InventoryCount(quantity: Option<int>, locationId: string)

  /** What `getInventoryCount(variation.id)` does: return counts or throw. */
  datatype CountReply = Counts(counts: seq<InventoryCount>) | CountFailed(message: string)

  /** A value of `squareItemMap`. */
  datatype SquareEntry = SquareEntry(id: string, quantity: int, locationId: Option<string>)

  // --------------------------------------------------------------- Shopify

  /** A product variant: `sku` ("" when absent) and `inventory_item_id`, where
      0 stands for an absent id (the only falsy value an id takes). */
  datatype ShopifyVariant = ShopifyVariant(sku: string, inventoryItemId: int)

  datatype ShopifyProduct = ShopifyProduct(title: string, variants: seq<ShopifyVariant>)

  /** How `updateInventoryLevel` ends: it returns, or it throws. */
  datatype UpdateReply = Updated | UpdateFailed(message: string)

  /** One `updateInventoryLevel(session, inventoryItemId, locationId, available)` call. */
  datatype InventoryWrite = InventoryWrite(inventoryItemId: int, locationId: string, available: int)

  // ---------------------------------------------------------------- result

  /** `{ processed, updated, errors }` as `performSync` returns it. */
  datatype SyncResult = SyncResult(processed: nat, updated: nat, errors: seq<string>)

  /** The counters of the second pass together with the calls it issued. */
  datatype PassState = PassState(processed: nat, updated: nat, errors: seq<string>, writes: seq<InventoryWrite>)

  // ------------------------------------------------ first pass: lookup map

  /** `variation.itemVariationData?.sku || itemData.name`. */
  function SquareKey(v: SquareVariation, name: string): string {
    if v.sku != "" then v.sku else name
  }

  /** A variation that the first pass looks up: its key and its id. */
  datatype KeyedVariation = KeyedVariation(key: string, variationId: string)

  /** The variations of one item that have a key, in order; a variation
      whose key is falsy is skipped. */
  function KeyedVariations(name: string, vs: seq<SquareVariation>): seq<KeyedVariation>
    decreases |vs|
  {
    if vs == [] then []
    else
      var v := vs[|vs| - 1];
      KeyedVariations(name, vs[..|vs| - 1]) +
      (if SquareKey(v, name) != "" then [KeyedVariation(SquareKey(v, name), v.id)] else [])
  }

  function ItemVariations(item: SquareItem): seq<KeyedVariation> {
    match item.itemData
    case None => []
    case Some(data) => KeyedVariations(data.name, data.variations)
  }

  /** Every keyed variation of the catalog, in iteration order. */
  function CatalogVariations(items: seq<SquareItem>): seq<KeyedVariation>
    decreases |items|
  {
    if items == [] then []
    else CatalogVariations(items[..|items| - 1]) + ItemVariations(items[|items| - 1])
  }

  function CountQuantity(c: InventoryCount): int {
    match c.quantity
    case None => 0
    case Some(q) => q
  }

  /** `counts.reduce((sum, count) => sum + (count.quantity || 0), 0)`. */
  function TotalQuantity(cs: seq<InventoryCount>): int
    decreases |cs|
  {
    if cs == [] then 0 else TotalQuantity(cs[..|cs| - 1]) + CountQuantity(cs[|cs| - 1])
  }

  /** The total of two runs of counts is the sum of their totals: the sum
      can be split at any point, and swapping the two runs keeps it. */
  lemma {:induction false} TotalQuantityAppend(a: seq<InventoryCount>, b: seq<InventoryCount>)
    ensures TotalQuantity(a + b) == TotalQuantity(a) + TotalQuantity(b)
    decreases |b|
  {
    if b != [] {
      var ab := a + b;
      assert ab[..|ab| - 1] == a + b[..|b| - 1];
      assert ab[|ab| - 1] == b[|b| - 1];
      TotalQuantityAppend(a, b[..|b| - 1]);
    } else {
      assert a + b == a;
    }
  }

  /** The map value stored for a variation with these counts. */
  function EntryFor(id: string, cs: seq<InventoryCount>): SquareEntry {
    SquareEntry(id, TotalQuantity(cs), if cs == [] then None else Some(cs[0].locationId))
  }

  /** The first pass over the keyed variations: every lookup succeeds and the
      map holds the entries set in order, or the first failing lookup aborts. */
  function BuildMap(ks: seq<KeyedVariation>, countsOf: string -> CountReply): Result<map<string, SquareEntry>>
    decreases |ks|
  {
    if ks == [] then Ok(map[])
    else
      match BuildMap(ks[..|ks| - 1], countsOf)
      case Err(e) => Err(e)
      case Ok(m) =>
        var kv := ks[|ks| - 1];
        match countsOf(kv.variationId)
        case CountFailed(msg) => Err(msg)
        case Counts(cs) => Ok(m[kv.key := EntryFor(kv.variationId, cs)])
  }

  // --------------------------------------------- second pass: reconciling

  /** `variant.sku || product.title`. */
  function ShopifyKey(v: ShopifyVariant, title: string): string {
    if v.sku != "" then v.sku else title
  }

  /** A variant as the second pass sees it: its key and inventory item id. */
  datatype Target = Target(key: string, inventoryItemId: int)

  function VariantTargets(title: string, vs: seq<ShopifyVariant>): (ts: seq<Target>)
    ensures |ts| == |vs|
    decreases |vs|
  {
    if vs == [] then []
    else VariantTargets(title, vs[..|vs| - 1]) + [Target(ShopifyKey(vs[|vs| - 1], title), vs[|vs| - 1].inventoryItemId)]
  }

  /** Every variant of every product, in iteration order. */
  function CatalogTargets(ps: seq<ShopifyProduct>): seq<Target>
    decreases |ps|
  {
    if ps == [] then []
    else CatalogTargets(ps[..|ps| - 1]) + VariantTargets(ps[|ps| - 1].title, ps[|ps| - 1].variants)
  }

  /** The number of variants across all products. */
  function VariantCount(ps: seq<ShopifyProduct>): nat
    decreases |ps|
  {
    if ps == [] then 0 else VariantCount(ps[..|ps| - 1]) + |ps[|ps| - 1].variants|
  }

  /** The error line recorded for a failed update. */
  function FailureLine(key: string, message: string): string {
    "Failed to update " + key + ": " + message
  }

  /** A variant that the second pass updates. */
  predicate Matched(t: Target, m: map<string, SquareEntry>) {
    t.key in m && t.inventoryItemId != 0
  }

  /** The call issued for a matched variant: the mapped Square quantity, at the
      user's Shopify location. */
  function WriteFor(t: Target, m: map<string, SquareEntry>, locationId: string): InventoryWrite
    requires t.key in m
  {
    InventoryWrite(t.inventoryItemId, locationId, m[t.key].quantity)
  }

  /** One iteration of the inner loop of the second pass. */
  function Step(st: PassState, t: Target, m: map<string, SquareEntry>, locationId: string,
                updateOf: int -> UpdateReply): PassState
  {
    var counted := st.(processed := st.processed + 1);
    if Matched(t, m) then
      var w := WriteFor(t, m, locationId);
      match updateOf(t.inventoryItemId)
      case Updated => counted.(updated := st.updated + 1, writes := st.writes + [w])
      case UpdateFailed(msg) => counted.(errors := st.errors + [FailureLine(t.key, msg)], writes := st.writes + [w])
    else counted
  }

  /** The second pass over the variants, from zeroed counters. Every variant is
      counted; every matched variant leads to exactly one call, which is either
      counted as updated or recorded as an error. */
  function Reconciled(ts: seq<Target>, m: map<string, SquareEntry>, locationId: string,
                      updateOf: int -> UpdateReply): (st: PassState)
    ensures st.processed == |ts|
    ensures st.updated + |st.errors| == |st.writes| <= st.processed
    decreases |ts|
  {
    if ts == [] then PassState(0, 0, [], [])
    else Step(Reconciled(ts[..|ts| - 1], m, locationId, updateOf), ts[|ts| - 1], m, locationId, updateOf)
  }

  /** Both passes: the outcome `performSync` returns or throws, with the calls
      it issued to Shopify. */
  function SyncPass(items: seq<SquareItem>, products: seq<ShopifyProduct>, locationId: string,
                    countsOf: string -> CountReply, updateOf: int -> UpdateReply): Result<PassState>
  {
    match BuildMap(CatalogVariations(items), countsOf)
    case Err(e) => Err(e)
    case Ok(m) => Ok(Reconciled(CatalogTargets(products), m, locationId, updateOf))
  }

  // ------------------------------------------------------- the procedure

  /** `performSync(squareItems, shopifyProducts, user, shopifySession)` with
      `user.shopifyConfig.locationId` given as `locationId`; `writes` lists the
      `updateInventoryLevel` calls in the order they are issued. */
  method PerformSync(items: seq<SquareItem>, products: seq<ShopifyProduct>, locationId: string,
                     countsOf: string -> CountReply, updateOf: int -> UpdateReply)
    returns (r: Result<SyncResult>, writes: seq<InventoryWrite>)
    ensures SyncPass(items, products, locationId, countsOf, updateOf) ==
            match r
            case Err(e) => Err(e)
            case Ok(res) => Ok(PassState(res.processed, res.updated, res.errors, writes))
    ensures r.Err? ==> writes == []
    ensures r.Ok? ==> r.value.processed == VariantCount(products)
    ensures r.Ok? ==> r.value.updated + |r.value.errors| == |writes| <= r.value.processed
  {
    var lookup := MapSquareItems(items, countsOf);
    match lookup {
      case Err(e) =>
        r, writes := Err(e), [];
      case Ok(squareItemMap) =>
        var processed, updated, errors;
        processed, updated, errors, writes := ReconcileProducts(products, squareItemMap, locationId, updateOf);
        TargetsCount(products);
        r := Ok(SyncResult(processed, updated, errors));
    }
  }

  /** The first pass of `performSync`: builds `squareItemMap` item by item,
      or stops at the first failed count lookup. */
  method MapSquareItems(items: seq<SquareItem>, countsOf: string -> CountReply)
    returns (r: Result<map<string, SquareEntry>>)
    ensures r == BuildMap(CatalogVariations(items), countsOf)
  {
    var squareItemMap: map<string, SquareEntry> := map[];
    var i := 0;
    while i < |items|
      invariant 0 <= i <= |items|
      invariant BuildMap(CatalogVariations(items[..i]), countsOf) == Ok(squareItemMap)
    {
      var item := items[i];
      ghost var before := CatalogVariations(items[..i]);
      CatalogPrefixStep(items, i);
      if item.itemData.Some? {
        var data := item.itemData.value;
        assert CatalogVariations(items[..i + 1]) == before + KeyedVariations(data.name, data.variations);
        var next := MapVariations(data.name, data.variations, squareItemMap, before, countsOf);
        if next.Err? {
          CatalogFailureAborts(items, i + 1, countsOf);
          return next;
        }
        squareItemMap := next.value;
      } else {
        assert CatalogVariations(items[..i + 1]) == before + [];
        assert before + [] == before;
      }
      i := i + 1;
    }
    assert items[..|items|] == items;
    r := Ok(squareItemMap);
  }

  /** The inner loop of the first pass over the variations of one item,
      starting from the map built for the keyed variations `done`. */
  method MapVariations(name: string, vs: seq<SquareVariation>, m0: map<string, SquareEntry>,
                       ghost done: seq<KeyedVariation>, countsOf: string -> CountReply)
    returns (r: Result<map<string, SquareEntry>>)
    requires BuildMap(done, countsOf) == Ok(m0)
    ensures r == BuildMap(done + KeyedVariations(name, vs), countsOf)
  {
    var squareItemMap := m0;
    ghost var seen := done;
    var j := 0;
    assert vs[..0] == [];
    while j < |vs|
      invariant 0 <= j <= |vs|
      invariant seen == done + KeyedVariations(name, vs[..j])
      invariant BuildMap(seen, countsOf) == Ok(squareItemMap)
    {
      var variation := vs[j];
      var sku := SquareKey(variation, name);
      VariationStep(done, name, vs, j, seen);
      if sku != "" {
        ghost var kv := KeyedVariation(sku, variation.id);
        BuildMapStep(seen, kv, countsOf);
        match countsOf(variation.id) {
          case CountFailed(msg) =>
            KeyedFailureAborts(done, name, vs, j + 1, countsOf);
            return Err(msg);
          case Counts(counts) =>
            var totalQuantity := TotalQuantity(counts);
            var firstLocation := if counts == [] then None else Some(counts[0].locationId);
            squareItemMap := squareItemMap[sku := SquareEntry(variation.id, totalQuantity, firstLocation)];
        }
        seen := seen + [kv];
      }
      j := j + 1;
    }
    assert vs[..|vs|] == vs;
    r := Ok(squareItemMap);
  }

  /** The second pass of `performSync`: pushes the Square quantities to the
      matching variants, product by product. */
  method ReconcileProducts(products: seq<ShopifyProduct>, m: map<string, SquareEntry>, locationId: string,
                           updateOf: int -> UpdateReply)
    returns (processed: nat, updated: nat, errors: seq<string>, writes: seq<InventoryWrite>)
    ensures PassState(processed, updated, errors, writes) == Reconciled(CatalogTargets(products), m, locationId, updateOf)
  {
    processed, updated, errors, writes := 0, 0, [], [];
    var p := 0;
    while p < |products|
      invariant 0 <= p <= |products|
      invariant PassState(processed, updated, errors, writes) == Reconciled(CatalogTargets(products[..p]), m, locationId, updateOf)
    {
      var product := products[p];
      CatalogTargetsPrefixStep(products, p);
      processed, updated, errors, writes :=
        ReconcileVariants(product.title, product.variants, m, locationId, updateOf,
                          processed, updated, errors, writes, CatalogTargets(products[..p]));
      p := p + 1;
    }
    assert products[..|products|] == products;
  }

  /** The inner loop of the second pass over the variants of one product,
      continuing the counters reached after the targets `done`. */
  method ReconcileVariants(title: string, vs: seq<ShopifyVariant>, m: map<string, SquareEntry>, locationId: string,
                           updateOf: int -> UpdateReply, processed0: nat, updated0: nat, errors0: seq<string>,
                           writes0: seq<InventoryWrite>, ghost done: seq<Target>)
    returns (processed: nat, updated: nat, errors: seq<string>, writes: seq<InventoryWrite>)
    requires PassState(processed0, updated0, errors0, writes0) == Reconciled(done, m, locationId, updateOf)
    ensures PassState(processed, updated, errors, writes) == Reconciled(done + VariantTargets(title, vs), m, locationId, updateOf)
  {
    processed, updated, errors, writes := processed0, updated0, errors0, writes0;
    ghost var visited := done;
    var k := 0;
    assert vs[..0] == [];
    while k < |vs|
      invariant 0 <= k <= |vs|
      invariant visited == done + VariantTargets(title, vs[..k])
      invariant PassState(processed, updated, errors, writes) == Reconciled(visited, m, locationId, updateOf)
    {
      var variant := vs[k];
      processed := processed + 1;
      var sku := ShopifyKey(variant, title);
      VariantStep(done, title, vs, k, visited);
      ghost var t := Target(sku, variant.inventoryItemId);
      ReconciledStep(visited, t, m, locationId, updateOf);
      if sku in m && variant.inventoryItemId != 0 {
        var squareItem := m[sku];
        writes := writes + [InventoryWrite(variant.inventoryItemId, locationId, squareItem.quantity)];
        match updateOf(variant.inventoryItemId) {
          case Updated =>
            updated := updated + 1;
          case UpdateFailed(msg) =>
            errors := errors + [FailureLine(sku, msg)];
        }
      }
      visited := visited + [t];
      k := k + 1;
    }
    assert vs[..|vs|] == vs;
  }

  /** The inner loop of the first pass keeps `seen` equal to the keyed
      variations visited so far. */
  lemma VariationStep(before: seq<KeyedVariation>, name: string, vs: seq<SquareVariation>, j: nat,
                      seen: seq<KeyedVariation>)
    requires j < |vs| && seen == before + KeyedVariations(name, vs[..j])
    ensures SquareKey(vs[j], name) != "" ==>
              before + KeyedVariations(name, vs[..j + 1]) == seen + [KeyedVariation(SquareKey(vs[j], name), vs[j].id)]
    ensures SquareKey(vs[j], name) == "" ==> before + KeyedVariations(name, vs[..j + 1]) == seen
  {
    KeyedPrefixStep(name, vs, j);
    if SquareKey(vs[j], name) != "" {
      AppendAssoc(before, KeyedVariations(name, vs[..j]), [KeyedVariation(SquareKey(vs[j], name), vs[j].id)]);
    }
  }

  /** The inner loop of the second pass keeps `visited` equal to the variants
      visited so far. */
  lemma VariantStep(before: seq<Target>, title: string, vs: seq<ShopifyVariant>, k: nat, visited: seq<Target>)
    requires k < |vs| && visited == before + VariantTargets(title, vs[..k])
    ensures before + VariantTargets(title, vs[..k + 1]) == visited + [Target(ShopifyKey(vs[k], title), vs[k].inventoryItemId)]
  {
    VariantTargetsPrefixStep(title, vs, k);
    AppendAssoc(before, VariantTargets(title, vs[..k]), [Target(ShopifyKey(vs[k], title), vs[k].inventoryItemId)]);
  }

  lemma AppendAssoc<T>(a: seq<T>, b: seq<T>, c: seq<T>)
    ensures (a + b) + c == a + (b + c)
  {
  }

  lemma CatalogPrefixStep(items: seq<SquareItem>, i: nat)
    requires i < |items|
    ensures CatalogVariations(items[..i + 1]) == CatalogVariations(items[..i]) + ItemVariations(items[i])
  {
    var pre := items[..i + 1];
    assert pre[..|pre| - 1] == items[..i];
    assert pre[|pre| - 1] == items[i];
  }

  lemma KeyedPrefixStep(name: string, vs: seq<SquareVariation>, j: nat)
    requires j < |vs|
    ensures KeyedVariations(name, vs[..j + 1])
            == KeyedVariations(name, vs[..j])
               + (if SquareKey(vs[j], name) != "" then [KeyedVariation(SquareKey(vs[j], name), vs[j].id)] else [])
  {
    var pre := vs[..j + 1];
    assert pre[..|pre| - 1] == vs[..j];
    assert pre[|pre| - 1] == vs[j];
  }

  lemma BuildMapStep(done: seq<KeyedVariation>, kv: KeyedVariation, countsOf: string -> CountReply)
    requires BuildMap(done, countsOf).Ok?
    ensures BuildMap(done + [kv], countsOf)
            == match countsOf(kv.variationId)
               case CountFailed(msg) => Err(msg)
               case Counts(cs) => Ok(BuildMap(done, countsOf).value[kv.key := EntryFor(kv.variationId, cs)])
  {
    var ks := done + [kv];
    assert ks[..|ks| - 1] == done;
    assert ks[|ks| - 1] == kv;
  }

  lemma CatalogTargetsPrefixStep(ps: seq<ShopifyProduct>, p: nat)
    requires p < |ps|
    ensures CatalogTargets(ps[..p + 1]) == CatalogTargets(ps[..p]) + VariantTargets(ps[p].title, ps[p].variants)
  {
    var pre := ps[..p + 1];
    assert pre[..|pre| - 1] == ps[..p];
    assert pre[|pre| - 1] == ps[p];
  }

  lemma VariantTargetsPrefixStep(title: string, vs: seq<ShopifyVariant>, k: nat)
    requires k < |vs|
    ensures VariantTargets(title, vs[..k + 1]) == VariantTargets(title, vs[..k]) + [Target(ShopifyKey(vs[k], title), vs[k].inventoryItemId)]
  {
    var pre := vs[..k + 1];
    assert pre[..|pre| - 1] == vs[..k];
    assert pre[|pre| - 1] == vs[k];
  }

  lemma ReconciledStep(done: seq<Target>, t: Target, m: map<string, SquareEntry>, locationId: string,
                       updateOf: int -> UpdateReply)
    ensures Reconciled(done + [t], m, locationId, updateOf) == Step(Reconciled(done, m, locationId, updateOf), t, m, locationId, updateOf)
  {
    var ts := done + [t];
    assert ts[..|ts| - 1] == done;
    assert ts[|ts| - 1] == t;
  }

  /** A lookup that fails among the first `n` items aborts the whole pass. */
  lemma {:induction false} CatalogFailureAborts(items: seq<SquareItem>, n: nat, countsOf: string -> CountReply)
    requires n <= |items| && BuildMap(CatalogVariations(items[..n]), countsOf).Err?
    ensures BuildMap(CatalogVariations(items), countsOf) == BuildMap(CatalogVariations(items[..n]), countsOf)
    decreases |items| - n
  {
    if n == |items| {
      assert items[..n] == items;
    } else {
      CatalogPrefixStep(items, n);
      BuildMapErrSticks(CatalogVariations(items[..n]), ItemVariations(items[n]), countsOf);
      CatalogFailureAborts(items, n + 1, countsOf);
    }
  }

  /** A lookup that fails among the first `n` variations of an item aborts
      the rest of the item. */
  lemma {:induction false} KeyedFailureAborts(done: seq<KeyedVariation>, name: string, vs: seq<SquareVariation>, n: nat,
                                              countsOf: string -> CountReply)
    requires n <= |vs| && BuildMap(done + KeyedVariations(name, vs[..n]), countsOf).Err?
    ensures BuildMap(done + KeyedVariations(name, vs), countsOf) == BuildMap(done + KeyedVariations(name, vs[..n]), countsOf)
    decreases |vs| - n
  {
    if n == |vs| {
      assert vs[..n] == vs;
    } else {
      var step := if SquareKey(vs[n], name) != "" then [KeyedVariation(SquareKey(vs[n], name), vs[n].id)] else [];
      KeyedPrefixStep(name, vs, n);
      AppendAssoc(done, KeyedVariations(name, vs[..n]), step);
      BuildMapErrSticks(done + KeyedVariations(name, vs[..n]), step, countsOf);
      KeyedFailureAborts(done, name, vs, n + 1, countsOf);
    }
  }

  /** Once a lookup has failed, later variations do not change the outcome. */
  lemma {:induction false} BuildMapErrSticks(a: seq<KeyedVariation>, b: seq<KeyedVariation>, countsOf: string -> CountReply)
    requires BuildMap(a, countsOf).Err?
    ensures BuildMap(a + b, countsOf) == BuildMap(a, countsOf)
    decreases |b|
  {
    if b == [] {
      assert a + b == a;
    } else {
      var b' := b[..|b| - 1];
      assert (a + b)[..|a + b| - 1] == a + b';
      BuildMapErrSticks(a, b', countsOf);
    }
  }

  /** `processed` counts every variant of every product. */
  lemma {:induction false} TargetsCount(ps: seq<ShopifyProduct>)
    ensures |CatalogTargets(ps)| == VariantCount(ps)
    decreases |ps|
  {
    if ps != [] {
      TargetsCount(ps[..|ps| - 1]);
    }
  }

  // ------------------------------------------------ properties: first pass

  /** Variation `i` is the last one carrying its key. */
  predicate LastWithKey(ks: seq<KeyedVariation>, i: int)
    requires 0 <= i < |ks|
  {
    forall j :: i < j < |ks| ==> ks[j].key != ks[i].key
  }

  /** Every key the first pass meets is non-empty: a variation whose SKU and
      item name are both falsy is skipped. */
  lemma {:induction false} CatalogKeysNonEmpty(items: seq<SquareItem>)
    ensures forall i :: 0 <= i < |CatalogVariations(items)| ==> CatalogVariations(items)[i].key != ""
    decreases |items|
  {
    if items != [] {
      var pre, last := items[..|items| - 1], items[|items| - 1];
      CatalogKeysNonEmpty(pre);
      match last.itemData
      case None =>
      case Some(data) => KeyedKeysNonEmpty(data.name, data.variations);
    }
  }

  lemma {:induction false} KeyedKeysNonEmpty(name: string, vs: seq<SquareVariation>)
    ensures forall i :: 0 <= i < |KeyedVariations(name, vs)| ==> KeyedVariations(name, vs)[i].key != ""
    decreases |vs|
  {
    if vs != [] {
      KeyedKeysNonEmpty(name, vs[..|vs| - 1]);
    }
  }

  /** The first pass succeeds exactly when every count lookup succeeds; when
      it fails, it reports the message of the first lookup that failed. */
  lemma {:induction false} BuildMapFailsAtFirstFailure(ks: seq<KeyedVariation>, countsOf: string -> CountReply)
    ensures BuildMap(ks, countsOf).Ok? <==> forall i :: 0 <= i < |ks| ==> countsOf(ks[i].variationId).Counts?
    ensures BuildMap(ks, countsOf).Err? ==>
              exists i :: 0 <= i < |ks| && countsOf(ks[i].variationId) == CountFailed(BuildMap(ks, countsOf).message) &&
                          forall j :: 0 <= j < i ==> countsOf(ks[j].variationId).Counts?
    decreases |ks|
  {
    if ks != [] {
      var pre, kv := ks[..|ks| - 1], ks[|ks| - 1];
      BuildMapFailsAtFirstFailure(pre, countsOf);
      assert forall i :: 0 <= i < |pre| ==> pre[i] == ks[i];
      if BuildMap(pre, countsOf).Err? {
        var i :| 0 <= i < |pre| && countsOf(pre[i].variationId) == CountFailed(BuildMap(pre, countsOf).message) &&
                 forall j :: 0 <= j < i ==> countsOf(pre[j].variationId).Counts?;
        assert countsOf(ks[i].variationId) == CountFailed(BuildMap(ks, countsOf).message);
      } else if countsOf(kv.variationId).CountFailed? {
        assert countsOf(ks[|ks| - 1].variationId) == CountFailed(BuildMap(ks, countsOf).message);
      }
    }
  }

  /** The map's keys are exactly the keys the first pass met. */
  lemma {:induction false} MapKeysAreKeysMet(ks: seq<KeyedVariation>, countsOf: string -> CountReply)
    requires BuildMap(ks, countsOf).Ok?
    ensures forall k :: k in BuildMap(ks, countsOf).value <==> exists i :: 0 <= i < |ks| && ks[i].key == k
    decreases |ks|
  {
    if ks != [] {
      var pre, kv := ks[..|ks| - 1], ks[|ks| - 1];
      MapKeysAreKeysMet(pre, countsOf);
      var m0 := BuildMap(pre, countsOf).value;
      var m := BuildMap(ks, countsOf).value;
      assert m.Keys == m0.Keys + {kv.key};
      forall k
        ensures k in m <==> exists i :: 0 <= i < |ks| && ks[i].key == k
      {
        if k == kv.key {
          assert ks[|ks| - 1].key == k;
        } else if k in m0 {
          var i :| 0 <= i < |pre| && pre[i].key == k;
          assert ks[i] == pre[i];
        } else {
          forall i | 0 <= i < |ks|
            ensures ks[i].key != k
          {
            if i < |pre| {
              assert ks[i] == pre[i];
            }
          }
        }
      }
    }
  }

  /** Last write wins: each key holds the id and the summed counts of the last
      variation that carried it. */
  lemma {:induction false} LastWriteWins(ks: seq<KeyedVariation>, countsOf: string -> CountReply)
    requires BuildMap(ks, countsOf).Ok?
    ensures forall i :: 0 <= i < |ks| && LastWithKey(ks, i) ==>
              countsOf(ks[i].variationId).Counts? && ks[i].key in BuildMap(ks, countsOf).value &&
              BuildMap(ks, countsOf).value[ks[i].key] == EntryFor(ks[i].variationId, countsOf(ks[i].variationId).counts)
    decreases |ks|
  {
    if ks != [] {
      var pre, kv := ks[..|ks| - 1], ks[|ks| - 1];
      LastWriteWins(pre, countsOf);
      var m0 := BuildMap(pre, countsOf).value;
      var m := BuildMap(ks, countsOf).value;
      var e := EntryFor(kv.variationId, countsOf(kv.variationId).counts);
      assert m == m0[kv.key := e];
      forall i | 0 <= i < |ks| && LastWithKey(ks, i)
        ensures countsOf(ks[i].variationId).Counts? && ks[i].key in m &&
                m[ks[i].key] == EntryFor(ks[i].variationId, countsOf(ks[i].variationId).counts)
      {
        if i < |pre| {
          assert ks[i] == pre[i];
          assert ks[|ks| - 1].key != ks[i].key;
          assert LastWithKey(pre, i) by {
            forall j | i < j < |pre|
              ensures pre[j].key != pre[i].key
            {
              assert pre[j] == ks[j];
            }
          }
        }
      }
    }
  }

  // ----------------------------------------------- properties: second pass

  /** The number of variants the second pass updates. */
  function MatchedCount(ts: seq<Target>, m: map<string, SquareEntry>): nat
    decreases |ts|
  {
    if ts == [] then 0
    else MatchedCount(ts[..|ts| - 1], m) + (if Matched(ts[|ts| - 1], m) then 1 else 0)
  }

  /** The calls one would expect: one per matched variant, in order, each
      carrying the mapped quantity and the user's location. */
  function MatchedWrites(ts: seq<Target>, m: map<string, SquareEntry>, locationId: string): (ws: seq<InventoryWrite>)
    ensures |ws| == MatchedCount(ts, m)
    decreases |ts|
  {
    if ts == [] then []
    else
      var t := ts[|ts| - 1];
      MatchedWrites(ts[..|ts| - 1], m, locationId) + (if Matched(t, m) then [WriteFor(t, m, locationId)] else [])
  }

  /** The number of matched variants whose update throws. */
  function FailedCount(ts: seq<Target>, m: map<string, SquareEntry>, updateOf: int -> UpdateReply): nat
    decreases |ts|
  {
    if ts == [] then 0
    else
      var t := ts[|ts| - 1];
      FailedCount(ts[..|ts| - 1], m, updateOf) + (if Matched(t, m) && updateOf(t.inventoryItemId).UpdateFailed? then 1 else 0)
  }

  /** The error lines one would expect: one `Failed to update <key>: <message>`
      per matched variant whose update throws, in order, carrying the key of
      that variant and the message its update threw. */
  function FailureLines(ts: seq<Target>, m: map<string, SquareEntry>, updateOf: int -> UpdateReply): (es: seq<string>)
    ensures |es| == FailedCount(ts, m, updateOf)
    decreases |ts|
  {
    if ts == [] then []
    else
      var t := ts[|ts| - 1];
      FailureLines(ts[..|ts| - 1], m, updateOf) +
      (if Matched(t, m) && updateOf(t.inventoryItemId).UpdateFailed?
       then [FailureLine(t.key, updateOf(t.inventoryItemId).message)] else [])
  }

  /** The second pass issues exactly the expected calls, whatever the calls
      answer: there is no read before a write and no skip of an unchanged
      quantity. One error line is recorded per failed call, in order, and
      every other call counts as updated. */
  lemma {:induction false} ReconciledCalls(ts: seq<Target>, m: map<string, SquareEntry>, locationId: string,
                                           updateOf: int -> UpdateReply)
    ensures var st := Reconciled(ts, m, locationId, updateOf);
            st.writes == MatchedWrites(ts, m, locationId) &&
            st.errors == FailureLines(ts, m, updateOf) &&
            |st.errors| == FailedCount(ts, m, updateOf) &&
            st.updated == MatchedCount(ts, m) - FailedCount(ts, m, updateOf)
    decreases |ts|
  {
    if ts != [] {
      ReconciledCalls(ts[..|ts| - 1], m, locationId, updateOf);
    }
  }

  /** Error line `e` names the key of a matched variant at some position of
      `ts` and the message that variant's failed update threw. */
  predicate ExplainedBy(e: string, ts: seq<Target>, m: map<string, SquareEntry>, updateOf: int -> UpdateReply) {
    exists i :: 0 <= i < |ts| && Matched(ts[i], m) &&
                updateOf(ts[i].inventoryItemId).UpdateFailed? &&
                e == FailureLine(ts[i].key, updateOf(ts[i].inventoryItemId).message)
  }

  /** Every error line stands for a matched variant whose update failed. */
  lemma {:induction false} ErrorLinesExplained(ts: seq<Target>, m: map<string, SquareEntry>, locationId: string,
                                               updateOf: int -> UpdateReply)
    ensures forall e :: e in Reconciled(ts, m, locationId, updateOf).errors ==> ExplainedBy(e, ts, m, updateOf)
    decreases |ts|
  {
    if ts != [] {
      var pre, t := ts[..|ts| - 1], ts[|ts| - 1];
      ErrorLinesExplained(pre, m, locationId, updateOf);
      var st0 := Reconciled(pre, m, locationId, updateOf);
      var st := Reconciled(ts, m, locationId, updateOf);
      forall e | e in st.errors
        ensures ExplainedBy(e, ts, m, updateOf)
      {
        if e in st0.errors {
          assert ExplainedBy(e, pre, m, updateOf);
          var i :| 0 <= i < |pre| && Matched(pre[i], m) &&
                   updateOf(pre[i].inventoryItemId).UpdateFailed? &&
                   e == FailureLine(pre[i].key, updateOf(pre[i].inventoryItemId).message);
          assert pre[i] == ts[i];
        } else {
          assert Matched(t, m) && updateOf(t.inventoryItemId).UpdateFailed?;
          assert e == FailureLine(t.key, updateOf(t.inventoryItemId).message);
          assert ts[|ts| - 1] == t;
        }
      }
    }
  }

  /** When every call succeeds the pass records no error and counts every
      matched variant as updated. */
  lemma AllUpdatesSucceed(ts: seq<Target>, m: map<string, SquareEntry>, locationId: string,
                          updateOf: int -> UpdateReply)
    requires forall id :: updateOf(id) == Updated
    ensures var st := Reconciled(ts, m, locationId, updateOf);
            st.errors == [] && st.updated == MatchedCount(ts, m)
  {
    ReconciledCalls(ts, m, locationId, updateOf);
    NoFailures(ts, m, updateOf);
  }

  lemma {:induction false} NoFailures(ts: seq<Target>, m: map<string, SquareEntry>, updateOf: int -> UpdateReply)
    requires forall id :: updateOf(id) == Updated
    ensures FailedCount(ts, m, updateOf) == 0
    decreases |ts|
  {
    if ts != [] {
      NoFailures(ts[..|ts| - 1], m, updateOf);
    }
  }

  /** Without matched variants the pass issues no call and records nothing,
      though every variant is still counted as processed. */
  lemma {:induction false} NoMatchNoCalls(ts: seq<Target>, m: map<string, SquareEntry>, locationId: string,
                                          updateOf: int -> UpdateReply)
    requires forall i :: 0 <= i < |ts| ==> !Matched(ts[i], m)
    ensures Reconciled(ts, m, locationId, updateOf) == PassState(|ts|, 0, [], [])
    decreases |ts|
  {
    if ts != [] {
      assert !Matched(ts[|ts| - 1], m);
      NoMatchNoCalls(ts[..|ts| - 1], m, locationId, updateOf);
    }
  }

  // ------------------------------------------------------------ scenarios

  /** One Square variation with SKU "A1" and 5 in stock, one Shopify variant
      with SKU "A1": its level is set to 5 and the run records no error. */
  lemma SingleMatchScenario(items: seq<SquareItem>, products: seq<ShopifyProduct>, locationId: string,
                            countsOf: string -> CountReply, updateOf: int -> UpdateReply)
    requires items == [SquareItem(Some(ItemData("Widget", [SquareVariation("var_1", "A1")])))]
    requires products == [ShopifyProduct("Widget", [ShopifyVariant("A1", 1)])]
    requires countsOf("var_1") == Counts([InventoryCount(Some(5), "L1")])
    requires updateOf(1) == Updated
    ensures SyncPass(items, products, locationId, countsOf, updateOf) ==
            Ok(PassState(1, 1, [], [InventoryWrite(1, locationId, 5)]))
  {
    var vs := [SquareVariation("var_1", "A1")];
    assert vs[..0] == [];
    assert KeyedVariations("Widget", vs) == [KeyedVariation("A1", "var_1")];
    assert items[..0] == [];
    assert CatalogVariations(items) == [KeyedVariation("A1", "var_1")];
    var ks := CatalogVariations(items);
    assert ks[..0] == [];
    var cs := [InventoryCount(Some(5), "L1")];
    assert cs[..0] == [];
    assert TotalQuantity(cs) == 5;
    var m := map["A1" := SquareEntry("var_1", 5, Some("L1"))];
    assert BuildMap(ks, countsOf) == Ok(m);
    var svs := [ShopifyVariant("A1", 1)];
    assert svs[..0] == [];
    assert products[..0] == [];
    assert CatalogTargets(products) == [Target("A1", 1)];
    var ts := CatalogTargets(products);
    assert ts[..0] == [];
    assert Reconciled(ts, m, locationId, updateOf) == PassState(1, 1, [], [InventoryWrite(1, locationId, 5)]);
  }

  /** Two matched variants "A1" and "B2" where the update of "B2" throws: the
      run still completes, records one error line for "B2" and counts only
      "A1" as updated. */
  lemma FailedUpdateScenario(ts: seq<Target>, m: map<string, SquareEntry>, locationId: string,
                             updateOf: int -> UpdateReply, message: string)
    requires ts == [Target("A1", 1), Target("B2", 2)]
    requires "A1" in m && "B2" in m
    requires updateOf(1) == Updated && updateOf(2) == UpdateFailed(message)
    ensures Reconciled(ts, m, locationId, updateOf) ==
            PassState(2, 1, ["Failed to update B2: " + message],
                      [InventoryWrite(1, locationId, m["A1"].quantity), InventoryWrite(2, locationId, m["B2"].quantity)])
  {
    var a, b := ts[0], ts[1];
    ReconciledStep([], a, m, locationId, updateOf);
    assert [] + [a] == [a];
    ReconciledStep([a], b, m, locationId, updateOf);
    assert [a] + [b] == ts;
    assert FailureLine("B2", message) == "Failed to update B2: " + message;
  }

  /** Two Square variations sharing the key "A1": the lookup map keeps the one
      met last. */
  lemma DuplicateKeyScenario(ks: seq<KeyedVariation>, countsOf: string -> CountReply)
    requires ks == [KeyedVariation("A1", "var_1"), KeyedVariation("A1", "var_2")]
    requires countsOf("var_1") == Counts([]) && countsOf("var_2") == Counts([])
    ensures BuildMap(ks, countsOf) == Ok(map["A1" := SquareEntry("var_2", 0, None)])
  {
    var first := ks[..1];
    assert first[..0] == [];
    assert first == [KeyedVariation("A1", "var_1")];
    assert ks[..|ks| - 1] == first && ks[|ks| - 1] == KeyedVariation("A1", "var_2");
    assert BuildMap(first, countsOf) == Ok(map["A1" := SquareEntry("var_1", 0, None)]);
    assert map["A1" := SquareEntry("var_1", 0, None)]["A1" := SquareEntry("var_2", 0, None)]
           == map["A1" := SquareEntry("var_2", 0, None)];
  }
}

