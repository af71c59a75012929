# Square–Shopify inventory sync: a verified model

This project models, in Dafny, the core of a service that keeps a merchant's
Shopify inventory in line with their Square inventory, plus two small pieces
of its web front end.

- **Reconciliation pass** (`Reconciliation`, modelling `performSync`). The
  pass first builds a lookup map from the Square catalog. Each map key is the
  variation SKU, or the item name when the SKU is falsy, and each value holds
  the variation's summed inventory counts. The pass then walks every Shopify
  variant. For each variant whose key is in the map and that has an inventory
  item id, it sets that variant's Shopify level to the Square quantity. It
  counts processed and updated variants and collects one error line per
  failed update. The model keeps the source's nested loops and mutable
  counters, one method per loop. Each method is proved against a
  specification function that recurses on the prefix of its input and then
  applies the last element, so it folds from the left as the loops do.
- **Sync service** (`SyncService`). The manual-sync run lifecycle
  (`triggerManualSync`): refuse unless both platforms are connected, save a
  `running` log, then make exactly one terminal write. The settings update
  with its 60-second interval floor. The status summary with its 24-hour
  window counts. The paginated history. The database becomes an `Account`
  object that holds one user's record and that user's logs, newest first.
- **Inventory table** (`InventoryTable`): the dashboard's search-and-filter
  predicate and its two row classifiers.
- **Shop-domain normaliser** (`ShopDomain`): the address clean-up in the
  Shopify connection form.
- **Support modules.** `AsciiText` models `toLowerCase`, `trim` and
  `includes` over ASCII. `Outcomes` holds `Option` and `Result`; `Err(m)`
  stands for a thrown error whose message is `m`.

How external calls are modelled. The Square count call is a function
`countsOf` from a variation id to either the counts or a failure. The
Shopify update call is a function `updateOf` from an inventory item id to
`Updated` or `UpdateFailed(message)`. The two catalog fetches are `Result`
values. Every clock read is an integer parameter. JavaScript's falsy values
become `""` for strings, `None` for optional values, and `0` for an absent
`inventory_item_id`.

Two behaviours of the code deserve a note:

- `processed` is incremented for every Shopify variant, matched or not
  (backend/src/services/syncService.js:141). A run with no matches therefore
  reports `processed` equal to the number of variants, with `updated = 0`
  and no errors (`Reconciliation.NoMatchNoCalls`,
  `SyncService.NoMatchRunCompletesClean`).
- The normaliser's `replace(/\..*/, '')` cut stops at a line break. In a
  JavaScript regular expression `.` does not match a line terminator, so the
  cut runs from the first dot to the next line break only.
  `ShopDomain.StripFromFirstDot` models this exactly. The idempotence,
  no-dot and trimmed-output properties are proved for single-line input.
  `ShopDomain.MultiLineInputNotIdempotent` shows a multi-line input for which
  they fail. A single-line `<input>` field never yields such a value, so this
  is recorded as a property of the expression rather than as a defect.

## Model

| member | source | states |
|---|---|---|
| Reconciliation.SquareKey | backend/src/services/syncService.js:120 | the variation's SKU when non-empty, otherwise the item name |
| Reconciliation.KeyedVariations | backend/src/services/syncService.js:116-121 | the variations of an item in order, keyed by `sku \|\| itemData.name`; a variation with a falsy key is skipped |
| Reconciliation.ItemVariations | backend/src/services/syncService.js:117-121 | an item without `itemData` contributes no variation; otherwise its keyed variations (an absent variation list iterates as empty) |
| Reconciliation.CatalogVariations | backend/src/services/syncService.js:116-121 | the keyed variations of all items, item by item, in catalog order |
| Reconciliation.CatalogKeysNonEmpty | backend/src/services/syncService.js:120-121 | every key of a looked-up variation is non-empty, so a Shopify variant whose key is falsy never matches |
| Reconciliation.BuildMapFailsAtFirstFailure | backend/src/services/syncService.js:123 | the first pass succeeds iff every count lookup succeeds; on failure it throws the message of the first lookup that failed, and no later lookup matters |
| Reconciliation.CountQuantity | backend/src/services/syncService.js:125 | `count.quantity \|\| 0`: a count without a quantity contributes 0, otherwise its quantity |
| Reconciliation.TotalQuantity | backend/src/services/syncService.js:124-126 | `counts.reduce`: the sum of the counts' quantities, starting from 0, in order |
| Reconciliation.TotalQuantityAppend | backend/src/services/syncService.js:124-126 | the total of two runs of counts is the sum of their totals |
| Reconciliation.EntryFor | backend/src/services/syncService.js:128-132 | the map value for a variation: its id, the total quantity of its counts, and the location of the first count, absent when there are no counts |
| Reconciliation.BuildMap | backend/src/services/syncService.js:116-136 | the first pass as a specification: the entries are set in iteration order, a later key overwrites an earlier one, and the first failed lookup aborts with its message |
| Reconciliation.MapKeysAreKeysMet | backend/src/services/syncService.js:116-132 | the lookup map's keys are exactly the keys of the variations the first pass met |
| Reconciliation.LastWriteWins | backend/src/services/syncService.js:128-132 | each key holds the id and the summed counts of the last variation carrying it (last write wins), with the first count's location |
| Reconciliation.CatalogFailureAborts | backend/src/services/syncService.js:123 | a count lookup that fails among the first items decides the outcome of the whole first pass |
| Reconciliation.ShopifyKey | backend/src/services/syncService.js:143 | the variant's SKU when non-empty, otherwise the product title |
| Reconciliation.VariantTargets | backend/src/services/syncService.js:139-143 | one target per variant, keyed by `sku \|\| product.title` |
| Reconciliation.CatalogTargets | backend/src/services/syncService.js:139-143 | the targets of all products, product by product, each product's variants in order |
| Reconciliation.VariantCount | backend/src/services/syncService.js:139-141 | the number of variants summed over all products, the value `processed` reaches |
| Reconciliation.TargetsCount | backend/src/services/syncService.js:139-141 | the second pass visits exactly as many targets as there are variants across all products |
| Reconciliation.Matched | backend/src/services/syncService.js:144-146 | a variant is updated iff its key is in the lookup map and its inventory item id is truthy (non-zero) |
| Reconciliation.WriteFor | backend/src/services/syncService.js:148-153 | the call for a matched variant: its inventory item id, the user's Shopify location, and the mapped Square quantity |
| Reconciliation.FailureLine | backend/src/services/syncService.js:157 | the error line `Failed to update <key>: <message>` |
| Reconciliation.Step | backend/src/services/syncService.js:140-160 | one iteration of the inner loop: the variant is counted; a matched variant leads to one call, then either `updated` grows or a `Failed to update <key>: <message>` line is added |
| Reconciliation.Reconciled | backend/src/services/syncService.js:139-162 | every variant counts as processed; `updated + \|errors\| == \|calls issued\| <= processed` |
| Reconciliation.MatchedWrites | backend/src/services/syncService.js:146-153 | the expected calls: one per matched variant (key in the map and a truthy inventory item id), carrying the mapped quantity and the user's location, so their number is the number of matched variants |
| Reconciliation.FailureLines | backend/src/services/syncService.js:156-157 | the expected error lines: one `Failed to update <key>: <message>` per matched variant whose update throws, in iteration order, so their number is the number of failed calls |
| Reconciliation.ReconciledCalls | backend/src/services/syncService.js:146-159 | the pass issues exactly the expected calls whatever they answer (no read before write); the error lines are exactly the expected ones, in order; `updated` equals matched minus failed |
| Reconciliation.ErrorLinesExplained | backend/src/services/syncService.js:156-157 | every error line is `Failed to update <key>: <message>` for a matched variant whose update threw that message |
| Reconciliation.AllUpdatesSucceed | backend/src/services/syncService.js:147-155 | when no update throws there is no error line and every matched variant counts as updated |
| Reconciliation.NoMatchNoCalls | backend/src/services/syncService.js:140-146 | without matched variants no call is issued, `updated` is 0, `errors` is empty and `processed` is the number of variants |
| Reconciliation.MapVariations | backend/src/services/syncService.js:119-134 | the inner loop over one item's variations extends the map exactly as the specification does, or stops with the first failed lookup |
| Reconciliation.MapSquareItems | backend/src/services/syncService.js:115-136 | the outer loop over the catalog builds exactly the specified lookup map, or throws the first failed lookup's message |
| Reconciliation.ReconcileVariants | backend/src/services/syncService.js:140-161 | the inner loop over one product's variants advances the counters, error lines and calls exactly as the specification does |
| Reconciliation.ReconcileProducts | backend/src/services/syncService.js:139-162 | the outer loop over the products yields the specified counters, error lines and calls |
| Reconciliation.SyncPass | backend/src/services/syncService.js:108-169 | both passes: the first failed lookup's message is thrown, otherwise the second pass runs over every variant of every product with the lookup map |
| Reconciliation.PerformSync | backend/src/services/syncService.js:108-169 | the two passes compute the two-pass specification: they throw the first failed lookup's message with no call issued, or return the counters and the calls; `processed` is the variant count and `updated + \|errors\| == \|calls\| <= processed` |
| Reconciliation.SingleMatchScenario | backend/src/services/syncService.js:116-162 | Square SKU "A1" with 5 in stock and a Shopify variant "A1": one call setting the level to 5, processed = updated = 1, no errors |
| Reconciliation.FailedUpdateScenario | backend/src/services/syncService.js:146-159 | with matched "A1" and "B2" where the update of "B2" throws: both calls are issued, updated = 1, errors = ["Failed to update B2: <message>"] |
| Reconciliation.DuplicateKeyScenario | backend/src/services/syncService.js:128-132 | two variations sharing "A1": the map keeps the one met last |
| SyncService.RunningLog | backend/src/services/syncService.js:55-61 | the first saved log is `running`, not completed and carries no error |
| SyncService.Connected | backend/src/services/syncService.js:51 | a user can sync iff both the Square and the Shopify connection flags are set |
| SyncService.NewestFirst | backend/src/services/syncService.js:13-14 | the logs are sorted by `createdAt`, newest first, as every log query sorts them |
| SyncService.WellFormed | backend/src/services/syncService.js:55-99 | the shape of a saved log: running means not completed and no error message; completed means `completedAt` set and no error message; failed means `completedAt` and an error message with no counts; `updated + \|errors\| <= processed` |
| SyncService.RunOutcome | backend/src/services/syncService.js:63-80 | the guarded block: the Square fetch, then the Shopify fetch, then the pass; the first of them to throw decides the error |
| SyncService.FinishedLog | backend/src/services/syncService.js:83-87 | the terminal write: completed iff the run produced a result, with its counts and errors; otherwise `error` with the thrown message; `completedAt` is set and the rest of the log is kept |
| SyncService.FinishedRunWellFormed | backend/src/services/syncService.js:63-101 | whichever way a run ends, its log is well formed: terminal, `updated + \|errors\| <= processed`, and an error message exactly when it failed |
| SyncService.NoMatchRunCompletesClean | backend/src/services/syncService.js:83-88 | a run whose catalogs share no matched variant completes with `itemsUpdated = 0`, no errors and `itemsProcessed` equal to the variant count |
| SyncService.Account.constructor | backend/src/services/syncService.js:48 | a loaded account whose logs are well formed satisfies the account invariant and holds the given record and logs |
| SyncService.Account.TriggerManualSync | backend/src/services/syncService.js:46-106 | refuses with "Both Square and Shopify must be connected" and changes nothing unless both are connected; otherwise saves a running log, then replaces it by its single terminal state; on success returns the pass result and sets `lastSyncAt`, on failure rethrows and leaves the user alone; keeps every log well formed and keeps the logs newest first |
| SyncService.ApplySettings | backend/src/services/syncService.js:201-206 | a provided `autoSync` is stored verbatim; a provided interval becomes `max(60, interval)`; fields not provided and `lastSyncAt` are unchanged |
| SyncService.ApplySettingsIdempotent | backend/src/services/syncService.js:201-206 | submitting the same settings twice stores the same as submitting them once |
| SyncService.ShortIntervalRaised | backend/src/services/syncService.js:205 | an interval of 10 is stored as 60 |
| SyncService.Account.UpdateSettings | backend/src/services/syncService.js:196-214 | the stored settings become `ApplySettings` of the old ones and are returned; the logs are untouched |
| SyncService.PrependKeepsNewestFirst | backend/src/services/syncService.js:55-61 | saving a log created no earlier than the newest keeps the logs sorted newest first |
| SyncService.CountSince | backend/src/services/syncService.js:17-21 | the number of logs created at or after the cutoff is at most the number of logs |
| SyncService.ErrorsSince | backend/src/services/syncService.js:23-27 | failed logs in the window never outnumber the logs in the window |
| SyncService.StatusOf | backend/src/services/syncService.js:8-44 | `isConnected` iff both platforms are connected; settings copied; `last24hSyncs` counts the logs created at or after `now - 24h` and `errors` the failed ones among them (so errors <= window syncs <= all logs); `recentLogs` is the first `min(10, \|logs\|)` of the newest-first logs; the product counters are 0 |
| SyncService.RecentLogsAreNewest | backend/src/services/syncService.js:13-15 | on newest-first logs, no log outside `recentLogs` is newer than any log in it |
| SyncService.WindowIsPrefix | backend/src/services/syncService.js:13-21 | on newest-first logs the 24-hour window is exactly the leading `last24hSyncs` logs |
| SyncService.Skip | backend/src/services/syncService.js:173 | `skip` is non-negative and the next page starts `limit` later |
| SyncService.PageCount | backend/src/services/syncService.js:185 | `Math.ceil(total / limit)`: the least page count whose pages hold all records |
| SyncService.SyncHistory | backend/src/services/syncService.js:171-188 | the page is the window of at most `limit` of the newest-first logs starting at `skip = (page-1)*limit`, in order, empty past the end; the page count is `PageCount`; `hasPrev` iff `page > 1`; `hasNext` iff `skip + limit < total` |
| SyncService.HasNextIffMorePages | backend/src/services/syncService.js:185-186 | `hasNext` holds exactly when the page is before the last page |
| SyncService.PageOfRecord | backend/src/services/syncService.js:173-177 | log `k` is entry `k % limit` of page `k / limit + 1`, and that page is within the page count |
| SyncService.DefaultHistoryIsNewest | backend/src/services/syncService.js:171-188 | with the defaults `page = 1` and `limit = 20` the history is the newest 20 logs (or all of them), with no previous page and a next page iff there are more than 20 |
| SyncService.TwoPageScenario | backend/src/services/syncService.js:171-188 | 25 logs with limit 20: page 1 has 20 logs, a next and no previous page; page 2 has 5, no next and a previous page; 2 pages |
| InventoryTable.MatchesSearch | frontend/src/components/Dashboard/InventoryTable.tsx:30-31 | the lower-cased name or the lower-cased SKU includes the lower-cased search term |
| InventoryTable.PassesMode | frontend/src/components/Dashboard/InventoryTable.tsx:35-44 | "outOfStock": either quantity is 0; "lowStock": either quantity is at most 5; "synced": the quantities are equal; any other mode: every row |
| InventoryTable.Kept | frontend/src/components/Dashboard/InventoryTable.tsx:29-44 | a row is kept iff it matches the search and its mode test passes |
| InventoryTable.FilterInventory | frontend/src/components/Dashboard/InventoryTable.tsx:29-45 | a row is shown iff its lower-cased name or SKU includes the lower-cased term and the filter mode keeps it; every occurrence of a kept row is shown, so each row appears as often as in the inventory or not at all |
| InventoryTable.FilterIsSubsequence | frontend/src/components/Dashboard/InventoryTable.tsx:29 | the shown rows are an order-preserving subsequence of the inventory |
| InventoryTable.EmptySearchShowsAll | frontend/src/components/Dashboard/InventoryTable.tsx:30-33 | an empty term with mode "all" shows every row |
| InventoryTable.OutOfStockWithinLowStock | frontend/src/components/Dashboard/InventoryTable.tsx:36-39 | with the same term, the "out of stock" rows are a subsequence of the "low stock" rows |
| InventoryTable.UnknownModeIsAll | frontend/src/components/Dashboard/InventoryTable.tsx:42-43 | a mode the switch does not name behaves like "all" |
| InventoryTable.QuantityStatus | frontend/src/components/Dashboard/InventoryTable.tsx:47-53 | "synced" iff the two quantities are equal, otherwise "out-of-sync" |
| InventoryTable.StockLevel | frontend/src/components/Dashboard/InventoryTable.tsx:55-59 | "Out of Stock" iff 0, "Low Stock" iff non-zero and at most 5, "In Stock" iff above 5 |
| InventoryTable.SyncedModeAgreesWithStatus | frontend/src/components/Dashboard/InventoryTable.tsx:40-41 | the "synced" mode shows exactly the matching rows whose status label is "synced" |
| InventoryTable.StockModesAgreeWithLevels | frontend/src/components/Dashboard/InventoryTable.tsx:36-39 | the "out of stock" and "low stock" modes agree with the stock labels of the two quantities |
| AsciiText.Lower | frontend/src/components/Setup/ConnectShopify.jsx:21 | `toLowerCase`: same length, each character lower-cased |
| AsciiText.Trim | frontend/src/components/Setup/ConnectShopify.jsx:21 | `trim`: the result is a slice of the input with only whitespace before and after it, and has no whitespace at either end; an already trimmed string is unchanged |
| AsciiText.Contains | frontend/src/components/Dashboard/InventoryTable.tsx:30-31 | `includes`: the term is a prefix of the string or is included in its tail |
| AsciiText.ContainsIff | frontend/src/components/Dashboard/InventoryTable.tsx:30-31 | `includes` holds iff the term occurs at some position |
| ShopDomain.StripFromFirstDot | frontend/src/components/Setup/ConnectShopify.jsx:23 | `replace(/\..*/, '')`: a string without '.' is unchanged; a single-line string is cut before its first '.' |
| ShopDomain.NormalizeShop | frontend/src/components/Setup/ConnectShopify.jsx:21-24 | the result contains `.myshopify.com` and no upper-case letter; a trimmed lower-cased input that already contains the suffix is returned as is, otherwise the stripped input plus the suffix |
| ShopDomain.CutBeforeFirstDot | frontend/src/components/Setup/ConnectShopify.jsx:22-24 | for single-line input without the suffix, the result is the input cut before its first '.' plus the suffix, so the part before the suffix has no '.' |
| ShopDomain.NormalizedIsTrimmed | frontend/src/components/Setup/ConnectShopify.jsx:21-24 | for single-line input the result has no whitespace at either end |
| ShopDomain.NormalizeIdempotent | frontend/src/components/Setup/ConnectShopify.jsx:21-24 | for single-line input, normalising a normalised address leaves it unchanged |
| ShopDomain.MultiLineInputNotIdempotent | frontend/src/components/Setup/ConnectShopify.jsx:23 | ".x\ny" normalises to "\ny.myshopify.com", which is not trimmed and normalises again to "y.myshopify.com" |

## Left out

- Square and Shopify SDK calls, catalog and product listing, and sessions. They become the arguments `countsOf`, `updateOf` and the two fetch results.
- The database. `User.findById`, the `SyncLog` queries (`sort`, `skip`, `limit`, `countDocuments`) and `save` are replaced by the in-memory `Account` and by pure functions over its newest-first logs. A missing user ("User not found") is not modelled, because the account always exists.
- Failures of `save` itself. If a save throws mid-run, the source runs its catch path and can overwrite a completed log with `error`. The model assumes every save succeeds.
- Mongoose-assigned fields. `createdAt` comes from the schema's timestamps, so the model takes it as a parameter.
- Clock reads. `new Date()` and `Date.now()` are integer parameters. The model does not assume their order, except the optional premise that keeps the logs newest first.
- Logging through `logger`. None of it affects results.
- SyncService.Account.TriggerManualSync: takes the user's connection flags and location from the account and does not model `createSession` or the access token.
- Reconciliation.CountQuantity: treats each count's quantity as an integer. `parseInt` on numeric strings, `NaN` and JavaScript number precision are not modelled.
- Absent `product.variants`. The source would throw a `TypeError` there; the model gives every product a variant sequence. An absent `itemData.variations` is modelled as empty, as the source's guard skips it.
- JavaScript value coercion. Non-boolean `autoSync` values and non-numeric `syncInterval` values (`Math.max` then yields `NaN`) are left out. So are string `page`/`limit` query values and the object-typed return values (icons and colours) of the two classifiers.
- SyncService.SyncHistory: requires `page >= 1` and `limit >= 1`. A negative skip or a zero limit is handled by the database driver, not by the source shown (`limit(0)` means no limit, and `Math.ceil(total / 0)` is `Infinity`, or `NaN` when there are no logs). Omitted arguments take the defaults `DefaultPage` and `DefaultLimit`.
- SyncService.StatusOf: `totalProducts` and `outOfStock` are the constant 0 the source returns.
- Overlapping runs and locking. Every `await` is a sequential step here, and the source has no lock.
- Webhook handlers, authentication, routing, the React rendering and the rest of the front end. They are I/O glue outside the reconciliation core.
- Unicode. `toLowerCase`, `trim` and the regular-expression `.` are modelled over ASCII only: letters A–Z, the whitespace characters space, tab, LF, CR, VT and FF, and the line terminators LF and CR.
