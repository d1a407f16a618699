# GGW inventory core in Dafny

This project models the bookkeeping core of the GGW inventory system, a
stock tracker for gutter-guard kits: mesh rolls, steel coils and the saddles
pressed from them, screws, trims and boxes. It covers:

- the forecasting engine;
- the per-category stock ledgers;
- the stocktake pipeline (item generation, the counting session, and writing
  the counts back into the inventory files);
- the pure part of the Shopify order sync.

Each core file is one module:

| module | file | form |
|---|---|---|
| `Mesh` | `mesh.dfy` | class `MeshManager` over `seq` fields, with specification functions |
| `Saddle` | `saddle.dfy` | class `SaddleManager` |
| `Screw` | `screw.dfy` | class `ScrewManager` |
| `Box` | `box.dfy` | class `BoxManager` |
| `Forecasting` | `forecasting.dfy` | class `Forecaster` holding data snapshots and the usage cache |
| `ShopifySync` | `shopify_sync.dfy` | class `Syncer` holding the order cache; matching and summing are functions |
| `StocktakeItems` | `stocktake_items.dfy` | functions, plus the generator loops as methods |
| `StocktakeState` | `stocktake_state.dfy` | class `StocktakeSession` |
| `StocktakeUpdate` | `stocktake_update.dfy` | file records as values; the update loops as methods |

`Builtins` models the Python built-ins the code relies on: `int()`, `//`
and `%`, `round`, `lower`, `strip`, `split` and string order. `Collections`
holds the shared list machinery: a stable sort, sums, filters, and a
group-by tally that keeps first-seen key order.

Most loops of the source are `method`s with loop invariants. Each one is
proved equal to a specification function, and the lemmas beside that
function state what the source promises: exact totals, membership in both
directions, ordering, one entry per key, and what an operation leaves
unchanged. Four loops are functions instead, because they only compute a
value from their inputs:

- the term loop of `_product_matches` (`ShopifySync.MatchesFrom`);
- the product and variant search of `_get_components_for_product`
  (`ShopifySync.ComponentsFor` and `ShopifySync.PickVariant`);
- the line loop of `_parse_order`, a sequence comprehension in
  `ShopifySync.ParseOrder`;
- the comprehension of `get_non_zero_entries`, the recursive
  `StocktakeState.NonZeroEntries`.

Modelling conventions:

- Quantities, lengths and widths are integers.
- Weights, rates and yields are exact reals.
- Python's "infinite runway" is `None`.
- Timestamps are integers in seconds. The current time, generated ids and
  date strings are parameters.
- A mesh usage record also carries the form of its stored date
  (`Mesh.DateForm`): `Zoned` when the text ends in "Z" or an offset,
  `Naive` otherwise.

The core updater (`core/stocktake_updater.py`) and the wizard's updater
(`stocktake_wizard/inventory_updater.py`) are the same transforms. The
model serves both. The spreadsheet copy is a `Sheets` value:

- `NoSheets` is the wizard's form, whose summary has no flag;
- `SheetsOff` reports `false`;
- `SheetsWrite(ok)` reports what the write returned.

Some behaviours of the code are reproduced as written and stated as
lemmas:

- A saddle stocktake keeps only the other saddle type's entries. Stock of
  a third type, such as "trim", does not survive it
  (`StocktakeUpdate.SaddlesUpdateInventory`).
- A mesh stocktake clears the cutting history. The rewritten file has none.
- The mesh forecast sorts a runway of 0 days like an infinite one, after
  every other entry of its tier. The sort key is `days_remaining or inf`,
  and 0 is falsy (`Forecasting.SortDays`).
- The forecaster caches the first successful order summary whatever window
  it covered. Later requests for any window are answered from that cache
  (`Forecasting.ShopifyUsageCache`).
- `get_non_zero_entries` raises when any item still has no quantity
  (`StocktakeState.NonZeroEntries`).
- A failed `remove_roll` returns False and writes nothing, but in memory the
  drained entries stay drained and its usage records stay appended
  (`Mesh.MeshManager.RemoveRoll`).

One behaviour is a defect; it is recorded under "## Findings", and the rest
of the model uses the intended behaviour.

## Model

Each row names the member whose contract states the property. Whole source
functions that only compute a value are specification functions without rows
of their own; the rows of the lemmas about them cite them:

- `Mesh`: `Windowed` (`get_usage`), `AverageDailyUsage`, `DaysRemaining`,
  `MonthsRemaining`, `AlertsOf` (`get_reorder_alerts`), `DrainFrom` (the
  `remove_roll` loop), `StockLevel`, `StockMetres`, `InventorySummary`,
  `IncomingOrders` and `IncomingSummary`.
- `Saddle`, `Screw` and `Box`: `Stocked` (add), `Withdrawn` (remove) and
  `StockSummary` (`Saddle`) or `Summary` (`Screw`, `Box`); `Saddle` also has
  `ProductionEstimate`.
- `Forecasting`: `UsageByPeriod`, `UsageByProduct`, `MeshForecasts`
  (`calculate_stock_forecast`), `ReorderSuggestions`, `SaddleForecast`,
  `ScrewForecast`, `TrimForecast`, `BoxForecast`, `ShopifyUsage`,
  `ComponentForecastOf` and `SummaryStatsOf`.
- `ShopifySync`: `ComponentsFor` (`_get_components_for_product`),
  `ProductMatches`, `Accumulate` and `Summarize`
  (`calculate_component_usage`).
- `StocktakeItems`: `ColourItems`, `BoxItems`, `MeshItems`, `AllItems` and
  `CategoryCounts`.
- `StocktakeState`: `ProgressOf`, `CategoryProgressOf`, `Saved` (`to_dict`),
  `Loaded` (`from_dict`) and `InfoOf` (`get_saved_progress_info`).
- `StocktakeUpdate`: `ScrewsUpdate`, `TrimsUpdate`, `SaddlesUpdate`,
  `BoxesUpdate`, `MeshUpdate` (the five `update_*_inventory`) and
  `ApplyStocktake` (`apply_stocktake`).

| member | source | states |
|---|---|---|
| Box.PackSize | core/box_manager.py:174-176 | a type missing from the config, or configured without `pack_size`, has pack size 1; otherwise the configured size |
| Box.StockedQty | core/box_manager.py:67-85 | adding `q` boxes of type t raises t's total stock by exactly `q` and every other type's by nothing |
| Box.StockedShape | core/box_manager.py:67-85 | only the type's first entry changes, at most one entry is appended (exactly when the type had none), and one-entry-per-type is preserved |
| Box.FirstQtyIsStock | core/box_manager.py:159-164 | with one entry per type, the first matching entry's quantity is the type's whole stock |
| Box.WithdrawnWhen | core/box_manager.py:106-127 | a removal succeeds exactly when the type's first entry has a quantity covering the request (a later entry that would cover it does not help); the entry is left non-negative |
| Box.WithdrawnQty | core/box_manager.py:106-127 | a successful removal lowers its type's stock by exactly the quantity, leaves every other type's stock alone and keeps one entry per type |
| Box.SummaryRows | core/box_manager.py:144-157 | the summary has one row per entry holding boxes, in inventory order, and each row's packs × pack size + loose equals its quantity with 0 ≤ loose < pack size |
| Box.BoxManager.constructor | core/box_manager.py:23-35 | the manager holds the loaded configuration, inventory and usage history |
| Box.BoxManager.AddStock | core/box_manager.py:47-85 | the inventory becomes the merged-stock function of the old one (the first entry of the type grows, else a new entry is appended), the returned entry is that entry, and the usage history is unchanged |
| Box.BoxManager.RemoveStock | core/box_manager.py:87-127 | refused (false, nothing changed) when the type has no entry or its first entry holds less than asked; otherwise that entry loses the quantity and exactly one usage record is appended |
| Box.BoxManager.GetStock | core/box_manager.py:129-142 | the result is the entries of the type, in order, and every entry when no type is given |
| Box.BoxManager.GetStockSummary | core/box_manager.py:144-157 | fails with ZeroDivisionError exactly when some entry holding boxes has pack size 0; otherwise the summary rows |
| Box.BoxManager.GetStockByType | core/box_manager.py:159-164 | the first matching entry's quantity or 0, which is the type's total when each type has one entry |
| Screw.StockedQty | core/screw_manager.py:69-88 | adding `q` screws of (type, colour) raises that key's total stock by exactly `q` and no other key's |
| Screw.StockedShape | core/screw_manager.py:69-88 | only the key's first entry changes, at most one entry is appended, and one-entry-per-key is preserved |
| Screw.FirstQtyIsStock | core/screw_manager.py:166-171 | with one entry per (type, colour), the first matching entry's quantity is the key's whole stock |
| Screw.WithdrawnWhen | core/screw_manager.py:111-133 | a removal succeeds exactly when the key's first entry covers the request (a later entry that would cover it does not help); the entry is left non-negative |
| Screw.WithdrawnQty | core/screw_manager.py:111-133 | a successful removal lowers its key's stock by exactly the quantity and no other key's, keeping one entry per key |
| Screw.SummaryRows | core/screw_manager.py:153-164 | for a non-zero pack size the rows are exactly the entries holding screws, in order, each with its floor-divided number of full boxes |
| Screw.ScrewManager.constructor | core/screw_manager.py:23-35 | the manager holds the configured pack size, inventory and usage history |
| Screw.ScrewManager.AddStock | core/screw_manager.py:47-88 | the inventory becomes the merged-stock function of the old one, the returned entry is the grown or new entry, and the usage history is unchanged |
| Screw.ScrewManager.RemoveStock | core/screw_manager.py:90-133 | refused (false, nothing changed) when the key has no entry or its first entry does not cover the quantity; otherwise that first entry loses it and one usage record is appended |
| Screw.ScrewManager.GetStock | core/screw_manager.py:135-151 | the entries passing both optional filters, in order; an empty filter matches every entry |
| Screw.ScrewManager.GetStockSummary | core/screw_manager.py:153-164 | with pack size 0 it fails with ZeroDivisionError exactly when some entry holds screws (and is empty otherwise); with a non-zero pack size it is the summary rows |
| Screw.ScrewManager.GetStockByTypeAndColour | core/screw_manager.py:166-171 | the first matching entry's quantity or 0, which is the key's total when each key has one entry |
| Mesh.PassesKeyFilter | core/mesh_manager.py:172-183 | a filter built from a key whose fields are all truthy passes exactly that key |
| Mesh.Prune | core/mesh_manager.py:151-154 | the pruned inventory holds exactly the entries with a positive quantity |
| Mesh.OnShelfNonneg | core/mesh_manager.py:121-126 | the rolls `remove_roll` can draw on for a key are never negative |
| Mesh.PruneOnShelf | core/mesh_manager.py:151-154 | pruning zero entries loses no stock of any key |
| Mesh.StockLevelIsOnShelf | core/mesh_manager.py:159-183 | with a truthy key and no negative entry, `get_stock_level` counts exactly the rolls `remove_roll` can draw on |
| Mesh.DrainTake | core/mesh_manager.py:121-146 | at a matching entry with stock the loop takes min(entry, remaining), logs that amount, and stops once nothing remains |
| Mesh.DrainSkip | core/mesh_manager.py:121-126 | the loop passes over entries of another key or without stock |
| Mesh.Drain | core/mesh_manager.py:119-146 | the loop of `remove_roll` computes the drain function: the drained inventory, the usage log and what remains |
| Mesh.DrainInvShape | core/mesh_manager.py:121-130 | a drain changes only quantities, and only of matching entries with stock |
| Mesh.DrainLogShape | core/mesh_manager.py:133-143 | every logged usage record carries the removal's key, date, reason and order id |
| Mesh.DrainShape | core/mesh_manager.py:119-146 | the two facts above together: only matching quantities change and every record is of the key |
| Mesh.DrainTotals | core/mesh_manager.py:119-146 | the key's shelf stock falls by exactly what the drain took, and the logged quantities add up to it |
| Mesh.DrainRemaining | core/mesh_manager.py:119-149 | what remains lies between 0 and the request, and is positive only when every matching entry has been emptied |
| Mesh.RemoveRollOutcome | core/mesh_manager.py:119-157 | a removal succeeds exactly when the key's stock covers the quantity; on success the stock (after pruning) falls by exactly the quantity and the log sums to it; on failure the matching entries are all emptied and the log holds everything taken |
| Mesh.RemoveRollOtherKeys | core/mesh_manager.py:119-157 | a removal, pruned or not, moves no other key's stock |
| Mesh.AddRollStock | core/mesh_manager.py:77-92 | an appended roll adds its quantity (and its metres) to every filter and key it matches and to nothing else |
| Mesh.InventorySummaryRows | core/mesh_manager.py:207-233 | the summary has one row per key present, and each row's quantity and metres are that key's stock level and stock metres |
| Mesh.AverageDailyUsageWindow | core/mesh_manager.py:253-277 | for days > 0 the average times `days` is the metres of the records inside the window that pass the filter |
| Mesh.WindowedByInstant | core/mesh_manager.py:245-251 | as intended (`Windowed`): the window never raises, and a record is in it exactly when it is in the history and dated at or after now − days, whatever the form of its date |
| Mesh.UsageAsWritten | core/mesh_manager.py:245-251 | as written: raises TypeError exactly when some record's date is zoned; otherwise the same records as Windowed |
| Mesh.RemovalBreaksUsage | core/mesh_manager.py:130-140 | once a removal has logged a record, dated with a trailing "Z", `get_usage` as written raises for every window |
| Mesh.ZoneDatedRecordRaises | core/mesh_manager.py:245-249 | one record dated 2025-01-01T00:00:00Z inside a 30-day window: as written raises, as intended returns the record |
| Mesh.RunwayMeaning | core/mesh_manager.py:283-313 | the runway is infinite exactly when the average usage is 0; with non-negative stock and usage it is non-negative; months are days / 30 and infinite together with days |
| Mesh.AlertFor | core/mesh_manager.py:332-345 | a group raises an alert exactly when its months remaining are finite and below the threshold; the alert carries the group's key and metres, months rounded to one place, and urgency HIGH exactly when months < 4, else MEDIUM |
| Mesh.AlertsOfExact | core/mesh_manager.py:332-345 | an alert is listed exactly when some group raises it |
| Mesh.ByMonthsTotalPreorder | core/mesh_manager.py:347 | ordering alerts by months remaining is a total preorder, so the stable sort is well defined |
| Collections.SortByStable | core/mesh_manager.py:347 | the sort is stable: the elements sharing a key come out in their input order, as Python's `sorted` keeps them |
| Mesh.ReorderAlertsSpec | core/mesh_manager.py:315-347 | the alerts come out sorted by months remaining and are exactly the alerts the groups raise |
| Mesh.CuttingOptions | core/mesh_manager.py:353-378 | any source width other than 1000, 500 or 750 mm has no preset |
| Mesh.CuttingOptionsSum | core/mesh_manager.py:353-378 | every preset's widths add up to its source width, so `cut_roll` accepts it |
| Mesh.CutRollsOnShelf | core/mesh_manager.py:447-456 | the rolls a cut adds hold, for a width, the positive count of its bucket |
| Mesh.WidthCountsPositive | core/mesh_manager.py:443-445 | every width bucket of the cut holds a positive count |
| Mesh.BumpPositive | core/mesh_manager.py:443-445 | counting one more width keeps every bucket positive |
| Mesh.PositiveCountIsCountOf | core/mesh_manager.py:443-445 | with unique positive buckets, a width's positive count is its bucket count |
| Mesh.CutRollsStock | core/mesh_manager.py:441-456 | the rolls a cut adds hold, for each width, exactly its number of occurrences among the targets |
| Mesh.CutRollStock | core/mesh_manager.py:413-456 | a successful cut leaves the source key one roll poorer and gives every width of the same type, length and colour its number of occurrences among the targets |
| Mesh.IncomingSummaryRows | core/mesh_manager.py:724-755 | each incoming-summary row holds exactly the incoming rolls and metres of its key, one row per key |
| Mesh.ByDeliveryTotalPreorder | core/mesh_manager.py:575 | ordering by expected delivery is a total preorder |
| Mesh.IncomingOrders | core/mesh_manager.py:545-575 | the result holds exactly the orders passing the status, type and colour filters, sorted by expected delivery |
| Mesh.FirstOrdered | core/mesh_manager.py:590-591 | finds the first order with the id that is still "ordered", and none exists when it returns nothing |
| Mesh.ReceiveKeepsPosition | core/mesh_manager.py:577-609 | receiving an order moves its rolls from incoming to on-shelf: shelf plus incoming stock is unchanged for every filter |
| Mesh.CancelIncoming | core/mesh_manager.py:611-630 | cancelling an order removes exactly its rolls from the incoming stock |
| Mesh.AddIncomingStock | core/mesh_manager.py:500-543 | a new "ordered" order adds its quantity to every filter it passes |
| Mesh.MeshManager.constructor | core/mesh_manager.py:23-35 | the manager holds the loaded configuration, inventory, usage, incoming orders and cutting history |
| Mesh.MeshManager.AddRoll | core/mesh_manager.py:47-92 | a new roll is always appended, never merged, and nothing else changes |
| Mesh.MeshManager.RemoveRoll | core/mesh_manager.py:94-157 | answers whether the drain covered the quantity; on success the inventory is the pruned drained inventory, on failure the drained inventory stays as the loop left it; the usage log grows by the drain's records either way |
| Mesh.MeshManager.GetStockLevel | core/mesh_manager.py:159-183 | the sum of quantities over the entries passing the falsy-means-any filter |
| Mesh.MeshManager.GetStockMetres | core/mesh_manager.py:185-205 | the sum of quantity × length over the entries passing the filter |
| Mesh.MeshManager.GetInventorySummary | core/mesh_manager.py:207-233 | the per-key totals in first-seen order (their meaning is InventorySummaryRows) |
| Mesh.MeshManager.GetUsage | core/mesh_manager.py:239-251 | the usage records dated at or after now − days, in order; dates compared as instants, as intended (see Findings) |
| Mesh.MeshManager.GetAverageDailyUsage | core/mesh_manager.py:253-277 | the windowed metres divided by days, or 0 for days ≤ 0 (see AverageDailyUsageWindow); dates compared as instants, as intended (see Findings) |
| Mesh.MeshManager.GetDaysRemaining | core/mesh_manager.py:283-301 | stock metres over the 180-day average, infinite when that is 0 (see RunwayMeaning); dates compared as instants, as intended (see Findings) |
| Mesh.MeshManager.GetMonthsRemaining | core/mesh_manager.py:303-313 | days remaining / 30, infinite with it; dates compared as instants, as intended (see Findings) |
| Mesh.MeshManager.GroupAlert | core/mesh_manager.py:332-345 | the loop body of `get_reorder_alerts` produces the group's alert as AlertFor states it; dates compared as instants, as intended (see Findings) |
| Mesh.MeshManager.GroupInventory | core/mesh_manager.py:324-330 | groups the inventory by (type, width, colour), summing metres, in first-seen order |
| Mesh.MeshManager.CollectAlerts | core/mesh_manager.py:332-345 | collects one alert per group that runs short, in group order; dates compared as instants, as intended (see Findings) |
| Mesh.MeshManager.GetReorderAlerts | core/mesh_manager.py:315-347 | the alerts of the groups, stably sorted by months remaining (see ReorderAlertsSpec); dates compared as instants, as intended (see Findings) |
| Mesh.MeshManager.CutRoll | core/mesh_manager.py:380-479 | fails without change when the widths do not sum to the source or no source roll is in stock; fails with the drain's changes left in place when the removal fails; otherwise removes one source roll, appends one roll per distinct width with its count, logs usage and appends the cut record |
| Mesh.MeshManager.AddCutRolls | core/mesh_manager.py:447-456 | one new roll per width bucket, in first-seen order, returning the pieces |
| Mesh.MeshManager.AddIncomingOrder | core/mesh_manager.py:500-543 | appends a new order with status "ordered" and changes nothing else |
| Mesh.MeshManager.GetIncomingOrders | core/mesh_manager.py:545-575 | the filtered orders, sorted by expected delivery (see IncomingOrders) |
| Mesh.MeshManager.MarkOrderReceived | core/mesh_manager.py:577-609 | with no "ordered" order of the id nothing changes; otherwise the first such order becomes a new shelf roll and is marked received with today's date |
| Mesh.MeshManager.CancelIncomingOrder | core/mesh_manager.py:611-630 | deletes the first "ordered" order with the id, or changes nothing and answers false |
| Mesh.MeshManager.GetIncomingStock | core/mesh_manager.py:632-661 | the rolls of the "ordered" orders passing the filter |
| Mesh.MeshManager.GetIncomingMetres | core/mesh_manager.py:663-688 | the metres of the "ordered" orders passing the type, width and colour filter |
| Mesh.MeshManager.GetStockWithIncoming | core/mesh_manager.py:690-722 | shelf and incoming rolls of the key, their metres at the key's length, and the totals as their sums |
| Mesh.MeshManager.GetIncomingSummary | core/mesh_manager.py:724-755 | the per-key incoming totals (see IncomingSummaryRows) |
| Mesh.CountWidths | core/mesh_manager.py:443-445 | the loop counting each target width computes the width buckets |
| Saddle.TypeYield | core/saddle_manager.py:188-192 | an unconfigured type uses the global yield and waste; a configured one uses its own values, each falling back to the global one when missing |
| Saddle.WasteKg | core/saddle_manager.py:194-195 | usable weight plus waste weight is the whole weight used, and with a waste percentage in [0, 100] the waste lies between 0 and that weight |
| Saddle.ExpectedOutputBounds | core/saddle_manager.py:194-196 | for a non-negative weight and a sane yield the usable weight lies in [0, w] and the expected count is `int(usable × yield)`: non-negative, at most the product and within 1 of it |
| Saddle.ExpectedOutputMonotone | core/saddle_manager.py:194-196 | more material never gives fewer expected saddles |
| Saddle.ProductionEstimate | core/saddle_manager.py:243-278 | `expected_saddles` equals `expected_output`; the output unit is the type's configured one (default "saddles") only for a non-empty configured type; with a sane configuration and a non-negative weight every figure is non-negative and the waste percentage lies in [0, 100] |
| Saddle.EstimateMatchesRun | core/saddle_manager.py:243-278 | the estimate for a type predicts exactly the expected count, and the rounded usable and waste weights, that a production run of the same weight from such a coil records |
| Saddle.Drawn | core/saddle_manager.py:202-207 | the coil loses exactly the weight used, stays non-negative when the run fits, becomes "depleted" exactly when nothing is left and "in_use" otherwise, and nothing else about it changes |
| Saddle.StockedQty | core/saddle_manager.py:297-323 | adding stock raises exactly its own (type, colour)'s total, by exactly the quantity |
| Saddle.StockedShape | core/saddle_manager.py:297-323 | only the key's first entry changes, at most one entry (with the new id) is appended, ids are kept, and one entry per key is preserved |
| Saddle.StockedFirst | core/saddle_manager.py:346-352 | after adding, the key has an entry and its first one holds the old amount plus the quantity, which is what `add_saddles` returns |
| Saddle.QtyOfFirst | core/saddle_manager.py:375-378 | with one entry per key, the first entry of a key holds all of its stock |
| Saddle.WithdrawnWhen | core/saddle_manager.py:375-397 | with one entry per key, a removal succeeds exactly when the key has an entry whose stock covers the quantity |
| Saddle.WithdrawnQty | core/saddle_manager.py:375-397 | a successful removal lowers its key's stock by exactly the quantity and leaves every other key alone |
| Saddle.WithdrawnInvariant | core/saddle_manager.py:375-397 | a successful removal keeps the entry count and one entry per key, and leaves a non-negative entry non-negative |
| Saddle.StockSummary | core/saddle_manager.py:419-433 | one row per summary bucket |
| Saddle.StockSummaryKeys | core/saddle_manager.py:419-433 | the summary has exactly one row per (type, colour) that has an entry with a positive quantity |
| Saddle.StockSummaryCounts | core/saddle_manager.py:419-433 | each row holds the sum of the positive quantities of its (type, colour) |
| Saddle.SaddleManager.constructor | core/saddle_manager.py:24-27 | the manager holds the loaded configuration, coils, stock and histories |
| Saddle.SaddleManager.AddCoil | core/saddle_manager.py:60-109 | appends a full coil "in_stock" whose estimated yield is the expected output of its whole weight under its type's yield, and changes nothing else |
| Saddle.SaddleManager.GetAvailableCoils | core/saddle_manager.py:139-142 | the coils of the type (any type when empty) that still have weight, in order |
| Saddle.SaddleManager.LogProduction | core/saddle_manager.py:148-241 | an unknown coil or a run heavier than the coil's weight fails with nothing changed; otherwise the coil is drawn down, the record holds the rounded usable and waste weights, the expected count and the produced count (the expected one when not given), it is appended to the history, and the produced saddles are merged into stock |
| Saddle.SaddleManager.AddToStock | core/saddle_manager.py:297-323 | the stock becomes the merged-stock function of the old stock; nothing else changes |
| Saddle.SaddleManager.AddSaddles | core/saddle_manager.py:325-352 | merges into stock and returns the key's entry, which holds the old first amount plus the quantity |
| Saddle.SaddleManager.RemoveSaddles | core/saddle_manager.py:354-397 | refused (false, nothing changed) when the key's first entry is missing or short; otherwise that entry loses the quantity and one usage record is appended |
| Saddle.SaddleManager.GetSaddleStock | core/saddle_manager.py:399-417 | the entries passing the optional type and colour filters that hold a positive quantity, in order |
| Saddle.SaddleManager.TallyInStock | core/saddle_manager.py:421-431 | the summary loop sums positive entries per (type, colour) in first-seen order |
| Saddle.SaddleManager.GetStockSummary | core/saddle_manager.py:419-433 | the summary rows (their meaning is StockSummaryKeys and StockSummaryCounts) |
| ShopifySync.VariantTitle | core/shopify_sync.py:189-190 | a line's variant text is "" when the variant or its title is missing and the title otherwise |
| ShopifySync.ParseOrder | core/shopify_sync.py:178-199 | the order number is the name with every "#" removed (RemoveChar: no "#" left, one character fewer per "#", the others kept in order by RemoveCharPositions); date and status are copied; each line item becomes one parsed line, in order, with its title, quantity and sku copied and its variant title as VariantTitle reads it |
| Builtins.RemoveCharPositions | core/shopify_sync.py:181 | `replace("#", "")` keeps every other character in order: the one at index i moves to i minus the number of "#" before it |
| ShopifySync.MatchesFromIff | core/shopify_sync.py:308-312 | the term loop answers true exactly when some term occurs in both texts |
| ShopifySync.ProductMatchesIff | core/shopify_sync.py:300-312 | an order title matches a product name exactly when one of the seven key terms occurs in both, compared lowercased |
| ShopifySync.NormalSize | core/shopify_sync.py:282-290 | a normalised size holds no space |
| ShopifySync.ParseSize | core/shopify_sync.py:275-282 | an empty variant gives no size; a size, when found, is the stripped text before the first "/", lowercased with spaces removed, and it contains an "m" and no "/" |
| ShopifySync.PickVariant | core/shopify_sync.py:288-296 | the chosen variant is the first whose normalised size equals the parsed size, or the first variant when none does |
| ShopifySync.ComponentsForSpec | core/shopify_sync.py:284-298 | the lookup gives nothing exactly when no product both matches the title and has variants; otherwise it gives the chosen variant's components of the first such product |
| ShopifySync.ComponentsFromVariant | core/shopify_sync.py:284-298 | any components found belong to some variant of some product of the kit breakdown |
| ShopifySync.Scale | core/shopify_sync.py:240-244 | each of the five component counts of a kit is multiplied by the line quantity |
| ShopifySync.Plus | core/shopify_sync.py:240-244 | adding totals adds each component separately |
| ShopifySync.AccumulateSnoc | core/shopify_sync.py:222-244 | processing one more line item extends the running usage by exactly that line's contribution |
| ShopifySync.LinesOfSnoc | core/shopify_sync.py:222-223 | the lines of one more order are the earlier lines followed by that order's lines |
| ShopifySync.AverageOver | core/shopify_sync.py:247-254 | each daily average times the number of days is the component total |
| ShopifySync.AccumulateTotals | core/shopify_sync.py:222-244 | each component total is the sum over all lines of the kit's count for that component times the line quantity; lines without a kit add nothing |
| ShopifySync.AccumulateMesh | core/shopify_sync.py:230-237 | the mesh list has one record per line whose kit has mesh, in line order, with the width defaulting to 250 and the length (default 0) multiplied by the quantity |
| ShopifySync.SummarizeShape | core/shopify_sync.py:211-256 | the order count is the number of orders, the period is `days`, daily averages exist exactly when `days > 0`, and each times `days` gives its total |
| ShopifySync.SummarizeTotals | core/shopify_sync.py:222-244 | each component total of the summary sums, over every line of every order, what that line contributes |
| ShopifySync.TotalsNonneg | core/shopify_sync.py:222-244 | non-negative quantities and kit counts give non-negative totals |
| ShopifySync.ContributionNonneg | core/shopify_sync.py:240-244 | a line with a non-negative quantity contributes a non-negative count when every kit count is non-negative |
| ShopifySync.Syncer.constructor | core/shopify_sync.py:46-64 | the syncer holds the loaded kit breakdown and the cached orders with their sync stamp, order total and days fetched |
| ShopifySync.Syncer.FetchOrders | core/shopify_sync.py:71-139 | while the cache is fresh (not forced, synced less than an hour ago) the cached orders are returned and nothing changes; otherwise every received order node is parsed, in order, and the result replaces the cache with the sync time, its count and the days fetched |
| ShopifySync.AddOrderLines | core/shopify_sync.py:223-244 | the inner loop adds the lines of one order to the running totals and mesh list, exactly as processing those lines in order does |
| ShopifySync.Syncer.Tabulate | core/shopify_sync.py:211-256 | the summing loops produce exactly the summary function of the orders, whose meaning is SummarizeShape, SummarizeTotals and AccumulateMesh |
| ShopifySync.Syncer.CalculateComponentUsage | core/shopify_sync.py:201-256 | the usage is the summary of the cached orders when the cache is fresh, and otherwise of the freshly parsed orders, which become the new cache |
| StocktakeItems.Slug | core/stocktake_items.py:36 | the colour's part of an id has the colour's length, each space replaced by "_" and each other character lowercased, so it holds no space |
| StocktakeItems.LexLeTotalPreorder | core/stocktake_items.py:27 | Python's string order is a total preorder, which the sort needs |
| StocktakeItems.SortedColours | core/stocktake_items.py:27 | `sorted(colours)` has the same colours, each as often, in string order |
| StocktakeItems.SortedHead | core/stocktake_items.py:27 | the head of a sorted list is at or below every element |
| StocktakeItems.TailMultiset | core/stocktake_items.py:27 | equal lists of colours with equal heads have equal tails as multisets |
| StocktakeItems.SortedUnique | core/stocktake_items.py:27 | two sorted lists with the same elements are equal, so the sorted colour list is determined by the configured colours |
| StocktakeItems.ColourItemsShape | core/stocktake_items.py:21-99 | exactly one item per configured colour (repeats kept), in colour order, each of the generator's category and unit with id prefix plus slug |
| StocktakeItems.GenerateColourItems | core/stocktake_items.py:21-99 | the loop over the sorted colours builds exactly the colour item list |
| StocktakeItems.GenerateBoxItems | core/stocktake_items.py:102-119 | one "boxes" item per configured box type, in configuration order, with no colour, its pack size, and id "box_" plus the type |
| StocktakeItems.WidthBlockLength | core/stocktake_items.py:135-136 | one colour's block holds |widths| × |lengths| rolls |
| StocktakeItems.ColourBlocksUniform | core/stocktake_items.py:134-136 | every colour's block has the same length |
| StocktakeItems.MeshGridLength | core/stocktake_items.py:134-136 | the mesh list holds |colours| × |widths| × |lengths| items |
| StocktakeItems.WidthBlockAt | core/stocktake_items.py:135-146 | within one colour the roll of width j and length p sits at j·|lengths| + p |
| StocktakeItems.MeshGridAt | core/stocktake_items.py:134-146 | the roll of colour i, width j and length p sits at i·(|widths|·|lengths|) + j·|lengths| + p: colour-major, then width, then length |
| StocktakeItems.LengthRowStep | core/stocktake_items.py:136-146 | one more length appends exactly that roll |
| StocktakeItems.WidthBlockStep | core/stocktake_items.py:135-146 | one more width appends exactly its row of lengths |
| StocktakeItems.MeshGridStep | core/stocktake_items.py:134-146 | one more colour appends exactly its block |
| StocktakeItems.AppendLengthRow | core/stocktake_items.py:136-146 | the innermost loop appends one roll per length, in order |
| StocktakeItems.AppendWidthBlock | core/stocktake_items.py:135-146 | the middle loop appends each width's row, in order |
| StocktakeItems.GenerateMeshItems | core/stocktake_items.py:122-177 | the three nested loops over sorted colours, widths and lengths build exactly the mesh grid |
| StocktakeItems.MeshItemsShape | core/stocktake_items.py:122-177 | the mesh list has |colours| × |widths| × |lengths| items, each with its generator's category, mesh type and unit and an id made of size and colour slug |
| StocktakeItems.FromName | core/stocktake_items.py:236-253 | a category recognised from a name has exactly that name |
| StocktakeItems.FromNameName | core/stocktake_items.py:236-253 | every category is recognised from its own name |
| StocktakeItems.AllListed | core/stocktake_items.py:192-194 | the default category list holds all seven categories |
| StocktakeItems.NamesDistinct | core/stocktake_items.py:236-253 | distinct categories have distinct names |
| StocktakeItems.GeneratedCategory | core/stocktake_items.py:21-177 | every item a generator makes is of that generator's category |
| StocktakeItems.GeneratorsLabelled | core/stocktake_items.py:21-177 | each generator is labelled with its own category |
| StocktakeItems.PartFilter | core/stocktake_items.py:198-217 | the part one `if` contributes, filtered to a category, is the whole part for its own category and empty otherwise |
| StocktakeItems.PartsOfByCategory | core/stocktake_items.py:196-219 | over distinct categories, filtering the combined list to a category leaves that category's part, or nothing when it is not listed |
| StocktakeItems.AllItemsByCategory | core/stocktake_items.py:180-219 | the items of a category in the combined list are exactly that generator's output when the category is chosen (no list means all) and nothing otherwise |
| StocktakeItems.ByName | core/stocktake_items.py:224-232 | a dictionary keyed by every category name, and only those |
| StocktakeItems.CategoryCounts | core/stocktake_items.py:222-232 | each category name maps to the length of its generator's list |
| StocktakeItems.CountValue | core/stocktake_items.py:222-232 | the counts are the configured colour count, box-type count, or colours × widths × lengths for mesh |
| StocktakeItems.PartsOfLength | core/stocktake_items.py:196-219 | with every category chosen, the combined list is as long as the sum of the counts of the listed categories |
| StocktakeItems.AllItemsLength | core/stocktake_items.py:180-232 | the full list is as long as all category counts added up |
| StocktakeState.IdsSize | core/stocktake_state.py:31 | there are no more distinct item ids than items |
| StocktakeState.Uncounted | core/stocktake_state.py:31 | the fresh quantity map has exactly the item ids as keys, each mapped to None |
| StocktakeState.AllEnteredIffCompleted | core/stocktake_state.py:80-103 | `is_complete` (every value entered) holds exactly when the completed count equals the number of keys |
| StocktakeState.CompletedAtMostKeys | core/stocktake_state.py:80 | the completed count never exceeds the number of keys |
| StocktakeState.SubsetSize | core/stocktake_state.py:80 | a subset of ids is no larger than the set |
| StocktakeState.ProgressOf | core/stocktake_state.py:77-87 | the cursor is shown 1-based, the total is the item count, completed and remaining add up to the total, and the percentage is 0 for an empty list |
| StocktakeState.ProgressBounds | core/stocktake_state.py:77-87 | while the map holds only item ids, the completed count lies within the total and the percentage within [0, 100], reaching 100 when nothing remains |
| StocktakeState.RatioAtMostOne | core/stocktake_state.py:86 | a completed count within the total gives a ratio in [0, 1], exactly 1 when equal |
| StocktakeState.InitialProgress | core/stocktake_state.py:27-87 | right after `initialize` nothing is entered and everything remains |
| StocktakeState.CategoryProgressOf | core/stocktake_state.py:89-99 | one row per category bucket |
| StocktakeState.CategoryProgressSound | core/stocktake_state.py:89-99 | one row per category that has an item, no category twice, each row's completed count within its total, and the totals add up to the item count |
| StocktakeState.CategoryProgressCompleted | core/stocktake_state.py:89-99 | the completed counts add up to the number of items with an entered quantity, counted once per item |
| StocktakeState.NonZeroEntries | core/stocktake_state.py:114-120 | an Ok result is exactly the filter-map of the items to (item, quantity) for the positive ones, so in item order and each once; an item whose quantity is None makes the comparison raise, exactly then |
| StocktakeState.NonZeroWhenComplete | core/stocktake_state.py:101-120 | once every quantity is entered the comparison never raises and no returned entry has quantity zero |
| StocktakeState.SaveLoadRoundTrip | core/stocktake_state.py:122-143 | saving and reloading gives back the session, with `last_saved` set to the save time |
| StocktakeState.LoadSaveKeeps | core/stocktake_state.py:122-143 | loading a dictionary that has every key and saving again gives back the dictionary, with `last_saved` set to the save time |
| StocktakeState.InfoMatchesProgress | core/stocktake_state.py:181-198 | the saved-progress header reports the same completed and total counts as the saved session's progress, and the save time |
| StocktakeState.PyIndex | core/stocktake_state.py:47 | Python's `items[i]` reads position i for a non-negative index and counts from the end for a negative one |
| StocktakeState.StocktakeSession.constructor | core/stocktake_state.py:19-25 | a new session has no items, no quantities, the cursor at 0, no categories and no timestamps |
| StocktakeState.StocktakeSession.FromDict | core/stocktake_state.py:133-143 | the session is the loaded form of the dictionary, each missing key taking its default |
| StocktakeState.StocktakeSession.Initialize | core/stocktake_state.py:27-34 | every item uncounted, the cursor on the first item, the start time set and `last_saved` cleared |
| StocktakeState.StocktakeSession.SetQuantity | core/stocktake_state.py:36-38 | only the quantity of that id changes; setting an item's id keeps the map's keys among the item ids |
| StocktakeState.StocktakeSession.GetQuantity | core/stocktake_state.py:40-42 | a quantity exactly when the id is present with an entered value |
| StocktakeState.StocktakeSession.SkipCurrent | core/stocktake_state.py:44-48 | records 0 for the item under the cursor when the cursor is below the end; a cursor below `-len(items)` raises IndexError and nothing changes |
| StocktakeState.StocktakeSession.NextItem | core/stocktake_state.py:50-55 | moves forward exactly when not on the last item, changes nothing else, and keeps the cursor in range |
| StocktakeState.StocktakeSession.PreviousItem | core/stocktake_state.py:57-62 | moves back exactly when above the first item, changes nothing else, and keeps the cursor in range |
| StocktakeState.StocktakeSession.GoToItem | core/stocktake_state.py:64-69 | jumps exactly when the index lies in the list and otherwise changes nothing |
| StocktakeState.StocktakeSession.GetCurrentItem | core/stocktake_state.py:71-75 | the item under the cursor exactly when the cursor is in range |
| StocktakeState.StocktakeSession.GetCategoryProgress | core/stocktake_state.py:89-99 | the single pass over the items builds exactly the category progress rows |
| StocktakeState.StocktakeSession.GetSummary | core/stocktake_state.py:105-112 | every item, in order, with its quantity or None |
| Forecasting.DayStatusLadder | core/forecasting.py:520-531 | NO_USAGE exactly for an infinite runway; otherwise CRITICAL below the lead time in days, ORDER_NOW below twice it, LOW below three times it, and OK from there on |
| Forecasting.DayStatusMonotone | core/forecasting.py:520-531 | a longer runway is never more urgent |
| Forecasting.MonthStatusLadder | core/forecasting.py:210-220 | NO_USAGE exactly for an infinite runway; otherwise CRITICAL below the lead time in months, ORDER_NOW below one month more, LOW below two months more, and OK from there on |
| Forecasting.MonthStatusMonotone | core/forecasting.py:210-220 | more months of stock is never more urgent |
| Forecasting.RoundOpt | core/forecasting.py:230-231 | rounding keeps an infinite runway infinite (None) and a finite one finite |
| Forecasting.Runway | core/forecasting.py:200-205 | the runway is infinite exactly when the daily rate is not positive; otherwise it times the rate gives the quantity, and a non-negative quantity gives a non-negative runway |
| Forecasting.GroupingOf | core/forecasting.py:120-127 | "week" and "month" are recognised and every other `group_by` groups by day |
| Forecasting.PeriodRows | core/forecasting.py:129-131 | one row per period bucket holding its key and its metres |
| Forecasting.PeriodLeTotal | core/forecasting.py:131 | the order on period keys is a total preorder |
| Forecasting.PeriodRowsSum | core/forecasting.py:129-131 | the rows' metres add up to the buckets' totals |
| Forecasting.UsageByPeriodSorted | core/forecasting.py:131 | the periods come out in ascending key order |
| Forecasting.UsageByPeriodTotal | core/forecasting.py:110-131 | the period values add up to the metres (quantity times length) of the records dated at or after the cutoff |
| Forecasting.UsageByPeriodEntries | core/forecasting.py:110-131 | a period appears exactly when some record inside the window falls in it, and its value is the metres of the windowed records of that period |
| Forecasting.PeriodRowsMember | core/forecasting.py:129-131 | over buckets with distinct keys, a row is listed exactly when its period is a key and its metres are that key's total |
| Forecasting.TotalOfUnique | core/forecasting.py:151-152 | in a tally with distinct keys, the totals filed under a key are that entry's |
| Forecasting.ProductRows | core/forecasting.py:154-163 | one row per product bucket, its daily average the metres over `days` to 2 decimals |
| Forecasting.UsageByProductSorted | core/forecasting.py:165 | the products come out by metres used, largest first |
| Forecasting.ProductRowsMember | core/forecasting.py:154-163 | over buckets with distinct keys, a row is listed exactly when its product is a key and its rolls, metres and average are that key's |
| Forecasting.UsageByProductEntries | core/forecasting.py:133-165 | a product appears exactly when some windowed record has its (type, width, colour); its rolls and metres are the sums over those records and its daily average is the metres over `days`, to 2 decimals |
| Forecasting.MeshForecastFor | core/forecasting.py:195-234 | the entry of one key: shelf metres to 1 decimal, daily and monthly usage rounded, the lead time (default 4), no runway and NO_USAGE exactly when the rate is not positive, otherwise the month ladder on metres / rate / 30; an empty shelf with usage has 0 days left and is CRITICAL for a positive lead time |
| Forecasting.RateOfSource | core/forecasting.py:184-198 | a key absent from the rates reads 0, and a present one reads the average of a row with that key |
| Forecasting.RateKeys | core/forecasting.py:186 | the keys of the rate rows, in order |
| Forecasting.AddNew | core/forecasting.py:193 | the union lists every element of either list exactly once when the first has no repeats |
| Forecasting.ForecastKeys | core/forecasting.py:193 | the forecast keys are without repeats and are exactly the stocked keys and the used keys |
| Forecasting.ForecastsFor | core/forecasting.py:195-234 | one entry per key, in key order, computed from that key's shelf metres and rate |
| Forecasting.ForecastLeTotal | core/forecasting.py:236-240 | the sort key (status is OK, status is NO_USAGE, `days_remaining or inf`) is a total preorder |
| Forecasting.ForecastsForCount | core/forecasting.py:195-234 | over distinct keys, each key has exactly one entry when listed and none otherwise |
| Forecasting.RateKeysUsed | core/forecasting.py:184-187 | a key has a rate row exactly when some record of the last 180 days has it |
| Forecasting.RateOfUsage | core/forecasting.py:184-198 | a key's daily rate is its metres of the last 180 days over 180, to 2 decimals, or 0 when it has no such record |
| Forecasting.MeshForecastsSorted | core/forecasting.py:236-240 | the forecast is ordered by its sort key |
| Forecasting.MeshForecastsOnePerKey | core/forecasting.py:171-240 | exactly one entry per (type, width, colour) that has an inventory entry or was used in the last 180 days, and none for any other |
| Forecasting.MeshForecastsEntries | core/forecasting.py:171-240 | every entry is the forecast of its key from the shelf metres (quantity times length over that key's inventory entries) and the key's daily rate |
| Forecasting.UsedButNotStocked | core/forecasting.py:171-240 | a key used recently at a positive rate with nothing in inventory gets an entry with 0 metres, 0 days left and, for a positive lead time, status CRITICAL |
| Forecasting.KeyedEntry | core/forecasting.py:195-234 | a list in which a key has entries holds one at some index |
| Forecasting.ReorderAmountBounds | core/forecasting.py:254-271 | the suggested amount is never negative, is 0 when the stock covers lead time plus 2 months of usage, and is otherwise the shortfall to within half a metre |
| Forecasting.RoundShortfall | core/forecasting.py:261-271 | `round(max(0, x))` is never negative, 0 for x ≤ 0, and within half a unit of x otherwise |
| Forecasting.SuggestionFor | core/forecasting.py:251-274 | an entry yields a suggestion exactly when it is CRITICAL, ORDER_NOW or LOW and its monthly usage is positive |
| Forecasting.RoundWhole | core/forecasting.py:271 | rounding to a whole number stays within half a unit |
| Forecasting.ReorderSuggestionsExact | core/forecasting.py:242-276 | a suggestion is listed exactly when some entry of the mesh forecast produces it |
| Forecasting.OutlookStatus | core/forecasting.py:520-531 | no runway and NO_USAGE exactly when the rate is not positive; otherwise the status says whether the quantity lasts less than the lead time, less than twice it, less than three times it, or longer |
| Forecasting.LadderByRate | core/forecasting.py:520-531 | the day ladder on quantity / rate, restated on the quantity itself |
| Forecasting.ScaleCompare | core/forecasting.py:520-531 | multiplying by a positive rate keeps `<` |
| Forecasting.SaddleYieldNeedsWeight | core/forecasting.py:347-352 | a coil yields saddles exactly when weight × 0.73 × 66 reaches 1, and only when it has weight |
| Forecasting.SaddleForecastLines | core/forecasting.py:308-369 | the saddle lines are the shelf entries with a positive quantity and the coils that are in use, are not trim coils and would yield at least one saddle; a coil not in use never contributes, although the skip test alone lets weightless ones through |
| Forecasting.ScrewForecastLines | core/forecasting.py:371-412 | the screw lines are the stocked entries; saddle, trim and mesh screws run down at their own kind's rate and any other type at the saddle-screw rate, with a 7-day lead time |
| Forecasting.TrimForecastLines | core/forecasting.py:414-471 | the trim lines are the stocked entries of type "trim" and the trim coils holding enough metal for one trim at 8.4 trims a kilogram |
| Forecasting.BoxRateSign | core/forecasting.py:481-499 | a box type's daily rate is positive exactly when the period holds orders |
| Forecasting.BoxForecastLines | core/forecasting.py:473-518 | the box lines are the stocked entries, each used at its type's share (0.5, 0.3, 0.2, else 0.33) of the orders a day |
| Forecasting.BoxLineNoUsage | core/forecasting.py:481-506 | a box line reads NO_USAGE exactly when the summary's period holds no orders |
| Forecasting.ShopifyUsageCache | core/forecasting.py:57-89 | the cache is left alone or replaced by the new summary, never by the all-zero one; once a call's answer is cached the next call without a refresh returns the same summary whatever window it asks for |
| Forecasting.DegradedUsageZero | core/forecasting.py:71-89 | the fallback summary has no orders, the requested period, nothing used and a zero rate for every part |
| Forecasting.BoxesUseCachedUsage | core/forecasting.py:473-483 | once a summary is cached (found or just synced), the box lines use that same summary whatever window it covers; only when the first sync failed with nothing cached do they use a fresh 180-day sync |
| Forecasting.ComponentForecastOffline | core/forecasting.py:282-306 | when no sync succeeds and nothing is cached, every shelf, screw and box line reads NO_USAGE and every coil line COIL, none has a runway, and the usage totals show no orders |
| Forecasting.StockedProductsBound | core/forecasting.py:549-552 | products are counted once however many entries they have, and there are none exactly when no entry has a positive quantity |
| Forecasting.AlertCountsBound | core/forecasting.py:564-565 | the urgent and low entries never outnumber the forecast |
| Forecasting.SummaryCounts | core/forecasting.py:537-579 | the urgent entries are the CRITICAL and ORDER_NOW ones, the low entries the LOW ones, together at most the forecast's length, and the unique products at most the inventory's length |
| Forecasting.StockTallyPrefix | core/forecasting.py:178-181 | one more inventory entry adds its metres under its own key |
| Forecasting.RateOfPrefix | core/forecasting.py:184-187 | one more rate row overwrites its own key's rate |
| Forecasting.ProductRowsPrefix | core/forecasting.py:154-163 | one more bucket appends exactly its row |
| Forecasting.ForecastsForPrefix | core/forecasting.py:195-234 | one more key appends exactly its entry |
| Forecasting.Forecaster.constructor | core/forecasting.py:29-38 | the forecaster holds the loaded configuration and data and an empty usage cache |
| Forecasting.Forecaster.ReloadData | core/forecasting.py:48-55 | fresh data (not configuration) and an empty cache |
| Forecasting.Forecaster.GetShopifyUsage | core/forecasting.py:57-89 | the answer and the new cache are those of the caching rule (ShopifyUsageCache); the data is untouched |
| Forecasting.Forecaster.GetUsageByPeriod | core/forecasting.py:95-131 | the loop's rows are exactly the period usage of the history (UsageByPeriodEntries, UsageByPeriodSorted); dates compared as instants, as intended (see Findings) |
| Forecasting.Forecaster.GetUsageByProduct | core/forecasting.py:133-165 | the loop's rows are exactly the product usage of the history (UsageByProductEntries, UsageByProductSorted); dates compared as instants, as intended (see Findings) |
| Forecasting.Forecaster.CalculateStockForecast | core/forecasting.py:171-240 | the loops give exactly the mesh forecast (MeshForecastsOnePerKey, MeshForecastsEntries, MeshForecastsSorted); dates compared as instants, as intended (see Findings) |
| Forecasting.CollectSuggestions | core/forecasting.py:251-274 | the loop appends the suggestion of each forecast entry that yields one, in forecast order |
| Forecasting.Forecaster.GetReorderSuggestions | core/forecasting.py:242-276 | the loop gives exactly the suggestions of the forecast (ReorderSuggestionsExact); dates compared as instants, as intended (see Findings) |
| Forecasting.Forecaster.ForecastSaddles | core/forecasting.py:308-369 | the two loops give exactly the saddle lines (SaddleForecastLines) |
| Forecasting.Forecaster.ForecastScrews | core/forecasting.py:371-412 | the loop gives exactly the screw lines (ScrewForecastLines) |
| Forecasting.Forecaster.ForecastTrims | core/forecasting.py:414-471 | the two loops give exactly the trim lines (TrimForecastLines) |
| Forecasting.Forecaster.ForecastBoxes | core/forecasting.py:473-518 | the box lines come from the usage of the default 180-day request, which the cache may answer, and the cache follows the caching rule |
| Forecasting.Forecaster.GetComponentForecast | core/forecasting.py:282-306 | the four line lists and the usage totals of the component forecast, and the cache those requests leave |
| Forecasting.Forecaster.GetSummaryStats | core/forecasting.py:537-579 | the summary built from the inventory, the mesh forecast and the order count of a 180-day component forecast; dates compared as instants, as intended (see Findings) |
| Forecasting.Forecaster.GetAllForecasts | core/forecasting.py:581-592 | the mesh forecast, a component forecast, the suggestions and the summary, whose own component forecast runs against the cache the first left; dates compared as instants, as intended (see Findings) |
| Forecasting.AllForecastsAgree | core/forecasting.py:581-592 | the summary reports the same number of analysed orders as the component forecast whenever that forecast's usage came from the cache or a successful sync |
| StocktakeUpdate.NewRecords | core/stocktake_updater.py:97-111 | one new record per entry of the category with a positive quantity, in entry order, the k-th built from the k-th such entry and the k-th fresh id |
| StocktakeUpdate.PrefilterHarmless | core/stocktake_updater.py:409 | the update loops skip uncounted entries themselves, so dropping entries with quantity 0 first changes no update |
| StocktakeUpdate.NewRecordsPrefix | core/stocktake_updater.py:97-111 | one more entry appends exactly one record when it is selected and none otherwise |
| StocktakeUpdate.CollectNewRecords | stocktake_wizard/inventory_updater.py:78-92 | the loop over the entries builds exactly the new records |
| StocktakeUpdate.ScrewsUpdateReplaces | core/stocktake_updater.py:85-134 | the screw file is replaced: one "stocktake" record per counted screw entry, in order, with its colour and positive quantity, stamped now; usage history cleared; existing notes kept; the summary reports the records added, the records replaced and the spreadsheet outcome |
| StocktakeUpdate.TrimsUpdateReplaces | core/stocktake_updater.py:137-184 | the trim file is replaced likewise by one record per counted trim entry |
| StocktakeUpdate.BoxesUpdateReplaces | core/stocktake_updater.py:263-309 | the box file is replaced likewise by one record per counted box entry, keyed by its box type |
| StocktakeUpdate.SaddlesUpdateInventory | core/stocktake_updater.py:187-260 | a corrugated or trimdek update keeps exactly the other type's entries before the new ones; entries of any third type (such as "trim") do not survive; the production history is carried over and the usage history cleared |
| StocktakeUpdate.MeshUpdateInventory | core/stocktake_updater.py:312-390 | only "mesh_4mm" means 4 mm aluminium; a mesh update keeps exactly the other mesh type's rolls before the new ones, carries the incoming orders over and clears the usage and cutting histories |
| StocktakeUpdate.SaddleRecordsOfType | core/stocktake_updater.py:213-226 | every record a saddle update makes has the updated type |
| StocktakeUpdate.OtherTypeAfterUpdate | core/stocktake_updater.py:207-211 | after updating one saddle type, the other type's entries are exactly as before |
| StocktakeUpdate.SaddlesUpdateIdempotent | core/stocktake_updater.py:187-260 | repeating a saddle update with the same entries, ids and clock changes nothing more |
| StocktakeUpdate.SaddleTypeAfterUpdate | core/stocktake_updater.py:187-260 | after an update of one saddle type, the file's entries of that type are exactly the new records |
| StocktakeUpdate.BothSaddleTypesReplaceAll | core/stocktake_updater.py:471-475 | counting both saddle types in the stocktake's order leaves exactly the new corrugated records followed by the new trimdek records, and the production history |
| StocktakeUpdate.MeshRecordsOfType | core/stocktake_updater.py:342-358 | every roll a mesh update makes has the updated mesh type |
| StocktakeUpdate.MeshTypeAfterUpdate | core/stocktake_updater.py:312-390 | after an update of one mesh category, the file's rolls of its mesh type are exactly the new rolls |
| StocktakeUpdate.BothMeshTypesReplaceAll | core/stocktake_updater.py:480-484 | counting both mesh categories in the stocktake's order leaves exactly the new 4 mm rolls followed by the new 2 mm rolls, and the incoming orders |
| StocktakeUpdate.UpdateScrewInventory | stocktake_wizard/inventory_updater.py:68-109 | gives the screw file and summary of ScrewsUpdateReplaces |
| StocktakeUpdate.UpdateTrimInventory | stocktake_wizard/inventory_updater.py:111-150 | gives the trim file and summary of TrimsUpdateReplaces |
| StocktakeUpdate.UpdateSaddleInventory | stocktake_wizard/inventory_updater.py:152-217 | gives the saddle file and summary whose meaning SaddlesUpdateInventory states |
| StocktakeUpdate.UpdateBoxInventory | stocktake_wizard/inventory_updater.py:219-257 | gives the box file and summary of BoxesUpdateReplaces |
| StocktakeUpdate.UpdateMeshInventory | stocktake_wizard/inventory_updater.py:259-329 | gives the mesh file and summary whose meaning MeshUpdateInventory states |
| StocktakeUpdate.UpdateFor | core/stocktake_updater.py:418-431 | an unknown category gives no summary and changes nothing; a known one gives a summary of that category and file, and only that category's file can change |
| StocktakeUpdate.ApplyCategoryAsUpdate | stocktake_wizard/inventory_updater.py:331-371 | applying one category runs its update on the unfiltered entries' result (filtering first makes no difference), reports the category, and an unknown category leaves every file as it was |
| StocktakeUpdate.StepIf | core/stocktake_updater.py:465-484 | one step changes nothing and adds no summary when its category is not chosen, and adds exactly one summary of its category when it is |
| StocktakeUpdate.UpdateCategories | core/stocktake_updater.py:458-486 | the categories of the summaries, in order |
| StocktakeUpdate.UpdateCategoriesAppend | core/stocktake_updater.py:458-486 | the categories of joined summaries are the joined categories |
| StocktakeUpdate.FilterAllCategories | core/stocktake_updater.py:454-456 | the known categories a list names, in the fixed order, are the seven one-step contributions joined |
| StocktakeUpdate.StepIfUpdates | core/stocktake_updater.py:465-484 | the summaries one step adds are one of its own category, if chosen |
| StocktakeUpdate.ApplyStocktakeUpdates | core/stocktake_updater.py:436-486 | a stocktake gives one update per known chosen category, in the fixed order whatever the list's order; unknown names are ignored |
| StocktakeUpdate.ApplyStocktakeByMembership | stocktake_wizard/inventory_updater.py:374-424 | two category lists naming the same categories, in any order and with repeats, give the same files and updates |
| StocktakeUpdate.StepIfFiles | core/stocktake_updater.py:465-484 | what one step does to the saddle and mesh files: the chosen category's update, or nothing |
| StocktakeUpdate.FullStocktake | core/stocktake_updater.py:436-486 | with no category list all seven updates run; the saddle file ends up holding exactly the counted corrugated then trimdek records and the mesh file exactly the counted 4 mm then 2 mm rolls, with production history and incoming orders kept |

## Left out

- JSON persistence (`_load_*`, `_save_*`, `load_data_file`, `save_data_file`) is not modelled. Loaded contents are constructor or method parameters, with a missing file's defaults. Each save is the new field value.
- Backups (`create_backup`, `restore_from_backup`, `list_backups`) are filesystem operations and are not modelled. The backup location is a parameter of the stocktake result.
- The Google Sheets store (`core/sheets_storage.py`, `use_google_sheets`, `write_*`) is not part of this model. Only the flag a write reports is kept, as `StocktakeUpdate.Sheets`.
- Shopify network access is not modelled. That covers `_fetch_orders_page`, the paging loop, its error break, `time.sleep` and the credential lookup. The order nodes the loop would collect are a parameter.
- `get_sync_status` is not modelled. It only reads three cache fields.
- The progress file operations (`save_progress`, `load_progress`, `clear_progress`, `has_saved_progress`) are file I/O. `get_saved_progress_info` is modelled on the saved dictionary (`InfoOf`), without the file.
- Clock, uuid and date formatting are parameters. This covers `datetime.now`/`utcnow`, `uuid4` and the strftime period keys (a `bucketKey` function). ISO date parsing gives the instant and the form of the date (`Mesh.DateForm`).
- Each update in `apply_stocktake` reads the clock separately. The model uses one `now` for all of them.
- Floating point is not modelled: arithmetic is on exact reals. `round(x, n)` is round-half-to-even on the exact value, so float representation artefacts are not reproduced.
- The iteration order of the Python set of forecast keys is unspecified. The model lists stocked keys first, then keys seen only in usage. The final sort makes the order matter only between entries with equal sort keys.
- Three history and coil getters are not modelled. `get_cutting_history` (core/mesh_manager.py:481-494) keeps the records of the last `days` days and sorts them newest first; its date comparison has the defect recorded under Findings. `get_production_history` (core/saddle_manager.py:280-291) does the same for production records. `get_coil_inventory` (core/saddle_manager.py:111-137) keeps the coils that match each of its three optional filters (saddle type, colour, status), where a falsy filter matches every coil. The configuration getters, which only read the configuration, are not modelled either.
- The Streamlit pages and the command-line blocks at the end of each file (printing only) are not part of this model.
- Forecasting.Forecaster.GetUsageByProduct: requires `days != 0`. The source raises ZeroDivisionError for `days == 0` as soon as a record lies in the window, and the model does not reproduce that exception.
- Forecasting.UsageByProductEntries: stated for `days != 0` only, for the same reason. The same requirement sits on `Forecasting.UsageByProductSorted`, `Forecasting.ProductRows`, `Forecasting.ProductRowsMember` and `Forecasting.ProductRowsPrefix`.
- Forecasting.SuggestionFor: does not state the text of the `reason` string. The model builds it from lead time plus 2 and the status, as the source does.
- StocktakeUpdate.ScrewsUpdateReplaces: does not list the record fields the source writes as constants (`unit`, `box_size`), because the record type does not carry them.
- Mesh.MeshManager.GetUsage: compares every date as an instant. As written, the source raises TypeError once any usage record has a zoned date, and every record `remove_roll` writes is zoned (see Findings). The model does not reproduce that exception.
- Mesh.MeshManager.GetAverageDailyUsage: calls `get_usage`, so the same TypeError is not reproduced.
- Mesh.MeshManager.GetDaysRemaining: calls `get_average_daily_usage`, so the same TypeError is not reproduced.
- Mesh.MeshManager.GetMonthsRemaining: calls `get_days_remaining`, so the same TypeError is not reproduced.
- Mesh.MeshManager.GroupAlert: calls `get_months_remaining`, so the same TypeError is not reproduced.
- Mesh.MeshManager.CollectAlerts: runs GroupAlert for each group, so the same TypeError is not reproduced.
- Mesh.MeshManager.GetReorderAlerts: runs CollectAlerts, so the same TypeError is not reproduced.
- Forecasting.Forecaster.GetUsageByPeriod: compares every date as an instant. As written, the source (core/forecasting.py:113-116) raises the same TypeError on a zoned date, and the model does not reproduce it. The same holds for `Forecasting.UsageByPeriod` and its lemmas.
- Forecasting.Forecaster.GetUsageByProduct: the same TypeError (core/forecasting.py:145-148) is not reproduced. The same holds for `Forecasting.UsageByProduct` and its lemmas.
- Forecasting.Forecaster.CalculateStockForecast: its 180-day rates come from `get_usage_by_product`, so the same TypeError is not reproduced. The same holds for `Forecasting.MeshForecasts` and its lemmas.
- Forecasting.Forecaster.GetReorderSuggestions: calls `calculate_stock_forecast`, so the same TypeError is not reproduced. The same holds for `Forecasting.ReorderSuggestions`.
- Forecasting.Forecaster.GetSummaryStats: its 30-day usage sum (core/forecasting.py:555-559) and its forecast raise the same TypeError in the source, and the model does not reproduce it. The same holds for `Forecasting.SummaryStatsOf`.
- Forecasting.Forecaster.GetAllForecasts: calls the forecast, the suggestions and the summary, so the same TypeError is not reproduced.
- Builtins.Lower: lowercases ASCII letters only. Python's `str.lower()` also lowercases every other Unicode cased letter ("É" becomes "é"). Members built on it differ from the source only on non-ASCII text: `StocktakeItems.Slug` (item ids), `ShopifySync.ProductMatches` (title matching) and `ShopifySync.ParseSize` (variant sizes). `Builtins.Strip` removes Python's full whitespace set.

## Findings

| source | as written | input that shows it | evidently intended | confidence | as-written member | corrected member |
|---|---|---|---|---|---|---|
| core/mesh_manager.py:245-249 | each stored date goes through `fromisoformat(date.replace("Z", "+00:00"))`, which gives an offset-aware datetime, and is then compared with the naive `utcnow() - timedelta(days)`. That comparison raises TypeError. Every usage record is dated `utcnow().isoformat() + "Z"` (core/mesh_manager.py:134). The same parse and comparison recur at core/forecasting.py:113-116, 145-148 and 555-559 | one usage record dated "2025-01-01T00:00:00Z" and `get_usage(30)` on 2025-01-01: TypeError, where the record is expected | compare the dates as UTC instants, as `get_production_history` in core/saddle_manager.py:287-288 does by dropping the "Z" | high (not executed) | Mesh.UsageAsWritten | Mesh.WindowedByInstant |
