/**
 * Writing a finished stocktake into the inventory files. Each update
 * builds fresh records from the counted entries of one category and
 * composes a new file record from them and the parts of the old file it
 * keeps; the whole-stocktake operations dispatch the updates. The data
 * directory is a value, generated ids and the clock are parameters, and
 * the optional copy to a spreadsheet store is reduced to the flag it
 * reports.
 */
module StocktakeUpdate {
  import opened Builtins
  import opened Collections
  import Mesh
  import Saddle
  import Screw
  import Box

  // ---------------------------------------------------------------------
  // Entries and new records
  // ---------------------------------------------------------------------

  /** One counted line of the stocktake; a category reads only the fields it needs. */
  datatype Entry = Entry(category: string, quantity: int, colour: string, boxType: string, widthMm: int, lengthM: int)

  /** `e.get("quantity", 0) > 0`. */
  function Counted(e: Entry): bool { e.quantity > 0 }

  /** The entries an update of `category` turns into records. */
  function Selected(category: string): Entry -> bool
  {
    (e: Entry) => e.category == category && e.quantity > 0
  }

  /**
   * The records an update appends, in entry order: one per selected
   * entry, the k-th built by `make(k, entry)` (k numbers the generated ids).
   */
  function NewRecords<R>(entries: seq<Entry>, category: string, make: (nat, Entry) -> R): (r: seq<R>)
    ensures |r| == |Filter(entries, Selected(category))|
    ensures forall k :: 0 <= k < |r| ==> r[k] == make(k, Filter(entries, Selected(category))[k])
  {
    if entries == [] then []
    else
      var init := NewRecords(entries[..|entries| - 1], category, make);
      var e := entries[|entries| - 1];
      if Selected(category)(e) then init + [make(|init|, e)] else init
  }

  /** The update loops skip uncounted entries themselves, so dropping them first changes nothing. */
  lemma PrefilterHarmless<R>(entries: seq<Entry>, category: string, make: (nat, Entry) -> R)
    ensures NewRecords(Filter(entries, Counted), category, make) == NewRecords(entries, category, make)
  {
    FilterFilter(entries, Counted, Selected(category));
  }

  lemma NewRecordsPrefix<R>(entries: seq<Entry>, category: string, make: (nat, Entry) -> R, i: int)
    requires 0 <= i < |entries|
    ensures NewRecords(entries[..i + 1], category, make) ==
      var init := NewRecords(entries[..i], category, make);
      if Selected(category)(entries[i]) then init + [make(|init|, entries[i])] else init
  {
    assert entries[..i + 1][..i] == entries[..i];
  }

  /** The loop that appends a record for every selected entry. */
  method CollectNewRecords<R>(entries: seq<Entry>, category: string, make: (nat, Entry) -> R) returns (recs: seq<R>)
    ensures recs == NewRecords(entries, category, make)
  {
    recs := [];
    var i := 0;
    while i < |entries|
      invariant 0 <= i <= |entries|
      invariant recs == NewRecords(entries[..i], category, make)
    {
      NewRecordsPrefix(entries, category, make, i);
      var e := entries[i];
      if e.category == category && e.quantity > 0 {
        recs := recs + [make(|recs|, e)];
      }
      i := i + 1;
    }
    assert entries[..i] == entries;
  }

  const StocktakeSource := "stocktake"

  /** A trim line of `trim_inventory.json`. */
  datatype TrimEntry = TrimEntry(id: string, colour: string, quantity: int, source: string, createdAt: int,
                                 lastUpdated: int)

  /** A trim usage record; the updater only ever clears these. */
  datatype TrimUsage = TrimUsage(date: int, colour: string, quantity: int, reason: string)

  function ScrewRecord(ids: nat -> string, now: int): (nat, Entry) -> Screw.ScrewEntry
  {
    (k: nat, e: Entry) => Screw.ScrewEntry(ids(k), "screws", e.colour, e.quantity, StocktakeSource, now, now)
  }

  function TrimRecord(ids: nat -> string, now: int): (nat, Entry) -> TrimEntry
  {
    (k: nat, e: Entry) => TrimEntry(ids(k), e.colour, e.quantity, StocktakeSource, now, now)
  }

  function SaddleRecord(saddleType: string, ids: nat -> string, now: int): (nat, Entry) -> Saddle.SaddleEntry
  {
    (k: nat, e: Entry) => Saddle.SaddleEntry(ids(k), saddleType, e.colour, e.quantity, StocktakeSource, now, now)
  }

  function BoxRecord(ids: nat -> string, now: int): (nat, Entry) -> Box.BoxEntry
  {
    (k: nat, e: Entry) => Box.BoxEntry(ids(k), e.boxType, e.quantity, StocktakeSource, now, now)
  }

  function MeshRecord(meshType: string, ids: nat -> string, now: int, today: string): (nat, Entry) -> Mesh.Roll
  {
    (k: nat, e: Entry) =>
      Mesh.Roll(ids(k), Mesh.RollKey(meshType, e.widthMm, e.lengthM, e.colour), e.quantity, today, "Warehouse",
                "From stocktake", now)
  }

  // ---------------------------------------------------------------------
  // Files and the per-category updates
  // ---------------------------------------------------------------------

  /** A single-type inventory file (screws, trims, boxes); a missing file reads as empty lists and no notes. */
  datatype StockFile<E, U> = StockFile(lastUpdated: Option<int>, inventory: seq<E>, usageHistory: seq<U>,
                                       notes: Option<string>)

  datatype SaddleFile = SaddleFile(
    lastUpdated: Option<int>, inventory: seq<Saddle.SaddleEntry>, productionHistory: seq<Saddle.ProductionRecord>,
    usageHistory: seq<Saddle.SaddleUsage>, notes: Option<string>)

  datatype MeshFile = MeshFile(
    lastUpdated: Option<int>, inventory: seq<Mesh.Roll>, usageHistory: seq<Mesh.UsageRecord>,
    incomingOrders: seq<Mesh.IncomingOrder>, cuttingHistory: seq<Mesh.CutRecord>, notes: Option<string>)

  /**
   * The spreadsheet copy: the wizard's updater has none (no flag), the
   * core one reports false when the store is off and otherwise what the
   * write returned.
   */
  datatype Sheets = NoSheets | SheetsOff | SheetsWrite(ok: bool)

  function SheetsSaved(s: Sheets): Option<bool>
  {
    match s
    case NoSheets => None
    case SheetsOff => Some(false)
    case SheetsWrite(ok) => Some(ok)
  }

  /**
   * What an update reports: the file and category, the saddle or mesh
   * type, the records added, the records of the updated type before, the
   * history it carried over (production history or incoming orders) and
   * the spreadsheet flag.
   */
  datatype UpdateSummary = UpdateSummary(
    file: string, category: string, typeName: Option<string>, itemsAdded: int, previousItems: int,
    preserved: Option<int>, sheetsSaved: Option<bool>)

  /** `update_screw_inventory`. */
  function ScrewsUpdate(f: StockFile<Screw.ScrewEntry, Screw.ScrewUsage>, entries: seq<Entry>, ids: nat -> string,
                        now: int, sheets: Sheets): (StockFile<Screw.ScrewEntry, Screw.ScrewUsage>, UpdateSummary)
  {
    var recs := NewRecords(entries, "screws", ScrewRecord(ids, now));
    (StockFile(Some(now), recs, [], Some(f.notes.GetOr("Screw inventory by colour."))),
     UpdateSummary("screw_inventory.json", "screws", None, |recs|, |f.inventory|, None, SheetsSaved(sheets)))
  }

  /** `update_trim_inventory`. */
  function TrimsUpdate(f: StockFile<TrimEntry, TrimUsage>, entries: seq<Entry>, ids: nat -> string,
                       now: int, sheets: Sheets): (StockFile<TrimEntry, TrimUsage>, UpdateSummary)
  {
    var recs := NewRecords(entries, "trims", TrimRecord(ids, now));
    (StockFile(Some(now), recs, [], Some(f.notes.GetOr("Trim inventory by colour."))),
     UpdateSummary("trim_inventory.json", "trims", None, |recs|, |f.inventory|, None, SheetsSaved(sheets)))
  }

  /** `update_box_inventory`. */
  function BoxesUpdate(f: StockFile<Box.BoxEntry, Box.BoxUsage>, entries: seq<Entry>, ids: nat -> string,
                       now: int, sheets: Sheets): (StockFile<Box.BoxEntry, Box.BoxUsage>, UpdateSummary)
  {
    var recs := NewRecords(entries, "boxes", BoxRecord(ids, now));
    (StockFile(Some(now), recs, [], Some(f.notes.GetOr("Box inventory by type."))),
     UpdateSummary("box_inventory.json", "boxes", None, |recs|, |f.inventory|, None, SheetsSaved(sheets)))
  }

  function OfSaddleType(t: string): Saddle.SaddleEntry -> bool
  {
    (e: Saddle.SaddleEntry) => e.saddleType == t
  }

  /** The stocktake category of a saddle type: "corrugated_saddles" for corrugated, else trimdek. */
  function SaddleCategory(saddleType: string): string
  {
    if saddleType == "corrugated" then "corrugated_saddles" else "trimdek_saddles"
  }

  function OtherSaddleType(saddleType: string): string
  {
    if saddleType == "corrugated" then "trimdek" else "corrugated"
  }

  /** `update_saddle_inventory`: the other type's entries, then the new entries of this type. */
  function SaddlesUpdate(f: SaddleFile, entries: seq<Entry>, saddleType: string, ids: nat -> string, now: int,
                         sheets: Sheets): (SaddleFile, UpdateSummary)
  {
    var category := SaddleCategory(saddleType);
    var kept := Filter(f.inventory, OfSaddleType(OtherSaddleType(saddleType)));
    var recs := NewRecords(entries, category, SaddleRecord(saddleType, ids, now));
    (SaddleFile(Some(now), kept + recs, f.productionHistory, [],
                Some(f.notes.GetOr("Ready saddle stock by type and colour."))),
     UpdateSummary("saddle_stock.json", category, Some(saddleType), |recs|,
                   |Filter(f.inventory, OfSaddleType(saddleType))|, Some(|f.productionHistory|), SheetsSaved(sheets)))
  }

  function OfMeshType(t: string): Mesh.Roll -> bool
  {
    (r: Mesh.Roll) => r.key.meshType == t
  }

  /** "mesh_4mm" is 4 mm aluminium; every other category is 2 mm ember guard. */
  function MeshTypeOf(meshCategory: string): string
  {
    if meshCategory == "mesh_4mm" then "4mm_aluminium" else "2mm_ember_guard"
  }

  function OtherMeshType(meshType: string): string
  {
    if meshType == "4mm_aluminium" then "2mm_ember_guard" else "4mm_aluminium"
  }

  /**
   * `update_mesh_inventory`: the other type's rolls, then the new rolls;
   * the incoming orders are carried over and the usage and cutting
   * histories start empty (the rewritten file has no cutting history).
   */
  function MeshUpdate(f: MeshFile, entries: seq<Entry>, meshCategory: string, ids: nat -> string, now: int,
                      today: string, sheets: Sheets): (MeshFile, UpdateSummary)
  {
    var meshType := MeshTypeOf(meshCategory);
    var kept := Filter(f.inventory, OfMeshType(OtherMeshType(meshType)));
    var recs := NewRecords(entries, meshCategory, MeshRecord(meshType, ids, now, today));
    (MeshFile(Some(now), kept + recs, [], f.incomingOrders, [], Some(f.notes.GetOr("Mesh roll inventory."))),
     UpdateSummary("mesh_rolls.json", meshCategory, Some(meshType), |recs|,
                   |Filter(f.inventory, OfMeshType(meshType))|, Some(|f.incomingOrders|), SheetsSaved(sheets)))
  }

  // ---------------------------------------------------------------------
  // Properties of the updates
  // ---------------------------------------------------------------------

  /**
   * A screw update replaces the whole inventory: one "stocktake" record
   * per counted screw entry, in entry order, with that entry's colour and
   * its positive quantity; the usage history is cleared, existing notes
   * are kept, and the summary counts the records added and those replaced.
   */
  lemma ScrewsUpdateReplaces(f: StockFile<Screw.ScrewEntry, Screw.ScrewUsage>, entries: seq<Entry>,
                             ids: nat -> string, now: int, sheets: Sheets)
    ensures var (g, s) := ScrewsUpdate(f, entries, ids, now, sheets);
      var counted := Filter(entries, Selected("screws"));
      && |g.inventory| == |counted|
      && (forall k :: 0 <= k < |counted| ==>
            && g.inventory[k].colour == counted[k].colour && g.inventory[k].quantity == counted[k].quantity > 0
            && g.inventory[k].source == "stocktake" && g.inventory[k].createdAt == now)
      && g.usageHistory == [] && g.lastUpdated == Some(now) && (f.notes.Some? ==> g.notes == f.notes)
      && s.itemsAdded == |counted| && s.previousItems == |f.inventory| && s.sheetsSaved == SheetsSaved(sheets)
  {
  }

  /** A trim update replaces the whole inventory with one record per counted trim entry, in entry order. */
  lemma TrimsUpdateReplaces(f: StockFile<TrimEntry, TrimUsage>, entries: seq<Entry>, ids: nat -> string,
                            now: int, sheets: Sheets)
    ensures var (g, s) := TrimsUpdate(f, entries, ids, now, sheets);
      var counted := Filter(entries, Selected("trims"));
      && |g.inventory| == |counted|
      && (forall k :: 0 <= k < |counted| ==>
            && g.inventory[k].colour == counted[k].colour && g.inventory[k].quantity == counted[k].quantity > 0
            && g.inventory[k].source == "stocktake" && g.inventory[k].createdAt == now)
      && g.usageHistory == [] && g.lastUpdated == Some(now) && (f.notes.Some? ==> g.notes == f.notes)
      && s.itemsAdded == |counted| && s.previousItems == |f.inventory| && s.sheetsSaved == SheetsSaved(sheets)
  {
  }

  /** A box update replaces the whole inventory with one record per counted box entry, keyed by its box type. */
  lemma BoxesUpdateReplaces(f: StockFile<Box.BoxEntry, Box.BoxUsage>, entries: seq<Entry>, ids: nat -> string,
                            now: int, sheets: Sheets)
    ensures var (g, s) := BoxesUpdate(f, entries, ids, now, sheets);
      var counted := Filter(entries, Selected("boxes"));
      && |g.inventory| == |counted|
      && (forall k :: 0 <= k < |counted| ==>
            && g.inventory[k].boxType == counted[k].boxType && g.inventory[k].quantity == counted[k].quantity > 0
            && g.inventory[k].source == "stocktake" && g.inventory[k].createdAt == now)
      && g.usageHistory == [] && g.lastUpdated == Some(now) && (f.notes.Some? ==> g.notes == f.notes)
      && s.itemsAdded == |counted| && s.previousItems == |f.inventory| && s.sheetsSaved == SheetsSaved(sheets)
  {
  }

  /**
   * A saddle update of corrugated or trimdek keeps exactly the other
   * type's entries, in order, before the new ones; entries of any third
   * type (such as "trim") do not survive it, and the production history
   * is carried over.
   */
  lemma SaddlesUpdateInventory(f: SaddleFile, entries: seq<Entry>, saddleType: string, ids: nat -> string, now: int,
                               sheets: Sheets, x: Saddle.SaddleEntry)
    requires saddleType in {"corrugated", "trimdek"}
    ensures var r := SaddlesUpdate(f, entries, saddleType, ids, now, sheets).0;
      && (x in r.inventory <==>
            (x in f.inventory && x.saddleType == OtherSaddleType(saddleType)) ||
            x in NewRecords(entries, SaddleCategory(saddleType), SaddleRecord(saddleType, ids, now)))
      && (x in r.inventory ==> x.saddleType in {"corrugated", "trimdek"})
      && r.productionHistory == f.productionHistory && r.usageHistory == []
  {
    var recs := NewRecords(entries, SaddleCategory(saddleType), SaddleRecord(saddleType, ids, now));
    FilterMembers(f.inventory, OfSaddleType(OtherSaddleType(saddleType)));
    if x in recs {
      var k :| 0 <= k < |recs| && recs[k] == x;
    }
  }

  /**
   * A mesh update keeps exactly the other mesh type's rolls before the
   * new ones, carries the incoming orders over and clears the usage and
   * cutting histories; only "mesh_4mm" means 4 mm aluminium.
   */
  lemma MeshUpdateInventory(f: MeshFile, entries: seq<Entry>, meshCategory: string, ids: nat -> string, now: int,
                            today: string, sheets: Sheets, x: Mesh.Roll)
    ensures MeshTypeOf(meshCategory) == "4mm_aluminium" <==> meshCategory == "mesh_4mm"
    ensures var r := MeshUpdate(f, entries, meshCategory, ids, now, today, sheets).0;
      && (x in r.inventory <==>
            (x in f.inventory && x.key.meshType == OtherMeshType(MeshTypeOf(meshCategory))) ||
            x in NewRecords(entries, meshCategory, MeshRecord(MeshTypeOf(meshCategory), ids, now, today)))
      && (x in r.inventory ==> x.key.meshType in {"4mm_aluminium", "2mm_ember_guard"})
      && r.incomingOrders == f.incomingOrders && r.usageHistory == [] && r.cuttingHistory == []
  {
    var meshType := MeshTypeOf(meshCategory);
    var recs := NewRecords(entries, meshCategory, MeshRecord(meshType, ids, now, today));
    FilterMembers(f.inventory, OfMeshType(OtherMeshType(meshType)));
    if x in recs {
      var k :| 0 <= k < |recs| && recs[k] == x;
    }
  }

  /** Every record a saddle update makes has the updated type. */
  lemma SaddleRecordsOfType(entries: seq<Entry>, category: string, saddleType: string, ids: nat -> string, now: int)
    ensures forall i :: 0 <= i < |NewRecords(entries, category, SaddleRecord(saddleType, ids, now))| ==>
      NewRecords(entries, category, SaddleRecord(saddleType, ids, now))[i].saddleType == saddleType
  {
  }

  /** After an update of one type, the other type's entries are exactly those it kept. */
  lemma {:induction false} OtherTypeAfterUpdate(f: SaddleFile, entries: seq<Entry>, saddleType: string,
                                                ids: nat -> string, now: int, sheets: Sheets)
    requires saddleType in {"corrugated", "trimdek"}
    ensures var other := OfSaddleType(OtherSaddleType(saddleType));
      Filter(SaddlesUpdate(f, entries, saddleType, ids, now, sheets).0.inventory, other) == Filter(f.inventory, other)
  {
    var other := OfSaddleType(OtherSaddleType(saddleType));
    var kept := Filter(f.inventory, other);
    var recs := NewRecords(entries, SaddleCategory(saddleType), SaddleRecord(saddleType, ids, now));
    FilterMembers(f.inventory, other);
    FilterAppend(kept, recs, other);
    assert forall i :: 0 <= i < |kept| ==> other(kept[i]) by {
      forall i | 0 <= i < |kept| ensures other(kept[i]) {
        assert kept[i] in kept;
      }
    }
    FilterAll(kept, other);
    SaddleRecordsOfType(entries, SaddleCategory(saddleType), saddleType, ids, now);
    FilterNone(recs, other);
  }

  /** Repeating a saddle update with the same entries, ids and clock changes nothing more. */
  lemma SaddlesUpdateIdempotent(f: SaddleFile, entries: seq<Entry>, saddleType: string, ids: nat -> string,
                                now: int, sheets: Sheets)
    requires saddleType in {"corrugated", "trimdek"}
    ensures var once := SaddlesUpdate(f, entries, saddleType, ids, now, sheets).0;
      SaddlesUpdate(once, entries, saddleType, ids, now, sheets).0 == once
  {
    OtherTypeAfterUpdate(f, entries, saddleType, ids, now, sheets);
  }

  /**
   * After an update of one type, filtering the file for that type yields
   * exactly its new records.
   */
  lemma {:induction false} SaddleTypeAfterUpdate(f: SaddleFile, entries: seq<Entry>, saddleType: string,
                                                 ids: nat -> string, now: int, sheets: Sheets)
    requires saddleType in {"corrugated", "trimdek"}
    ensures Filter(SaddlesUpdate(f, entries, saddleType, ids, now, sheets).0.inventory, OfSaddleType(saddleType)) ==
      NewRecords(entries, SaddleCategory(saddleType), SaddleRecord(saddleType, ids, now))
  {
    var kept := Filter(f.inventory, OfSaddleType(OtherSaddleType(saddleType)));
    var recs := NewRecords(entries, SaddleCategory(saddleType), SaddleRecord(saddleType, ids, now));
    FilterMembers(f.inventory, OfSaddleType(OtherSaddleType(saddleType)));
    FilterAppend(kept, recs, OfSaddleType(saddleType));
    assert forall i :: 0 <= i < |kept| ==> !OfSaddleType(saddleType)(kept[i]) by {
      forall i | 0 <= i < |kept| ensures !OfSaddleType(saddleType)(kept[i]) {
        assert kept[i] in kept;
      }
    }
    FilterNone(kept, OfSaddleType(saddleType));
    SaddleRecordsOfType(entries, SaddleCategory(saddleType), saddleType, ids, now);
    FilterAll(recs, OfSaddleType(saddleType));
  }

  /**
   * Counting both saddle types, in the order the full stocktake uses,
   * replaces the whole saddle inventory: the file ends up holding the new
   * corrugated records followed by the new trimdek records, and nothing
   * else.
   */
  lemma BothSaddleTypesReplaceAll(f: SaddleFile, entries: seq<Entry>, ids1: nat -> string, ids2: nat -> string,
                                  now: int, sheets1: Sheets, sheets2: Sheets)
    ensures var afterCorrugated := SaddlesUpdate(f, entries, "corrugated", ids1, now, sheets1).0;
      var after := SaddlesUpdate(afterCorrugated, entries, "trimdek", ids2, now, sheets2).0;
      && after.inventory ==
        NewRecords(entries, "corrugated_saddles", SaddleRecord("corrugated", ids1, now)) +
        NewRecords(entries, "trimdek_saddles", SaddleRecord("trimdek", ids2, now))
      && after.productionHistory == f.productionHistory
  {
    SaddleTypeAfterUpdate(f, entries, "corrugated", ids1, now, sheets1);
  }

  /** Every record a mesh update makes has the updated mesh type. */
  lemma MeshRecordsOfType(entries: seq<Entry>, category: string, meshType: string, ids: nat -> string, now: int,
                          today: string)
    ensures forall i :: 0 <= i < |NewRecords(entries, category, MeshRecord(meshType, ids, now, today))| ==>
      NewRecords(entries, category, MeshRecord(meshType, ids, now, today))[i].key.meshType == meshType
  {
  }

  /**
   * After an update of one mesh category, filtering the file for its mesh
   * type yields exactly the new rolls.
   */
  lemma {:induction false} MeshTypeAfterUpdate(f: MeshFile, entries: seq<Entry>, meshCategory: string,
                                               ids: nat -> string, now: int, today: string, sheets: Sheets)
    ensures Filter(MeshUpdate(f, entries, meshCategory, ids, now, today, sheets).0.inventory,
                   OfMeshType(MeshTypeOf(meshCategory))) ==
      NewRecords(entries, meshCategory, MeshRecord(MeshTypeOf(meshCategory), ids, now, today))
  {
    var meshType := MeshTypeOf(meshCategory);
    var kept := Filter(f.inventory, OfMeshType(OtherMeshType(meshType)));
    var recs := NewRecords(entries, meshCategory, MeshRecord(meshType, ids, now, today));
    FilterMembers(f.inventory, OfMeshType(OtherMeshType(meshType)));
    FilterAppend(kept, recs, OfMeshType(meshType));
    assert forall i :: 0 <= i < |kept| ==> !OfMeshType(meshType)(kept[i]) by {
      forall i | 0 <= i < |kept| ensures !OfMeshType(meshType)(kept[i]) {
        assert kept[i] in kept;
      }
    }
    FilterNone(kept, OfMeshType(meshType));
    MeshRecordsOfType(entries, meshCategory, meshType, ids, now, today);
    FilterAll(recs, OfMeshType(meshType));
  }

  /**
   * Counting both mesh categories, in the order the full stocktake uses,
   * replaces every roll: the new 4 mm rolls followed by the new 2 mm ones.
   */
  lemma BothMeshTypesReplaceAll(f: MeshFile, entries: seq<Entry>, ids1: nat -> string, ids2: nat -> string,
                                now: int, today: string, sheets1: Sheets, sheets2: Sheets)
    ensures var after4mm := MeshUpdate(f, entries, "mesh_4mm", ids1, now, today, sheets1).0;
      var after := MeshUpdate(after4mm, entries, "mesh_2mm", ids2, now, today, sheets2).0;
      && after.inventory ==
        NewRecords(entries, "mesh_4mm", MeshRecord("4mm_aluminium", ids1, now, today)) +
        NewRecords(entries, "mesh_2mm", MeshRecord("2mm_ember_guard", ids2, now, today))
      && after.incomingOrders == f.incomingOrders
  {
    MeshTypeAfterUpdate(f, entries, "mesh_4mm", ids1, now, today, sheets1);
  }

  // ---------------------------------------------------------------------
  // The update methods (append loops composing a fresh file record)
  // ---------------------------------------------------------------------

  method UpdateScrewInventory(f: StockFile<Screw.ScrewEntry, Screw.ScrewUsage>, entries: seq<Entry>,
                              ids: nat -> string, now: int, sheets: Sheets)
    returns (updated: StockFile<Screw.ScrewEntry, Screw.ScrewUsage>, summary: UpdateSummary)
    ensures (updated, summary) == ScrewsUpdate(f, entries, ids, now, sheets)
  {
    var recs := CollectNewRecords(entries, "screws", ScrewRecord(ids, now));
    updated := StockFile(Some(now), recs, [], Some(f.notes.GetOr("Screw inventory by colour.")));
    summary := UpdateSummary("screw_inventory.json", "screws", None, |recs|, |f.inventory|, None, SheetsSaved(sheets));
  }

  method UpdateTrimInventory(f: StockFile<TrimEntry, TrimUsage>, entries: seq<Entry>, ids: nat -> string,
                             now: int, sheets: Sheets)
    returns (updated: StockFile<TrimEntry, TrimUsage>, summary: UpdateSummary)
    ensures (updated, summary) == TrimsUpdate(f, entries, ids, now, sheets)
  {
    var recs := CollectNewRecords(entries, "trims", TrimRecord(ids, now));
    updated := StockFile(Some(now), recs, [], Some(f.notes.GetOr("Trim inventory by colour.")));
    summary := UpdateSummary("trim_inventory.json", "trims", None, |recs|, |f.inventory|, None, SheetsSaved(sheets));
  }

  method UpdateBoxInventory(f: StockFile<Box.BoxEntry, Box.BoxUsage>, entries: seq<Entry>, ids: nat -> string,
                            now: int, sheets: Sheets)
    returns (updated: StockFile<Box.BoxEntry, Box.BoxUsage>, summary: UpdateSummary)
    ensures (updated, summary) == BoxesUpdate(f, entries, ids, now, sheets)
  {
    var recs := CollectNewRecords(entries, "boxes", BoxRecord(ids, now));
    updated := StockFile(Some(now), recs, [], Some(f.notes.GetOr("Box inventory by type.")));
    summary := UpdateSummary("box_inventory.json", "boxes", None, |recs|, |f.inventory|, None, SheetsSaved(sheets));
  }

  method UpdateSaddleInventory(f: SaddleFile, entries: seq<Entry>, saddleType: string, ids: nat -> string, now: int,
                               sheets: Sheets)
    returns (updated: SaddleFile, summary: UpdateSummary)
    ensures (updated, summary) == SaddlesUpdate(f, entries, saddleType, ids, now, sheets)
  {
    var category := if saddleType == "corrugated" then "corrugated_saddles" else "trimdek_saddles";
    var otherType := if saddleType == "corrugated" then "trimdek" else "corrugated";
    var kept := Filter(f.inventory, OfSaddleType(otherType));
    var recs := CollectNewRecords(entries, category, SaddleRecord(saddleType, ids, now));
    updated := SaddleFile(Some(now), kept + recs, f.productionHistory, [],
                          Some(f.notes.GetOr("Ready saddle stock by type and colour.")));
    summary := UpdateSummary("saddle_stock.json", category, Some(saddleType), |recs|,
                             |Filter(f.inventory, OfSaddleType(saddleType))|, Some(|f.productionHistory|),
                             SheetsSaved(sheets));
  }

  method UpdateMeshInventory(f: MeshFile, entries: seq<Entry>, meshCategory: string, ids: nat -> string, now: int,
                             today: string, sheets: Sheets)
    returns (updated: MeshFile, summary: UpdateSummary)
    ensures (updated, summary) == MeshUpdate(f, entries, meshCategory, ids, now, today, sheets)
  {
    var meshType := if meshCategory == "mesh_4mm" then "4mm_aluminium" else "2mm_ember_guard";
    var otherType := if meshType == "4mm_aluminium" then "2mm_ember_guard" else "4mm_aluminium";
    var kept := Filter(f.inventory, OfMeshType(otherType));
    var recs := CollectNewRecords(entries, meshCategory, MeshRecord(meshType, ids, now, today));
    updated := MeshFile(Some(now), kept + recs, [], f.incomingOrders, [], Some(f.notes.GetOr("Mesh roll inventory.")));
    summary := UpdateSummary("mesh_rolls.json", meshCategory, Some(meshType), |recs|,
                             |Filter(f.inventory, OfMeshType(meshType))|, Some(|f.incomingOrders|),
                             SheetsSaved(sheets));
  }

  // ---------------------------------------------------------------------
  // Dispatch: one category, or a whole stocktake
  // ---------------------------------------------------------------------

  /** The five inventory files a stocktake rewrites. */
  datatype DataDir = DataDir(
    screws: StockFile<Screw.ScrewEntry, Screw.ScrewUsage>, trims: StockFile<TrimEntry, TrimUsage>,
    saddles: SaddleFile, boxes: StockFile<Box.BoxEntry, Box.BoxUsage>, mesh: MeshFile)

  /** The categories a stocktake knows, in the order a full stocktake applies them. */
  const AllCategories: seq<string> :=
    ["screws", "trims", "corrugated_saddles", "trimdek_saddles", "boxes", "mesh_4mm", "mesh_2mm"]

  /** Which file a known category rewrites. */
  function FileFor(category: string): string
  {
    if category == "screws" then "screw_inventory.json"
    else if category == "trims" then "trim_inventory.json"
    else if category in {"corrugated_saddles", "trimdek_saddles"} then "saddle_stock.json"
    else if category == "boxes" then "box_inventory.json"
    else "mesh_rolls.json"
  }

  /**
   * The `if/elif` chain of `apply_category_stocktake`: run the update of
   * a known category; an unknown one changes nothing and gives no summary.
   * Only the category's own file changes.
   */
  function UpdateFor(d: DataDir, entries: seq<Entry>, category: string, ids: nat -> string, now: int, today: string,
                     sheets: Sheets): (r: (DataDir, Option<UpdateSummary>))
    ensures r.1.None? <==> category !in AllCategories
    ensures r.1.None? ==> r.0 == d
    ensures r.1.Some? ==> r.1.value.category == category && r.1.value.file == FileFor(category)
    ensures FileFor(category) != "screw_inventory.json" || r.1.None? ==> r.0.screws == d.screws
    ensures FileFor(category) != "trim_inventory.json" || r.1.None? ==> r.0.trims == d.trims
    ensures FileFor(category) != "saddle_stock.json" || r.1.None? ==> r.0.saddles == d.saddles
    ensures FileFor(category) != "box_inventory.json" || r.1.None? ==> r.0.boxes == d.boxes
    ensures FileFor(category) != "mesh_rolls.json" || r.1.None? ==> r.0.mesh == d.mesh
  {
    if category == "screws" then
      var (f, u) := ScrewsUpdate(d.screws, entries, ids, now, sheets);
      (d.(screws := f), Some(u))
    else if category == "trims" then
      var (f, u) := TrimsUpdate(d.trims, entries, ids, now, sheets);
      (d.(trims := f), Some(u))
    else if category == "corrugated_saddles" then
      var (f, u) := SaddlesUpdate(d.saddles, entries, "corrugated", ids, now, sheets);
      (d.(saddles := f), Some(u))
    else if category == "trimdek_saddles" then
      var (f, u) := SaddlesUpdate(d.saddles, entries, "trimdek", ids, now, sheets);
      (d.(saddles := f), Some(u))
    else if category == "boxes" then
      var (f, u) := BoxesUpdate(d.boxes, entries, ids, now, sheets);
      (d.(boxes := f), Some(u))
    else if category == "mesh_4mm" then
      var (f, u) := MeshUpdate(d.mesh, entries, "mesh_4mm", ids, now, today, sheets);
      (d.(mesh := f), Some(u))
    else if category == "mesh_2mm" then
      var (f, u) := MeshUpdate(d.mesh, entries, "mesh_2mm", ids, now, today, sheets);
      (d.(mesh := f), Some(u))
    else
      (d, None)
  }

  /** The result of `apply_category_stocktake`: backup location, timestamp, category and the update, if any. */
  datatype CategoryResult = CategoryResult(backupLocation: string, timestamp: int, category: string,
                                           update: Option<UpdateSummary>)

  /** `apply_category_stocktake`: drop uncounted entries, then dispatch on the category. */
  function ApplyCategory(d: DataDir, entries: seq<Entry>, category: string, backupLocation: string,
                         ids: nat -> string, now: int, today: string, sheets: Sheets): (DataDir, CategoryResult)
  {
    var (d2, u) := UpdateFor(d, Filter(entries, Counted), category, ids, now, today, sheets);
    (d2, CategoryResult(backupLocation, now, category, u))
  }

  /**
   * Dropping uncounted entries first makes no difference to any update,
   * and an unknown category leaves every file as it was.
   */
  lemma ApplyCategoryAsUpdate(d: DataDir, entries: seq<Entry>, category: string, backupLocation: string,
                              ids: nat -> string, now: int, today: string, sheets: Sheets)
    ensures var (d2, res) := ApplyCategory(d, entries, category, backupLocation, ids, now, today, sheets);
      && (d2, res.update) == UpdateFor(d, entries, category, ids, now, today, sheets)
      && res.category == category
      && (category !in AllCategories ==> d2 == d && res.update.None?)
  {
    if category == "screws" {
      PrefilterHarmless(entries, "screws", ScrewRecord(ids, now));
    } else if category == "trims" {
      PrefilterHarmless(entries, "trims", TrimRecord(ids, now));
    } else if category == "corrugated_saddles" {
      PrefilterHarmless(entries, "corrugated_saddles", SaddleRecord("corrugated", ids, now));
    } else if category == "trimdek_saddles" {
      PrefilterHarmless(entries, "trimdek_saddles", SaddleRecord("trimdek", ids, now));
    } else if category == "boxes" {
      PrefilterHarmless(entries, "boxes", BoxRecord(ids, now));
    } else if category == "mesh_4mm" {
      PrefilterHarmless(entries, "mesh_4mm", MeshRecord("4mm_aluminium", ids, now, today));
    } else if category == "mesh_2mm" {
      PrefilterHarmless(entries, "mesh_2mm", MeshRecord("2mm_ember_guard", ids, now, today));
    }
  }

  /**
   * One `if '<category>' in categories:` step of `apply_stocktake`: run
   * the category's update when it was chosen, appending its summary.
   * Each update draws its ids and its spreadsheet outcome by category.
   */
  function StepIf(d: DataDir, entries: seq<Entry>, chosen: seq<string>, c: string, ids: string -> (nat -> string),
                  now: int, today: string, sheets: string -> Sheets): (r: (DataDir, seq<UpdateSummary>))
    requires c in AllCategories
    ensures c !in chosen ==> r == (d, [])
    ensures c in chosen ==> |r.1| == 1 && r.1[0].category == c
  {
    if c in chosen then
      var (d2, u) := UpdateFor(d, entries, c, ids(c), now, today, sheets(c));
      (d2, [u.value])
    else (d, [])
  }

  /** The result of `apply_stocktake`. */
  datatype StocktakeResult = StocktakeResult(backupLocation: string, timestamp: int, updates: seq<UpdateSummary>)

  /**
   * `apply_stocktake`: drop uncounted entries and apply each chosen
   * category (all of them when none are given) in the fixed order.
   */
  function ApplyStocktake(d: DataDir, entries: seq<Entry>, categories: Option<seq<string>>, backupLocation: string,
                          ids: string -> (nat -> string), now: int, today: string, sheets: string -> Sheets)
    : (DataDir, StocktakeResult)
  {
    var chosen := categories.GetOr(AllCategories);
    var e := Filter(entries, Counted);
    var (d1, u1) := StepIf(d, e, chosen, "screws", ids, now, today, sheets);
    var (d2, u2) := StepIf(d1, e, chosen, "trims", ids, now, today, sheets);
    var (d3, u3) := StepIf(d2, e, chosen, "corrugated_saddles", ids, now, today, sheets);
    var (d4, u4) := StepIf(d3, e, chosen, "trimdek_saddles", ids, now, today, sheets);
    var (d5, u5) := StepIf(d4, e, chosen, "boxes", ids, now, today, sheets);
    var (d6, u6) := StepIf(d5, e, chosen, "mesh_4mm", ids, now, today, sheets);
    var (d7, u7) := StepIf(d6, e, chosen, "mesh_2mm", ids, now, today, sheets);
    (d7, StocktakeResult(backupLocation, now, u1 + u2 + u3 + u4 + u5 + u6 + u7))
  }

  function IsChosen(chosen: seq<string>): string -> bool
  {
    (c: string) => c in chosen
  }

  function UpdateCategories(us: seq<UpdateSummary>): (r: seq<string>)
    ensures |r| == |us| && forall k :: 0 <= k < |us| ==> r[k] == us[k].category
  {
    seq(|us|, k requires 0 <= k < |us| => us[k].category)
  }

  lemma UpdateCategoriesAppend(a: seq<UpdateSummary>, b: seq<UpdateSummary>)
    ensures UpdateCategories(a + b) == UpdateCategories(a) + UpdateCategories(b)
  {
  }

  function Singleton(chosen: seq<string>, c: string): seq<string>
  {
    if c in chosen then [c] else []
  }

  /** The known categories a list names, in the fixed order. */
  lemma FilterAllCategories(chosen: seq<string>)
    ensures Filter(AllCategories, IsChosen(chosen)) ==
      Singleton(chosen, "screws") + Singleton(chosen, "trims") + Singleton(chosen, "corrugated_saddles") +
      Singleton(chosen, "trimdek_saddles") + Singleton(chosen, "boxes") + Singleton(chosen, "mesh_4mm") +
      Singleton(chosen, "mesh_2mm")
  {
    var p := IsChosen(chosen);
    assert [] + ["screws"] == ["screws"];
    assert ["screws"] + ["trims"] == ["screws", "trims"];
    assert ["screws", "trims"] + ["corrugated_saddles"] == ["screws", "trims", "corrugated_saddles"];
    assert ["screws", "trims", "corrugated_saddles"] + ["trimdek_saddles"] ==
      ["screws", "trims", "corrugated_saddles", "trimdek_saddles"];
    assert ["screws", "trims", "corrugated_saddles", "trimdek_saddles"] + ["boxes"] ==
      ["screws", "trims", "corrugated_saddles", "trimdek_saddles", "boxes"];
    assert ["screws", "trims", "corrugated_saddles", "trimdek_saddles", "boxes"] + ["mesh_4mm"] ==
      ["screws", "trims", "corrugated_saddles", "trimdek_saddles", "boxes", "mesh_4mm"];
    assert ["screws", "trims", "corrugated_saddles", "trimdek_saddles", "boxes", "mesh_4mm"] + ["mesh_2mm"] ==
      AllCategories;
    FilterSnoc([], "screws", p);
    FilterSnoc(["screws"], "trims", p);
    FilterSnoc(["screws", "trims"], "corrugated_saddles", p);
    FilterSnoc(["screws", "trims", "corrugated_saddles"], "trimdek_saddles", p);
    FilterSnoc(["screws", "trims", "corrugated_saddles", "trimdek_saddles"], "boxes", p);
    FilterSnoc(["screws", "trims", "corrugated_saddles", "trimdek_saddles", "boxes"], "mesh_4mm", p);
    FilterSnoc(["screws", "trims", "corrugated_saddles", "trimdek_saddles", "boxes", "mesh_4mm"], "mesh_2mm", p);
  }

  /** The summaries one step adds: one of its own category, if chosen. */
  lemma StepIfUpdates(d: DataDir, e: seq<Entry>, chosen: seq<string>, c: string, ids: string -> (nat -> string),
                      now: int, today: string, sheets: string -> Sheets)
    requires c in AllCategories
    ensures UpdateCategories(StepIf(d, e, chosen, c, ids, now, today, sheets).1) == Singleton(chosen, c)
  {
  }

  /**
   * A stocktake gives one update per known chosen category, in the fixed
   * order whatever the order of the list; unknown names are ignored.
   */
  lemma ApplyStocktakeUpdates(d: DataDir, entries: seq<Entry>, chosen: seq<string>, backupLocation: string,
                              ids: string -> (nat -> string), now: int, today: string, sheets: string -> Sheets)
    ensures var res := ApplyStocktake(d, entries, Some(chosen), backupLocation, ids, now, today, sheets).1;
      UpdateCategories(res.updates) == Filter(AllCategories, IsChosen(chosen))
  {
    var e := Filter(entries, Counted);
    var (d1, u1) := StepIf(d, e, chosen, "screws", ids, now, today, sheets);
    var (d2, u2) := StepIf(d1, e, chosen, "trims", ids, now, today, sheets);
    var (d3, u3) := StepIf(d2, e, chosen, "corrugated_saddles", ids, now, today, sheets);
    var (d4, u4) := StepIf(d3, e, chosen, "trimdek_saddles", ids, now, today, sheets);
    var (d5, u5) := StepIf(d4, e, chosen, "boxes", ids, now, today, sheets);
    var (d6, u6) := StepIf(d5, e, chosen, "mesh_4mm", ids, now, today, sheets);
    var (d7, u7) := StepIf(d6, e, chosen, "mesh_2mm", ids, now, today, sheets);
    assert ApplyStocktake(d, entries, Some(chosen), backupLocation, ids, now, today, sheets).1.updates ==
      u1 + u2 + u3 + u4 + u5 + u6 + u7;
    StepIfUpdates(d, e, chosen, "screws", ids, now, today, sheets);
    StepIfUpdates(d1, e, chosen, "trims", ids, now, today, sheets);
    StepIfUpdates(d2, e, chosen, "corrugated_saddles", ids, now, today, sheets);
    StepIfUpdates(d3, e, chosen, "trimdek_saddles", ids, now, today, sheets);
    StepIfUpdates(d4, e, chosen, "boxes", ids, now, today, sheets);
    StepIfUpdates(d5, e, chosen, "mesh_4mm", ids, now, today, sheets);
    StepIfUpdates(d6, e, chosen, "mesh_2mm", ids, now, today, sheets);
    UpdateCategoriesAppend(u1 + u2 + u3 + u4 + u5 + u6, u7);
    UpdateCategoriesAppend(u1 + u2 + u3 + u4 + u5, u6);
    UpdateCategoriesAppend(u1 + u2 + u3 + u4, u5);
    UpdateCategoriesAppend(u1 + u2 + u3, u4);
    UpdateCategoriesAppend(u1 + u2, u3);
    UpdateCategoriesAppend(u1, u2);
    FilterAllCategories(chosen);
  }

  /** Two lists naming the same categories, in any order and with repeats, give the same files and updates. */
  lemma ApplyStocktakeByMembership(d: DataDir, entries: seq<Entry>, chosen: seq<string>, chosen2: seq<string>,
                                   backupLocation: string, ids: string -> (nat -> string), now: int, today: string,
                                   sheets: string -> Sheets)
    requires forall c :: c in chosen <==> c in chosen2
    ensures ApplyStocktake(d, entries, Some(chosen), backupLocation, ids, now, today, sheets) ==
            ApplyStocktake(d, entries, Some(chosen2), backupLocation, ids, now, today, sheets)
  {
    var e := Filter(entries, Counted);
    var d1 := StepIf(d, e, chosen, "screws", ids, now, today, sheets).0;
    var d2 := StepIf(d1, e, chosen, "trims", ids, now, today, sheets).0;
    var d3 := StepIf(d2, e, chosen, "corrugated_saddles", ids, now, today, sheets).0;
    var d4 := StepIf(d3, e, chosen, "trimdek_saddles", ids, now, today, sheets).0;
    var d5 := StepIf(d4, e, chosen, "boxes", ids, now, today, sheets).0;
    var d6 := StepIf(d5, e, chosen, "mesh_4mm", ids, now, today, sheets).0;
    assert StepIf(d, e, chosen, "screws", ids, now, today, sheets) ==
           StepIf(d, e, chosen2, "screws", ids, now, today, sheets);
    assert StepIf(d1, e, chosen, "trims", ids, now, today, sheets) ==
           StepIf(d1, e, chosen2, "trims", ids, now, today, sheets);
    assert StepIf(d2, e, chosen, "corrugated_saddles", ids, now, today, sheets) ==
           StepIf(d2, e, chosen2, "corrugated_saddles", ids, now, today, sheets);
    assert StepIf(d3, e, chosen, "trimdek_saddles", ids, now, today, sheets) ==
           StepIf(d3, e, chosen2, "trimdek_saddles", ids, now, today, sheets);
    assert StepIf(d4, e, chosen, "boxes", ids, now, today, sheets) ==
           StepIf(d4, e, chosen2, "boxes", ids, now, today, sheets);
    assert StepIf(d5, e, chosen, "mesh_4mm", ids, now, today, sheets) ==
           StepIf(d5, e, chosen2, "mesh_4mm", ids, now, today, sheets);
    assert StepIf(d6, e, chosen, "mesh_2mm", ids, now, today, sheets) ==
           StepIf(d6, e, chosen2, "mesh_2mm", ids, now, today, sheets);
  }

  /** What one step does to the saddle and mesh files. */
  lemma StepIfFiles(d: DataDir, e: seq<Entry>, chosen: seq<string>, c: string, ids: string -> (nat -> string),
                    now: int, today: string, sheets: string -> Sheets)
    requires c in AllCategories
    ensures var r := StepIf(d, e, chosen, c, ids, now, today, sheets).0;
      && r.saddles ==
           (if c in chosen && c == "corrugated_saddles" then
              SaddlesUpdate(d.saddles, e, "corrugated", ids(c), now, sheets(c)).0
            else if c in chosen && c == "trimdek_saddles" then
              SaddlesUpdate(d.saddles, e, "trimdek", ids(c), now, sheets(c)).0
            else d.saddles)
      && r.mesh ==
           (if c in chosen && c in {"mesh_4mm", "mesh_2mm"} then MeshUpdate(d.mesh, e, c, ids(c), now, today, sheets(c)).0
            else d.mesh)
  {
  }

  /**
   * A full stocktake (no category list) runs all seven updates, leaves the
   * saddle file holding exactly the counted corrugated and then trimdek
   * records, and the mesh file exactly the counted 4 mm and then 2 mm
   * rolls, while production history and incoming orders are kept.
   */
  lemma FullStocktake(d: DataDir, entries: seq<Entry>, backupLocation: string, ids: string -> (nat -> string),
                      now: int, today: string, sheets: string -> Sheets)
    ensures var (d2, res) := ApplyStocktake(d, entries, None, backupLocation, ids, now, today, sheets);
      && d2.saddles.inventory ==
           NewRecords(entries, "corrugated_saddles", SaddleRecord("corrugated", ids("corrugated_saddles"), now)) +
           NewRecords(entries, "trimdek_saddles", SaddleRecord("trimdek", ids("trimdek_saddles"), now))
      && d2.saddles.productionHistory == d.saddles.productionHistory
      && d2.mesh.inventory ==
           NewRecords(entries, "mesh_4mm", MeshRecord("4mm_aluminium", ids("mesh_4mm"), now, today)) +
           NewRecords(entries, "mesh_2mm", MeshRecord("2mm_ember_guard", ids("mesh_2mm"), now, today))
      && d2.mesh.incomingOrders == d.mesh.incomingOrders
  {
    var e := Filter(entries, Counted);
    var all := AllCategories;
    var d1 := StepIf(d, e, all, "screws", ids, now, today, sheets).0;
    var d2 := StepIf(d1, e, all, "trims", ids, now, today, sheets).0;
    var d3 := StepIf(d2, e, all, "corrugated_saddles", ids, now, today, sheets).0;
    var d4 := StepIf(d3, e, all, "trimdek_saddles", ids, now, today, sheets).0;
    var d5 := StepIf(d4, e, all, "boxes", ids, now, today, sheets).0;
    var d6 := StepIf(d5, e, all, "mesh_4mm", ids, now, today, sheets).0;
    var d7 := StepIf(d6, e, all, "mesh_2mm", ids, now, today, sheets).0;
    assert ApplyStocktake(d, entries, None, backupLocation, ids, now, today, sheets).0 == d7;
    StepIfFiles(d, e, all, "screws", ids, now, today, sheets);
    StepIfFiles(d1, e, all, "trims", ids, now, today, sheets);
    StepIfFiles(d2, e, all, "corrugated_saddles", ids, now, today, sheets);
    StepIfFiles(d3, e, all, "trimdek_saddles", ids, now, today, sheets);
    StepIfFiles(d4, e, all, "boxes", ids, now, today, sheets);
    StepIfFiles(d5, e, all, "mesh_4mm", ids, now, today, sheets);
    StepIfFiles(d6, e, all, "mesh_2mm", ids, now, today, sheets);
    BothSaddleTypesReplaceAll(d.saddles, e, ids("corrugated_saddles"), ids("trimdek_saddles"), now,
                              sheets("corrugated_saddles"), sheets("trimdek_saddles"));
    BothMeshTypesReplaceAll(d.mesh, e, ids("mesh_4mm"), ids("mesh_2mm"), now, today, sheets("mesh_4mm"),
                            sheets("mesh_2mm"));
    PrefilterHarmless(entries, "corrugated_saddles", SaddleRecord("corrugated", ids("corrugated_saddles"), now));
    PrefilterHarmless(entries, "trimdek_saddles", SaddleRecord("trimdek", ids("trimdek_saddles"), now));
    PrefilterHarmless(entries, "mesh_4mm", MeshRecord("4mm_aluminium", ids("mesh_4mm"), now, today));
    PrefilterHarmless(entries, "mesh_2mm", MeshRecord("2mm_ember_guard", ids("mesh_2mm"), now, today));
  }
}
