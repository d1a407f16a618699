/**
 * The box ledger: one stock entry per box type, merged on every addition,
 * with removals refused when the entry cannot cover them; summaries split
 * each quantity into full packs and loose boxes.
 */
module Box {
  import opened Builtins
  import opened Collections

  /** A `box_types` entry; `pack_size` may be missing. */
  datatype BoxTypeConfig = BoxTypeConfig(packSize: Option<int>)

  datatype BoxEntry = BoxEntry(id: string, boxType: string, quantity: int, source: string, createdAt: int, lastUpdated: int)

  datatype BoxUsage = BoxUsage(date: int, boxType: string, quantity: int, reason: string, orderId: Option<string>)

  datatype SummaryRow = SummaryRow(boxType: string, quantity: int, packs: int, loose: int)

  /** The exception `//` and `%` raise for a zero divisor. */
  datatype Raised = ZeroDivisionError

  /** `get_pack_size`: `box_types.get(t, {}).get("pack_size", 1)`. */
  function PackSize(boxTypes: map<string, BoxTypeConfig>, t: string): (n: int)
    ensures t !in boxTypes ==> n == 1
    ensures t in boxTypes && boxTypes[t].packSize.None? ==> n == 1
    ensures t in boxTypes && boxTypes[t].packSize.Some? ==> n == boxTypes[t].packSize.value
  {
    (if t in boxTypes then boxTypes[t] else BoxTypeConfig(None)).packSize.GetOr(1)
  }

  function EntryQty(e: BoxEntry): int { e.quantity }

  function Matches(t: string): BoxEntry -> bool
  {
    (e: BoxEntry) => e.boxType == t
  }

  /** Boxes of one type, over every entry. */
  function QtyOf(inv: seq<BoxEntry>, t: string): int
  {
    SumInt(inv, Masked(Matches(t), EntryQty))
  }

  ghost predicate DistinctKeys(inv: seq<BoxEntry>)
  {
    forall i, j :: 0 <= i < j < |inv| ==> inv[i].boxType != inv[j].boxType
  }

  /** `add_stock`: the first entry of the type grows, else a new entry goes at the end. */
  function Stocked(inv: seq<BoxEntry>, t: string, q: int, source: string, newId: string, now: int): seq<BoxEntry>
  {
    match FirstIndex(inv, Matches(t))
    case Some(i) => inv[i := inv[i].(quantity := inv[i].quantity + q, lastUpdated := now)]
    case None => inv + [BoxEntry(newId, t, q, source, now, now)]
  }

  /** The entry `add_stock` returns. */
  function AddedEntry(inv: seq<BoxEntry>, t: string, q: int, source: string, newId: string, now: int): BoxEntry
  {
    match FirstIndex(inv, Matches(t))
    case Some(i) => inv[i].(quantity := inv[i].quantity + q, lastUpdated := now)
    case None => BoxEntry(newId, t, q, source, now, now)
  }

  /** Adding raises exactly its own type's stock, by exactly `q`. */
  lemma StockedQty(inv: seq<BoxEntry>, t: string, q: int, source: string, newId: string, now: int, t': string)
    ensures QtyOf(Stocked(inv, t, q, source, newId, now), t') == QtyOf(inv, t') + (if t' == t then q else 0)
  {
    var f := Masked(Matches(t'), EntryQty);
    match FirstIndex(inv, Matches(t))
    case Some(i) =>
      var e := inv[i].(quantity := inv[i].quantity + q, lastUpdated := now);
      assert Stocked(inv, t, q, source, newId, now) == inv[i := e];
      assert f(e) == f(inv[i]) + (if t' == t then q else 0);
      SumIntUpdate(inv, i, e, f);
    case None =>
      var e := BoxEntry(newId, t, q, source, now, now);
      SumIntAppend(inv, [e], f);
      assert [e][..0] == [];
  }

  /** Only the type's entry changes, at most one entry is added, and one entry per type is kept. */
  lemma StockedShape(inv: seq<BoxEntry>, t: string, q: int, source: string, newId: string, now: int)
    ensures var r := Stocked(inv, t, q, source, newId, now);
      && |r| == |inv| + (if FirstIndex(inv, Matches(t)).None? then 1 else 0)
      && (forall j :: 0 <= j < |inv| && !Matches(t)(inv[j]) ==> r[j] == inv[j])
    ensures DistinctKeys(inv) ==> DistinctKeys(Stocked(inv, t, q, source, newId, now))
  {
  }

  /** `get_stock_by_type`: the first matching entry's quantity, or 0. */
  function FirstQty(inv: seq<BoxEntry>, t: string): int
  {
    match FirstIndex(inv, Matches(t))
    case None => 0
    case Some(i) => inv[i].quantity
  }

  /** With one entry per type, the first entry's quantity is the type's whole stock. */
  lemma {:induction false} FirstQtyIsStock(inv: seq<BoxEntry>, t: string)
    requires DistinctKeys(inv)
    ensures FirstQty(inv, t) == QtyOf(inv, t)
  {
    if inv != [] {
      var init := inv[..|inv| - 1];
      assert DistinctKeys(init) by {
        forall i, j | 0 <= i < j < |init| ensures init[i].boxType != init[j].boxType {
          assert init[i] == inv[i] && init[j] == inv[j];
        }
      }
      FirstQtyIsStock(init, t);
      if Matches(t)(inv[|inv| - 1]) {
        forall j | 0 <= j < |init| ensures !Matches(t)(init[j]) {
          assert inv[j].boxType != inv[|inv| - 1].boxType;
        }
        assert FirstIndex(init, Matches(t)).None?;
      } else {
        match FirstIndex(init, Matches(t))
        case None =>
        case Some(i) =>
          assert init[i] == inv[i];
          assert forall j :: 0 <= j < i ==> init[j] == inv[j];
      }
    }
  }

  /** `remove_stock`: the first entry of the type, if it holds at least `q`, loses `q`. */
  function Withdrawn(inv: seq<BoxEntry>, t: string, q: int, now: int): Option<seq<BoxEntry>>
  {
    match FirstIndex(inv, Matches(t))
    case None => None
    case Some(i) =>
      if inv[i].quantity < q then None
      else Some(inv[i := inv[i].(quantity := inv[i].quantity - q, lastUpdated := now)])
  }

  /** A removal succeeds exactly when the type's first entry covers `q`; the entry is left non-negative. */
  lemma WithdrawnWhen(inv: seq<BoxEntry>, t: string, q: int, now: int)
    ensures Withdrawn(inv, t, q, now).Some? <==>
      (exists j :: 0 <= j < |inv| && Matches(t)(inv[j])) && q <= FirstQty(inv, t)
    ensures Withdrawn(inv, t, q, now).Some? ==>
      var i := FirstIndex(inv, Matches(t)).value;
      Withdrawn(inv, t, q, now).value[i].quantity == inv[i].quantity - q >= 0
  {
  }

  /** A successful removal lowers its type's stock by exactly `q` and no other type's. */
  lemma WithdrawnQty(inv: seq<BoxEntry>, t: string, q: int, now: int, t': string)
    requires Withdrawn(inv, t, q, now).Some?
    ensures QtyOf(Withdrawn(inv, t, q, now).value, t') == QtyOf(inv, t') - (if t' == t then q else 0)
    ensures DistinctKeys(inv) ==> DistinctKeys(Withdrawn(inv, t, q, now).value)
  {
    var i := FirstIndex(inv, Matches(t)).value;
    var r := Withdrawn(inv, t, q, now).value;
    SumIntUpdate(inv, i, r[i], Masked(Matches(t'), EntryQty));
  }

  /** `get_stock`: the entries of the type; the empty type matches everything. */
  function Passes(t: string): BoxEntry -> bool
  {
    (e: BoxEntry) => t == "" || e.boxType == t
  }

  function InStock(e: BoxEntry): bool { e.quantity > 0 }

  /** Every type some entry holds stock of has a non-zero pack size, so the summary does not raise. */
  ghost predicate PackSizesNonzero(boxTypes: map<string, BoxTypeConfig>, inv: seq<BoxEntry>)
  {
    forall i :: 0 <= i < |inv| && inv[i].quantity > 0 ==> PackSize(boxTypes, inv[i].boxType) != 0
  }

  function RowOf(e: BoxEntry, pack: int): SummaryRow
    requires pack != 0
  {
    SummaryRow(e.boxType, e.quantity, FloorDiv(e.quantity, pack), FloorMod(e.quantity, pack))
  }

  /** `get_stock_summary` when no division fails: a row per entry holding boxes, in order. */
  function Summary(boxTypes: map<string, BoxTypeConfig>, inv: seq<BoxEntry>): seq<SummaryRow>
    requires PackSizesNonzero(boxTypes, inv)
  {
    if inv == [] then []
    else
      var last := inv[|inv| - 1];
      Summary(boxTypes, inv[..|inv| - 1])
        + (if last.quantity > 0 then [RowOf(last, PackSize(boxTypes, last.boxType))] else [])
  }

  /**
   * The summary rows are exactly the entries holding boxes, in order, and
   * each splits its quantity into full packs and loose boxes that add back
   * up to it.
   */
  lemma {:induction false} SummaryRows(boxTypes: map<string, BoxTypeConfig>, inv: seq<BoxEntry>)
    requires PackSizesNonzero(boxTypes, inv)
    ensures var pos := Filter(inv, InStock);
      var rows := Summary(boxTypes, inv);
      && |rows| == |pos|
      && forall i :: 0 <= i < |rows| ==>
           var pack := PackSize(boxTypes, rows[i].boxType);
           && rows[i].boxType == pos[i].boxType && rows[i].quantity == pos[i].quantity > 0
           && rows[i].packs * pack + rows[i].loose == rows[i].quantity
           && (pack > 0 ==> 0 <= rows[i].loose < pack)
  {
    if inv != [] {
      SummaryRows(boxTypes, inv[..|inv| - 1]);
    }
  }

  class BoxManager {
    const boxTypes: map<string, BoxTypeConfig>
    var inventory: seq<BoxEntry>
    var usageHistory: seq<BoxUsage>

    constructor (boxTypes: map<string, BoxTypeConfig>, inventory: seq<BoxEntry>, usageHistory: seq<BoxUsage>)
      ensures this.boxTypes == boxTypes && this.inventory == inventory && this.usageHistory == usageHistory
    {
      this.boxTypes := boxTypes;
      this.inventory := inventory;
      this.usageHistory := usageHistory;
    }

    /** `add_stock`: returns the updated or the new entry. */
    method AddStock(boxType: string, quantity: int, source: string, newId: string, now: int) returns (entry: BoxEntry)
      modifies this
      ensures inventory == Stocked(old(inventory), boxType, quantity, source, newId, now)
      ensures entry == AddedEntry(old(inventory), boxType, quantity, source, newId, now)
      ensures usageHistory == old(usageHistory)
    {
      var i := 0;
      while i < |inventory|
        invariant 0 <= i <= |inventory|
        invariant forall j :: 0 <= j < i ==> !Matches(boxType)(inventory[j])
        invariant inventory == old(inventory)
      {
        entry := inventory[i];
        if entry.boxType == boxType {
          entry := entry.(quantity := entry.quantity + quantity, lastUpdated := now);
          inventory := inventory[i := entry];
          return;
        }
        i := i + 1;
      }
      entry := BoxEntry(newId, boxType, quantity, source, now, now);
      inventory := inventory + [entry];
    }

    /**
     * `remove_stock`: false, changing nothing, when the type has no entry or
     * its first entry holds fewer than `quantity`; otherwise that entry loses
     * `quantity` and one usage record is logged.
     */
    method RemoveStock(boxType: string, quantity: int, reason: string, orderId: Option<string>, now: int)
      returns (ok: bool)
      modifies this
      ensures match Withdrawn(old(inventory), boxType, quantity, now)
        case None => !ok && inventory == old(inventory) && usageHistory == old(usageHistory)
        case Some(s) =>
          && ok && inventory == s
          && usageHistory == old(usageHistory) + [BoxUsage(now, boxType, quantity, reason, orderId)]
    {
      var i := 0;
      while i < |inventory|
        invariant 0 <= i <= |inventory|
        invariant forall j :: 0 <= j < i ==> !Matches(boxType)(inventory[j])
      {
        var entry := inventory[i];
        if entry.boxType == boxType {
          if entry.quantity < quantity {
            return false;
          }
          inventory := inventory[i := entry.(quantity := entry.quantity - quantity, lastUpdated := now)];
          usageHistory := usageHistory + [BoxUsage(now, boxType, quantity, reason, orderId)];
          return true;
        }
        i := i + 1;
      }
      return false;
    }

    /** `get_stock`. */
    method GetStock(boxType: string) returns (r: seq<BoxEntry>)
      ensures r == Filter(inventory, Passes(boxType))
      ensures forall e :: e in r <==> e in inventory && (boxType == "" || e.boxType == boxType)
    {
      r := [];
      var i := 0;
      while i < |inventory|
        invariant 0 <= i <= |inventory|
        invariant r == Filter(inventory[..i], Passes(boxType))
      {
        assert inventory[..i + 1][..i] == inventory[..i];
        if Passes(boxType)(inventory[i]) {
          r := r + [inventory[i]];
        }
        i := i + 1;
      }
      assert inventory[..i] == inventory;
      FilterMembers(inventory, Passes(boxType));
    }

    /** `get_stock_summary`; a zero pack size raises at the first entry of that type holding boxes. */
    method GetStockSummary() returns (r: Result<seq<SummaryRow>, Raised>)
      ensures r.Err? <==> !PackSizesNonzero(boxTypes, inventory)
      ensures r.Ok? ==> r.value == Summary(boxTypes, inventory)
    {
      var rows: seq<SummaryRow> := [];
      var i := 0;
      while i < |inventory|
        invariant 0 <= i <= |inventory|
        invariant PackSizesNonzero(boxTypes, inventory[..i])
        invariant rows == Summary(boxTypes, inventory[..i])
      {
        assert inventory[..i + 1][..i] == inventory[..i];
        var entry := inventory[i];
        if entry.quantity > 0 {
          var pack := PackSize(boxTypes, entry.boxType);
          if pack == 0 {
            return Err(ZeroDivisionError);
          }
          rows := rows + [SummaryRow(entry.boxType, entry.quantity, FloorDiv(entry.quantity, pack),
                                     FloorMod(entry.quantity, pack))];
        }
        i := i + 1;
      }
      assert inventory[..i] == inventory;
      return Ok(rows);
    }

    /** `get_stock_by_type`. */
    method GetStockByType(boxType: string) returns (q: int)
      ensures q == FirstQty(inventory, boxType)
      ensures DistinctKeys(inventory) ==> q == QtyOf(inventory, boxType)
    {
      var i := 0;
      while i < |inventory|
        invariant 0 <= i <= |inventory|
        invariant forall j :: 0 <= j < i ==> !Matches(boxType)(inventory[j])
      {
        if inventory[i].boxType == boxType {
          q := inventory[i].quantity;
          if DistinctKeys(inventory) {
            FirstQtyIsStock(inventory, boxType);
          }
          return;
        }
        i := i + 1;
      }
      if DistinctKeys(inventory) {
        FirstQtyIsStock(inventory, boxType);
      }
      return 0;
    }
  }
}
