/**
 * The screw ledger: one stock entry per (screw type, colour), merged on
 * every addition, with removals refused when the entry cannot cover them.
 */
module Screw {
  import opened Builtins
  import opened Collections

  datatype ScrewEntry = ScrewEntry(
    id: string, screwType: string, colour: string, quantity: int, source: string, createdAt: int, lastUpdated: int)

  datatype ScrewUsage = ScrewUsage(date: int, screwType: string, colour: string, quantity: int,
                                   reason: string, orderId: Option<string>)

  /** A `get_stock_summary` row; `boxes` is the number of full packs. */
  datatype SummaryRow = SummaryRow(screwType: string, colour: string, quantity: int, boxes: int)

  /** The exception `//` raises for a zero divisor. */
  datatype Raised = ZeroDivisionError

  datatype ScrewKey = ScrewKey(screwType: string, colour: string)

  function EntryKey(e: ScrewEntry): ScrewKey { ScrewKey(e.screwType, e.colour) }

  function EntryQty(e: ScrewEntry): int { e.quantity }

  function Matches(t: string, c: string): ScrewEntry -> bool
  {
    (e: ScrewEntry) => e.screwType == t && e.colour == c
  }

  /** Screws of one (type, colour), over every entry. */
  function QtyOf(inv: seq<ScrewEntry>, t: string, c: string): int
  {
    SumInt(inv, Masked(Matches(t, c), EntryQty))
  }

  ghost predicate DistinctKeys(inv: seq<ScrewEntry>)
  {
    forall i, j :: 0 <= i < j < |inv| ==> EntryKey(inv[i]) != EntryKey(inv[j])
  }

  /** `add_stock`: the first entry of the key grows, else a new entry goes at the end. */
  function Stocked(inv: seq<ScrewEntry>, t: string, c: string, q: int, source: string, newId: string, now: int)
    : seq<ScrewEntry>
  {
    match FirstIndex(inv, Matches(t, c))
    case Some(i) => inv[i := inv[i].(quantity := inv[i].quantity + q, lastUpdated := now)]
    case None => inv + [ScrewEntry(newId, t, c, q, source, now, now)]
  }

  /** Adding raises exactly its own key's stock, by exactly `q`. */
  lemma StockedQty(inv: seq<ScrewEntry>, t: string, c: string, q: int, source: string, newId: string, now: int,
                   t': string, c': string)
    ensures QtyOf(Stocked(inv, t, c, q, source, newId, now), t', c')
         == QtyOf(inv, t', c') + (if t' == t && c' == c then q else 0)
  {
    var f := Masked(Matches(t', c'), EntryQty);
    match FirstIndex(inv, Matches(t, c))
    case Some(i) =>
      var e := inv[i].(quantity := inv[i].quantity + q, lastUpdated := now);
      assert Stocked(inv, t, c, q, source, newId, now) == inv[i := e];
      assert f(e) == f(inv[i]) + (if t' == t && c' == c then q else 0);
      SumIntUpdate(inv, i, e, f);
    case None =>
      var e := ScrewEntry(newId, t, c, q, source, now, now);
      SumIntAppend(inv, [e], f);
      assert [e][..0] == [];
  }

  /** Only the key's entry changes, at most one entry is added, and one entry per key is kept. */
  lemma StockedShape(inv: seq<ScrewEntry>, t: string, c: string, q: int, source: string, newId: string, now: int)
    ensures var r := Stocked(inv, t, c, q, source, newId, now);
      && |r| == |inv| + (if FirstIndex(inv, Matches(t, c)).None? then 1 else 0)
      && (forall j :: 0 <= j < |inv| && !Matches(t, c)(inv[j]) ==> r[j] == inv[j])
    ensures DistinctKeys(inv) ==> DistinctKeys(Stocked(inv, t, c, q, source, newId, now))
  {
  }

  /** The entry `add_stock` returns: the key's first entry, holding the old amount plus `q`. */
  function AddedEntry(inv: seq<ScrewEntry>, t: string, c: string, q: int, source: string, newId: string, now: int)
    : ScrewEntry
  {
    match FirstIndex(inv, Matches(t, c))
    case Some(i) => inv[i].(quantity := inv[i].quantity + q, lastUpdated := now)
    case None => ScrewEntry(newId, t, c, q, source, now, now)
  }

  /** `get_stock_by_type_and_colour`: the first matching entry's quantity, or 0. */
  function FirstQty(inv: seq<ScrewEntry>, t: string, c: string): int
  {
    match FirstIndex(inv, Matches(t, c))
    case None => 0
    case Some(i) => inv[i].quantity
  }

  /** With one entry per key, the first entry's quantity is the key's whole stock. */
  lemma {:induction false} FirstQtyIsStock(inv: seq<ScrewEntry>, t: string, c: string)
    requires DistinctKeys(inv)
    ensures FirstQty(inv, t, c) == QtyOf(inv, t, c)
  {
    if inv != [] {
      var init := inv[..|inv| - 1];
      assert DistinctKeys(init) by {
        forall i, j | 0 <= i < j < |init| ensures EntryKey(init[i]) != EntryKey(init[j]) {
          assert init[i] == inv[i] && init[j] == inv[j];
        }
      }
      FirstQtyIsStock(init, t, c);
      if Matches(t, c)(inv[|inv| - 1]) {
        forall j | 0 <= j < |init| ensures !Matches(t, c)(init[j]) {
          assert EntryKey(inv[j]) != EntryKey(inv[|inv| - 1]);
        }
        assert FirstIndex(init, Matches(t, c)).None?;
      } else {
        match FirstIndex(init, Matches(t, c))
        case None =>
        case Some(i) =>
          assert init[i] == inv[i];
          assert forall j :: 0 <= j < i ==> init[j] == inv[j];
      }
    }
  }

  /** `remove_stock`: the first entry of the key, if it holds at least `q`, loses `q`. */
  function Withdrawn(inv: seq<ScrewEntry>, t: string, c: string, q: int, now: int): Option<seq<ScrewEntry>>
  {
    match FirstIndex(inv, Matches(t, c))
    case None => None
    case Some(i) =>
      if inv[i].quantity < q then None
      else Some(inv[i := inv[i].(quantity := inv[i].quantity - q, lastUpdated := now)])
  }

  /** A removal succeeds exactly when the key's first entry covers `q`; the entry is left non-negative. */
  lemma WithdrawnWhen(inv: seq<ScrewEntry>, t: string, c: string, q: int, now: int)
    ensures Withdrawn(inv, t, c, q, now).Some? <==>
      (exists j :: 0 <= j < |inv| && Matches(t, c)(inv[j])) && q <= FirstQty(inv, t, c)
    ensures Withdrawn(inv, t, c, q, now).Some? ==>
      var i := FirstIndex(inv, Matches(t, c)).value;
      Withdrawn(inv, t, c, q, now).value[i].quantity == inv[i].quantity - q >= 0
  {
  }

  /** A successful removal lowers its key's stock by exactly `q` and no other key's. */
  lemma WithdrawnQty(inv: seq<ScrewEntry>, t: string, c: string, q: int, now: int, t': string, c': string)
    requires Withdrawn(inv, t, c, q, now).Some?
    ensures QtyOf(Withdrawn(inv, t, c, q, now).value, t', c')
         == QtyOf(inv, t', c') - (if t' == t && c' == c then q else 0)
    ensures DistinctKeys(inv) ==> DistinctKeys(Withdrawn(inv, t, c, q, now).value)
  {
    var i := FirstIndex(inv, Matches(t, c)).value;
    var r := Withdrawn(inv, t, c, q, now).value;
    SumIntUpdate(inv, i, r[i], Masked(Matches(t', c'), EntryQty));
  }

  /** `get_stock`: the entries of the type and colour; an empty filter matches everything. */
  function Passes(t: string, c: string): ScrewEntry -> bool
  {
    (e: ScrewEntry) => (t == "" || e.screwType == t) && (c == "" || e.colour == c)
  }

  function InStock(e: ScrewEntry): bool { e.quantity > 0 }

  function RowOf(e: ScrewEntry, packSize: int): SummaryRow
    requires packSize != 0
  {
    SummaryRow(e.screwType, e.colour, e.quantity, FloorDiv(e.quantity, packSize))
  }

  /** `get_stock_summary` for a non-zero pack size: a row for each entry holding screws, in order. */
  function Summary(inv: seq<ScrewEntry>, packSize: int): seq<SummaryRow>
    requires packSize != 0
  {
    if inv == [] then []
    else
      var last := inv[|inv| - 1];
      Summary(inv[..|inv| - 1], packSize) + (if last.quantity > 0 then [RowOf(last, packSize)] else [])
  }

  /**
   * The summary rows are exactly the entries with a positive quantity, in
   * order; each row counts the full packs its screws make.
   */
  lemma {:induction false} SummaryRows(inv: seq<ScrewEntry>, packSize: int)
    requires packSize != 0
    ensures var pos := Filter(inv, InStock);
      var rows := Summary(inv, packSize);
      && |rows| == |pos|
      && forall i :: 0 <= i < |rows| ==>
           && rows[i].screwType == pos[i].screwType && rows[i].colour == pos[i].colour
           && rows[i].quantity == pos[i].quantity > 0
           && (packSize > 0 ==> rows[i].boxes * packSize <= rows[i].quantity < (rows[i].boxes + 1) * packSize)
  {
    if inv != [] {
      SummaryRows(inv[..|inv| - 1], packSize);
    }
  }

  class ScrewManager {
    const packSize: int
    var inventory: seq<ScrewEntry>
    var usageHistory: seq<ScrewUsage>

    constructor (packSize: int, inventory: seq<ScrewEntry>, usageHistory: seq<ScrewUsage>)
      ensures this.packSize == packSize && this.inventory == inventory && this.usageHistory == usageHistory
    {
      this.packSize := packSize;
      this.inventory := inventory;
      this.usageHistory := usageHistory;
    }

    /** `add_stock`: returns the updated or the new entry. */
    method AddStock(screwType: string, colour: string, quantity: int, source: string, newId: string, now: int)
      returns (entry: ScrewEntry)
      modifies this
      ensures inventory == Stocked(old(inventory), screwType, colour, quantity, source, newId, now)
      ensures entry == AddedEntry(old(inventory), screwType, colour, quantity, source, newId, now)
      ensures usageHistory == old(usageHistory)
    {
      var i := 0;
      while i < |inventory|
        invariant 0 <= i <= |inventory|
        invariant forall j :: 0 <= j < i ==> !Matches(screwType, colour)(inventory[j])
        invariant inventory == old(inventory)
      {
        entry := inventory[i];
        if entry.screwType == screwType && entry.colour == colour {
          entry := entry.(quantity := entry.quantity + quantity, lastUpdated := now);
          inventory := inventory[i := entry];
          return;
        }
        i := i + 1;
      }
      entry := ScrewEntry(newId, screwType, colour, quantity, source, now, now);
      inventory := inventory + [entry];
    }

    /**
     * `remove_stock`: false, changing nothing, when the key has no entry or
     * its first entry holds fewer than `quantity`; otherwise that entry loses
     * `quantity` and one usage record is logged.
     */
    method RemoveStock(screwType: string, colour: string, quantity: int, reason: string,
                       orderId: Option<string>, now: int) returns (ok: bool)
      modifies this
      ensures match Withdrawn(old(inventory), screwType, colour, quantity, now)
        case None => !ok && inventory == old(inventory) && usageHistory == old(usageHistory)
        case Some(s) =>
          && ok && inventory == s
          && usageHistory == old(usageHistory) + [ScrewUsage(now, screwType, colour, quantity, reason, orderId)]
    {
      var i := 0;
      while i < |inventory|
        invariant 0 <= i <= |inventory|
        invariant forall j :: 0 <= j < i ==> !Matches(screwType, colour)(inventory[j])
      {
        var entry := inventory[i];
        if entry.screwType == screwType && entry.colour == colour {
          if entry.quantity < quantity {
            return false;
          }
          inventory := inventory[i := entry.(quantity := entry.quantity - quantity, lastUpdated := now)];
          usageHistory := usageHistory + [ScrewUsage(now, screwType, colour, quantity, reason, orderId)];
          return true;
        }
        i := i + 1;
      }
      return false;
    }

    /** `get_stock`. */
    method GetStock(screwType: string, colour: string) returns (r: seq<ScrewEntry>)
      ensures r == Filter(inventory, Passes(screwType, colour))
      ensures forall e :: e in r <==> e in inventory && (screwType == "" || e.screwType == screwType)
                                      && (colour == "" || e.colour == colour)
    {
      r := [];
      var i := 0;
      while i < |inventory|
        invariant 0 <= i <= |inventory|
        invariant r == Filter(inventory[..i], Passes(screwType, colour))
      {
        assert inventory[..i + 1][..i] == inventory[..i];
        if Passes(screwType, colour)(inventory[i]) {
          r := r + [inventory[i]];
        }
        i := i + 1;
      }
      assert inventory[..i] == inventory;
      FilterMembers(inventory, Passes(screwType, colour));
    }

    /** `get_stock_summary`; a zero pack size raises as soon as an entry holds screws. */
    method GetStockSummary() returns (r: Result<seq<SummaryRow>, Raised>)
      ensures packSize == 0 ==>
        (r == Err(ZeroDivisionError) <==> exists i :: 0 <= i < |inventory| && inventory[i].quantity > 0)
      ensures packSize == 0 && r.Ok? ==> r.value == []
      ensures packSize != 0 ==> r == Ok(Summary(inventory, packSize))
    {
      var rows: seq<SummaryRow> := [];
      var i := 0;
      while i < |inventory|
        invariant 0 <= i <= |inventory|
        invariant packSize != 0 ==> rows == Summary(inventory[..i], packSize)
        invariant packSize == 0 ==> rows == [] && forall j :: 0 <= j < i ==> inventory[j].quantity <= 0
      {
        assert inventory[..i + 1][..i] == inventory[..i];
        var entry := inventory[i];
        if entry.quantity > 0 {
          if packSize == 0 {
            return Err(ZeroDivisionError);
          }
          rows := rows + [SummaryRow(entry.screwType, entry.colour, entry.quantity, FloorDiv(entry.quantity, packSize))];
        }
        i := i + 1;
      }
      assert inventory[..i] == inventory;
      return Ok(rows);
    }

    /** `get_stock_by_type_and_colour`. */
    method GetStockByTypeAndColour(screwType: string, colour: string) returns (q: int)
      ensures q == FirstQty(inventory, screwType, colour)
      ensures DistinctKeys(inventory) ==> q == QtyOf(inventory, screwType, colour)
    {
      var i := 0;
      while i < |inventory|
        invariant 0 <= i <= |inventory|
        invariant forall j :: 0 <= j < i ==> !Matches(screwType, colour)(inventory[j])
      {
        if inventory[i].screwType == screwType && inventory[i].colour == colour {
          q := inventory[i].quantity;
          if DistinctKeys(inventory) {
            FirstQtyIsStock(inventory, screwType, colour);
          }
          return;
        }
        i := i + 1;
      }
      if DistinctKeys(inventory) {
        FirstQtyIsStock(inventory, screwType, colour);
      }
      return 0;
    }
  }
}
