/**
 * The saddle ledger: steel coils (by weight), production runs that press
 * saddles out of a coil, and the finished saddle stock kept as one entry
 * per (saddle type, colour).  Weights are exact reals; the current time
 * and fresh ids are parameters.
 */
module Saddle {
  import opened Builtins
  import opened Collections

  // ---------------------------------------------------------------------
  // Configuration and yield
  // ---------------------------------------------------------------------

  /** A `saddle_types` entry; any key may be missing. */
  datatype TypeConfig = TypeConfig(yieldPerKg: Option<real>, wastePercent: Option<real>, outputUnit: Option<string>)

  /** The configuration: the global `production` yield and waste, and the per-type entries. */
  datatype SaddleConfig = SaddleConfig(yieldPerKg: real, wastePercent: real, saddleTypes: map<string, TypeConfig>)

  /** The yield parameters a run uses: saddles per usable kg and percent of weight wasted. */
  datatype Yield = Yield(yieldPerKg: real, wastePercent: real)

  /** `saddle_types.get(t, {})` with each missing key falling back to the global value. */
  function TypeYield(cfg: SaddleConfig, t: string): (y: Yield)
    ensures t !in cfg.saddleTypes ==> y == Yield(cfg.yieldPerKg, cfg.wastePercent)
    ensures t in cfg.saddleTypes ==>
      && y.yieldPerKg == cfg.saddleTypes[t].yieldPerKg.GetOr(cfg.yieldPerKg)
      && y.wastePercent == cfg.saddleTypes[t].wastePercent.GetOr(cfg.wastePercent)
  {
    var tc := if t in cfg.saddleTypes then cfg.saddleTypes[t] else TypeConfig(None, None, None);
    Yield(tc.yieldPerKg.GetOr(cfg.yieldPerKg), tc.wastePercent.GetOr(cfg.wastePercent))
  }

  function UsableKg(w: real, y: Yield): real
  {
    w * (1.0 - y.wastePercent / 100.0)
  }

  /** The weight lost to waste; with the usable weight it accounts for all of `w`. */
  function WasteKg(w: real, y: Yield): (r: real)
    ensures UsableKg(w, y) + r == w
    ensures 0.0 <= w && 0.0 <= y.wastePercent <= 100.0 ==> 0.0 <= r <= w
  {
    w * (y.wastePercent / 100.0)
  }

  /** Yield parameters a sensible configuration gives: a waste percentage and a non-negative rate. */
  predicate SaneYield(y: Yield)
  {
    0.0 <= y.wastePercent <= 100.0 && 0.0 <= y.yieldPerKg
  }

  /** `int(usable_kg * yield_per_kg)`: whole saddles expected from `w` kg. */
  function ExpectedOutput(w: real, y: Yield): int
  {
    Trunc(UsableKg(w, y) * y.yieldPerKg)
  }

  /** A run of non-negative weight expects the whole number of saddles its usable weight makes, rounded down. */
  lemma ExpectedOutputBounds(w: real, y: Yield)
    requires 0.0 <= w && SaneYield(y)
    ensures 0.0 <= UsableKg(w, y) <= w
    ensures 0 <= ExpectedOutput(w, y)
    ensures ExpectedOutput(w, y) as real <= UsableKg(w, y) * y.yieldPerKg < ExpectedOutput(w, y) as real + 1.0
  {
    var f := 1.0 - y.wastePercent / 100.0;
    assert 0.0 <= f <= 1.0;
    assert 0.0 <= w * f <= w;
    assert 0.0 <= (w * f) * y.yieldPerKg;
  }

  /** More material never yields fewer saddles. */
  lemma ExpectedOutputMonotone(w1: real, w2: real, y: Yield)
    requires 0.0 <= w1 <= w2
    requires SaneYield(y)
    ensures ExpectedOutput(w1, y) <= ExpectedOutput(w2, y)
  {
    var f := 1.0 - y.wastePercent / 100.0;
    assert 0.0 <= f;
    assert UsableKg(w1, y) <= UsableKg(w2, y) by {
      assert w1 * f <= w2 * f;
    }
    assert UsableKg(w1, y) * y.yieldPerKg <= UsableKg(w2, y) * y.yieldPerKg;
    ExpectedOutputBounds(w1, y);
    ExpectedOutputBounds(w2, y);
  }

  /** What `calculate_production_estimate` reports. */
  datatype Estimate = Estimate(
    weightKg: real, usableKg: real, wasteKg: real, wastePercent: real,
    expectedSaddles: int, expectedOutput: int, outputUnit: string, yieldPerKg: real)

  /** The yield parameters `calculate_production_estimate` looks up: only a non-empty configured type has its own. */
  function EstimateYield(cfg: SaddleConfig, t: string): Yield
  {
    if t != "" && t in cfg.saddleTypes then TypeYield(cfg, t) else Yield(cfg.yieldPerKg, cfg.wastePercent)
  }

  /** Every yield the configuration can produce, per type or global, is sane. */
  ghost predicate SaneConfig(cfg: SaddleConfig)
  {
    && SaneYield(Yield(cfg.yieldPerKg, cfg.wastePercent))
    && forall t :: t in cfg.saddleTypes ==> SaneYield(TypeYield(cfg, t))
  }

  /**
   * `calculate_production_estimate`; the displayed weights are rounded to
   * two decimals, the count is not.
   */
  function ProductionEstimate(cfg: SaddleConfig, w: real, t: string): (e: Estimate)
    ensures e.expectedSaddles == e.expectedOutput
    ensures e.outputUnit == if t != "" && t in cfg.saddleTypes then cfg.saddleTypes[t].outputUnit.GetOr("saddles")
                            else "saddles"
    ensures SaneConfig(cfg) && 0.0 <= w ==>
      0 <= e.expectedOutput && 0.0 <= e.usableKg && 0.0 <= e.wasteKg && 0.0 <= e.wastePercent <= 100.0
  {
    var y := EstimateYield(cfg, t);
    var outputUnit := if t != "" && t in cfg.saddleTypes then cfg.saddleTypes[t].outputUnit.GetOr("saddles")
                      else "saddles";
    var usable := UsableKg(w, y);
    var expected := ExpectedOutput(w, y);
    assert SaneConfig(cfg) && 0.0 <= w ==> 0 <= expected && 0.0 <= usable by {
      if SaneConfig(cfg) && 0.0 <= w {
        ExpectedOutputBounds(w, y);
      }
    }
    Estimate(w, Round(usable, 2), Round(WasteKg(w, y), 2), y.wastePercent, expected, expected, outputUnit, y.yieldPerKg)
  }

  /**
   * The estimate shown for a coil's type predicts exactly the count a run
   * of the same weight from such a coil records (unless the type is the
   * empty string and configured, where the estimate uses the global values).
   */
  lemma EstimateMatchesRun(cfg: SaddleConfig, w: real, t: string)
    requires t != "" || t !in cfg.saddleTypes
    ensures ProductionEstimate(cfg, w, t).expectedOutput == ExpectedOutput(w, TypeYield(cfg, t))
    ensures ProductionEstimate(cfg, w, t).usableKg == Round(UsableKg(w, TypeYield(cfg, t)), 2)
    ensures ProductionEstimate(cfg, w, t).wasteKg == Round(WasteKg(w, TypeYield(cfg, t)), 2)
  {
  }

  // ---------------------------------------------------------------------
  // Records
  // ---------------------------------------------------------------------

  datatype Coil = Coil(
    id: string, saddleType: string, colour: string, initialWeightKg: real, currentWeightKg: real,
    estimatedYield: int, status: string, supplier: string, receivedDate: string, notes: string, createdAt: int)

  datatype ProductionRecord = ProductionRecord(
    id: string, date: int, coilId: string, saddleType: string, colour: string, weightUsedKg: real,
    usableKg: real, wasteKg: real, expectedSaddles: int, saddlesProduced: int, operator: string, notes: string)

  datatype ProductionError = CoilNotFound(coilId: string) | InsufficientMaterial(availableKg: real, requestedKg: real)

  /** One line of saddle stock. */
  datatype SaddleEntry = SaddleEntry(
    id: string, saddleType: string, colour: string, quantity: int, source: string, createdAt: int, lastUpdated: int)

  datatype SaddleUsage = SaddleUsage(date: int, saddleType: string, colour: string, quantity: int,
                                     reason: string, orderId: Option<string>)

  datatype SaddleKey = SaddleKey(saddleType: string, colour: string)

  datatype SummaryRow = SummaryRow(saddleType: string, colour: string, quantity: int)

  function IsCoil(id: string): Coil -> bool
  {
    (c: Coil) => c.id == id
  }

  /** A coil after `w` kg were pressed from it. */
  function Drawn(c: Coil, w: real): (r: Coil)
    ensures r.currentWeightKg == c.currentWeightKg - w
    ensures w <= c.currentWeightKg ==> 0.0 <= r.currentWeightKg
    ensures r.status == "depleted" <==> r.currentWeightKg <= 0.0
    ensures r.status == "depleted" || r.status == "in_use"
    ensures r.(currentWeightKg := c.currentWeightKg, status := c.status) == c
  {
    var left := c.currentWeightKg - w;
    c.(currentWeightKg := left, status := if left <= 0.0 then "depleted" else "in_use")
  }

  function EntryKey(e: SaddleEntry): SaddleKey { SaddleKey(e.saddleType, e.colour) }

  function EntryQty(e: SaddleEntry): int { e.quantity }

  function Matches(t: string, c: string): SaddleEntry -> bool
  {
    (e: SaddleEntry) => e.saddleType == t && e.colour == c
  }

  /** Stock of one (type, colour), over every entry. */
  function QtyOf(stock: seq<SaddleEntry>, t: string, c: string): int
  {
    SumInt(stock, Masked(Matches(t, c), EntryQty))
  }

  /** At most one entry per (type, colour): what `_add_to_stock` maintains. */
  ghost predicate DistinctKeys(stock: seq<SaddleEntry>)
  {
    forall i, j :: 0 <= i < j < |stock| ==> EntryKey(stock[i]) != EntryKey(stock[j])
  }

  /** `_add_to_stock`: the first entry of the key grows, else a new entry goes at the end. */
  function Stocked(stock: seq<SaddleEntry>, t: string, c: string, q: int, source: string, newId: string, now: int)
    : seq<SaddleEntry>
  {
    match FirstIndex(stock, Matches(t, c))
    case Some(i) => stock[i := stock[i].(quantity := stock[i].quantity + q, lastUpdated := now)]
    case None => stock + [SaddleEntry(newId, t, c, q, source, now, now)]
  }

  /** Adding stock raises exactly its own key's stock, by exactly `q`. */
  lemma StockedQty(stock: seq<SaddleEntry>, t: string, c: string, q: int, source: string, newId: string, now: int,
                   t': string, c': string)
    ensures QtyOf(Stocked(stock, t, c, q, source, newId, now), t', c')
         == QtyOf(stock, t', c') + (if t' == t && c' == c then q else 0)
  {
    var f := Masked(Matches(t', c'), EntryQty);
    match FirstIndex(stock, Matches(t, c))
    case Some(i) =>
      var e := stock[i].(quantity := stock[i].quantity + q, lastUpdated := now);
      assert Stocked(stock, t, c, q, source, newId, now) == stock[i := e];
      assert f(e) == f(stock[i]) + (if t' == t && c' == c then q else 0);
      SumIntUpdate(stock, i, e, f);
    case None =>
      var e := SaddleEntry(newId, t, c, q, source, now, now);
      SumIntAppend(stock, [e], f);
      assert [e][..0] == [];
  }

  /** Nothing but the one entry changes, and at most one entry is added. */
  lemma StockedShape(stock: seq<SaddleEntry>, t: string, c: string, q: int, source: string, newId: string, now: int)
    ensures var r := Stocked(stock, t, c, q, source, newId, now);
      && |r| == |stock| + (if FirstIndex(stock, Matches(t, c)).None? then 1 else 0)
      && (forall j :: 0 <= j < |stock| && !Matches(t, c)(stock[j]) ==> r[j] == stock[j])
      && (forall j :: 0 <= j < |r| ==> r[j].id == (if j < |stock| then stock[j].id else newId))
    ensures DistinctKeys(stock) ==> DistinctKeys(Stocked(stock, t, c, q, source, newId, now))
  {
  }

  /** After adding, the key has an entry, and its first one holds the old amount plus `q`. */
  lemma StockedFirst(stock: seq<SaddleEntry>, t: string, c: string, q: int, source: string, newId: string, now: int)
    ensures var r := Stocked(stock, t, c, q, source, newId, now);
      var k := FirstIndex(r, Matches(t, c));
      && k.Some?
      && r[k.value].quantity == q + match FirstIndex(stock, Matches(t, c))
                                    case None => 0
                                    case Some(i) => stock[i].quantity
  {
    var r := Stocked(stock, t, c, q, source, newId, now);
    match FirstIndex(stock, Matches(t, c))
    case None =>
      assert Matches(t, c)(r[|stock|]);
      assert forall j :: 0 <= j < |stock| ==> r[j] == stock[j];
    case Some(i) =>
      assert Matches(t, c)(r[i]);
      assert forall j :: 0 <= j < i ==> r[j] == stock[j];
  }

  /** With one entry per key, the first entry of a key holds all of its stock. */
  lemma {:induction false} QtyOfFirst(stock: seq<SaddleEntry>, t: string, c: string)
    requires DistinctKeys(stock)
    ensures QtyOf(stock, t, c) == match FirstIndex(stock, Matches(t, c))
                                  case None => 0
                                  case Some(i) => stock[i].quantity
  {
    if stock != [] {
      var init := stock[..|stock| - 1];
      assert DistinctKeys(init) by {
        forall i, j | 0 <= i < j < |init| ensures EntryKey(init[i]) != EntryKey(init[j]) {
          assert init[i] == stock[i] && init[j] == stock[j];
        }
      }
      QtyOfFirst(init, t, c);
      if Matches(t, c)(stock[|stock| - 1]) {
        forall j | 0 <= j < |init| ensures !Matches(t, c)(init[j]) {
          assert EntryKey(stock[j]) != EntryKey(stock[|stock| - 1]);
        }
        assert FirstIndex(init, Matches(t, c)).None?;
      } else {
        match FirstIndex(init, Matches(t, c))
        case None =>
        case Some(i) =>
          assert init[i] == stock[i];
          assert forall j :: 0 <= j < i ==> init[j] == stock[j];
      }
    }
  }

  /** `remove_saddles`: the first entry of the key, if it holds at least `q`, loses `q`. */
  function Withdrawn(stock: seq<SaddleEntry>, t: string, c: string, q: int, now: int): Option<seq<SaddleEntry>>
  {
    match FirstIndex(stock, Matches(t, c))
    case None => None
    case Some(i) =>
      if stock[i].quantity < q then None
      else Some(stock[i := stock[i].(quantity := stock[i].quantity - q, lastUpdated := now)])
  }

  /** With one entry per key, a removal succeeds exactly when the key has an entry whose stock covers `q`. */
  lemma WithdrawnWhen(stock: seq<SaddleEntry>, t: string, c: string, q: int, now: int)
    requires DistinctKeys(stock)
    ensures Withdrawn(stock, t, c, q, now).Some? <==>
      (exists j :: 0 <= j < |stock| && Matches(t, c)(stock[j])) && q <= QtyOf(stock, t, c)
  {
    QtyOfFirst(stock, t, c);
  }

  /**
   * A successful removal lowers its key's stock by exactly `q` and leaves
   * every other key alone.
   */
  lemma WithdrawnQty(stock: seq<SaddleEntry>, t: string, c: string, q: int, now: int, t': string, c': string)
    requires Withdrawn(stock, t, c, q, now).Some?
    ensures QtyOf(Withdrawn(stock, t, c, q, now).value, t', c')
         == QtyOf(stock, t', c') - (if t' == t && c' == c then q else 0)
  {
    var i := FirstIndex(stock, Matches(t, c)).value;
    var r := Withdrawn(stock, t, c, q, now).value;
    SumIntUpdate(stock, i, r[i], Masked(Matches(t', c'), EntryQty));
  }

  /** A successful removal keeps one entry per key and leaves the entry it drew from non-negative. */
  lemma WithdrawnInvariant(stock: seq<SaddleEntry>, t: string, c: string, q: int, now: int)
    requires Withdrawn(stock, t, c, q, now).Some?
    ensures var r := Withdrawn(stock, t, c, q, now).value;
      && |r| == |stock|
      && (DistinctKeys(stock) ==> DistinctKeys(r))
      && (forall j :: 0 <= j < |stock| ==> r[j].quantity >= (if stock[j].quantity >= 0 then 0 else stock[j].quantity))
  {
  }

  function InStock(e: SaddleEntry): bool { e.quantity > 0 }

  /** The saddles of key `k` held in entries with a positive quantity. */
  function PositiveQtyFor(k: SaddleKey): SaddleEntry -> int
  {
    Masked(InStock, CountIn(EntryKey, EntryQty, k))
  }

  /** `get_stock_summary`'s dictionary: positive entries summed per (type, colour), first seen first. */
  function SummaryBuckets(stock: seq<SaddleEntry>): seq<Bucket<SaddleKey>>
  {
    Tally(Filter(stock, InStock), EntryKey, EntryQty, EntryQty)
  }

  function RowOf(b: Bucket<SaddleKey>): SummaryRow
  {
    SummaryRow(b.key.saddleType, b.key.colour, b.count)
  }

  function StockSummary(stock: seq<SaddleEntry>): (rows: seq<SummaryRow>)
    ensures |rows| == |SummaryBuckets(stock)|
  {
    var bs := SummaryBuckets(stock);
    seq(|bs|, i requires 0 <= i < |bs| => RowOf(bs[i]))
  }

  /** The summary has one row per (type, colour) that has an entry with a positive quantity. */
  lemma StockSummaryKeys(stock: seq<SaddleEntry>, k: SaddleKey)
    ensures UniqueKeys(SummaryBuckets(stock))
    ensures k in Keys(SummaryBuckets(stock)) <==>
      exists i :: 0 <= i < |stock| && EntryKey(stock[i]) == k && stock[i].quantity > 0
  {
    var pos := Filter(stock, InStock);
    FilterMembers(stock, InStock);
    TallyKeys(pos, EntryKey, EntryQty, EntryQty);
    if exists i :: 0 <= i < |pos| && EntryKey(pos[i]) == k {
      var i :| 0 <= i < |pos| && EntryKey(pos[i]) == k;
      assert pos[i] in stock;
    }
    if exists i :: 0 <= i < |stock| && EntryKey(stock[i]) == k && stock[i].quantity > 0 {
      var i :| 0 <= i < |stock| && EntryKey(stock[i]) == k && stock[i].quantity > 0;
      assert stock[i] in pos;
    }
  }

  /** Each summary row holds the sum of the positive quantities of its (type, colour). */
  lemma StockSummaryCounts(stock: seq<SaddleEntry>, k: SaddleKey)
    ensures CountOf(SummaryBuckets(stock), k) == SumInt(stock, PositiveQtyFor(k))
  {
    var pos := Filter(stock, InStock);
    TallyLookup(pos, EntryKey, EntryQty, EntryQty, k);
    SumIntFilter(stock, InStock, CountIn(EntryKey, EntryQty, k));
  }

  /** `get_available_coils`: coils of the type (any type when empty) with material left. */
  function Available(t: string): Coil -> bool
  {
    (c: Coil) => (t == "" || c.saddleType == t) && c.currentWeightKg > 0.0
  }

  /** `get_saddle_stock`: entries of the type and colour (each empty matches all) with saddles in them. */
  function OnShelf(t: string, c: string): SaddleEntry -> bool
  {
    (e: SaddleEntry) => (t == "" || e.saddleType == t) && (c == "" || e.colour == c) && e.quantity > 0
  }

  // ---------------------------------------------------------------------
  // The ledger
  // ---------------------------------------------------------------------

  class SaddleManager {
    const config: SaddleConfig
    var coils: seq<Coil>
    var stock: seq<SaddleEntry>
    var productionHistory: seq<ProductionRecord>
    var usageHistory: seq<SaddleUsage>

    constructor (config: SaddleConfig, coils: seq<Coil>, stock: seq<SaddleEntry>,
                 productionHistory: seq<ProductionRecord>, usageHistory: seq<SaddleUsage>)
      ensures this.config == config && this.coils == coils && this.stock == stock
      ensures this.productionHistory == productionHistory && this.usageHistory == usageHistory
    {
      this.config := config;
      this.coils := coils;
      this.stock := stock;
      this.productionHistory := productionHistory;
      this.usageHistory := usageHistory;
    }

    /** `add_coil`: a full coil "in_stock", with the yield its whole weight is expected to give. */
    method AddCoil(id: string, saddleType: string, colour: string, weightKg: real, supplier: string,
                   receivedDate: string, notes: string, now: int) returns (entry: Coil)
      modifies this
      ensures entry.initialWeightKg == weightKg && entry.currentWeightKg == weightKg
      ensures entry.status == "in_stock"
      ensures entry.estimatedYield == ExpectedOutput(weightKg, TypeYield(config, saddleType))
      ensures entry == Coil(id, saddleType, colour, weightKg, weightKg, entry.estimatedYield, "in_stock",
                            supplier, receivedDate, notes, now)
      ensures coils == old(coils) + [entry]
      ensures stock == old(stock) && productionHistory == old(productionHistory) && usageHistory == old(usageHistory)
    {
      var estimatedYield := ExpectedOutput(weightKg, TypeYield(config, saddleType));
      entry := Coil(id, saddleType, colour, weightKg, weightKg, estimatedYield, "in_stock",
                    supplier, receivedDate, notes, now);
      coils := coils + [entry];
    }

    /** `get_available_coils`. */
    method GetAvailableCoils(saddleType: string) returns (r: seq<Coil>)
      ensures r == Filter(coils, Available(saddleType))
      ensures forall c :: c in r <==> c in coils && (saddleType == "" || c.saddleType == saddleType)
                                       && c.currentWeightKg > 0.0
    {
      r := [];
      var i := 0;
      while i < |coils|
        invariant 0 <= i <= |coils|
        invariant r == Filter(coils[..i], Available(saddleType))
      {
        assert coils[..i + 1][..i] == coils[..i];
        if Available(saddleType)(coils[i]) {
          r := r + [coils[i]];
        }
        i := i + 1;
      }
      assert coils[..i] == coils;
      FilterMembers(coils, Available(saddleType));
    }

    /**
     * `log_production`: fails, changing nothing, for an unknown coil or a
     * run heavier than what is left on it; otherwise the coil loses the
     * weight, the run is recorded and its saddles go into stock.
     */
    method LogProduction(coilId: string, weightUsedKg: real, saddlesProduced: Option<int>,
                         operator: string, notes: string, recordId: string, stockId: string, now: int)
      returns (r: Result<ProductionRecord, ProductionError>)
      modifies this
      ensures match FirstIndex(old(coils), IsCoil(coilId))
        case None =>
          && r == Err(CoilNotFound(coilId))
          && coils == old(coils) && stock == old(stock) && productionHistory == old(productionHistory)
        case Some(i) =>
          var coil := old(coils)[i];
          var y := TypeYield(config, coil.saddleType);
          if weightUsedKg > coil.currentWeightKg then
            && r == Err(InsufficientMaterial(coil.currentWeightKg, weightUsedKg))
            && coils == old(coils) && stock == old(stock) && productionHistory == old(productionHistory)
          else
            var expected := ExpectedOutput(weightUsedKg, y);
            var produced := saddlesProduced.GetOr(expected);
            && r.Ok?
            && r.value == ProductionRecord(recordId, now, coilId, coil.saddleType, coil.colour, weightUsedKg,
                                           Round(UsableKg(weightUsedKg, y), 2), Round(WasteKg(weightUsedKg, y), 2),
                                           expected, produced, operator, notes)
            && coils == old(coils)[i := Drawn(coil, weightUsedKg)]
            && productionHistory == old(productionHistory) + [r.value]
            && stock == Stocked(old(stock), coil.saddleType, coil.colour, produced, "production", stockId, now)
      ensures usageHistory == old(usageHistory)
    {
      var i := 0;
      while i < |coils|
        invariant 0 <= i <= |coils|
        invariant forall j :: 0 <= j < i ==> !IsCoil(coilId)(coils[j])
      {
        if coils[i].id == coilId {
          break;
        }
        i := i + 1;
      }
      if i == |coils| {
        assert FirstIndex(coils, IsCoil(coilId)).None?;
        return Err(CoilNotFound(coilId));
      }
      assert FirstIndex(coils, IsCoil(coilId)) == Some(i);
      var coil := coils[i];
      if weightUsedKg > coil.currentWeightKg {
        return Err(InsufficientMaterial(coil.currentWeightKg, weightUsedKg));
      }
      var y := TypeYield(config, coil.saddleType);
      var usableKg := UsableKg(weightUsedKg, y);
      var wasteKg := WasteKg(weightUsedKg, y);
      var expectedSaddles := ExpectedOutput(weightUsedKg, y);
      var produced := if saddlesProduced.None? then expectedSaddles else saddlesProduced.value;

      var remainingKg := coil.currentWeightKg - weightUsedKg;
      var status := if remainingKg <= 0.0 then "depleted" else "in_use";
      coils := coils[i := coil.(currentWeightKg := remainingKg, status := status)];
      assert coils[i] == Drawn(coil, weightUsedKg);

      var record := ProductionRecord(recordId, now, coilId, coil.saddleType, coil.colour, weightUsedKg,
                                     Round(usableKg, 2), Round(wasteKg, 2), expectedSaddles, produced,
                                     operator, notes);
      productionHistory := productionHistory + [record];
      AddToStock(coil.saddleType, coil.colour, produced, "production", stockId, now);
      return Ok(record);
    }

    /** `_add_to_stock`. */
    method AddToStock(saddleType: string, colour: string, quantity: int, source: string, newId: string, now: int)
      modifies this
      ensures stock == Stocked(old(stock), saddleType, colour, quantity, source, newId, now)
      ensures coils == old(coils) && productionHistory == old(productionHistory) && usageHistory == old(usageHistory)
    {
      var i := 0;
      while i < |stock|
        invariant 0 <= i <= |stock|
        invariant forall j :: 0 <= j < i ==> !Matches(saddleType, colour)(stock[j])
        invariant stock == old(stock)
      {
        var entry := stock[i];
        if entry.saddleType == saddleType && entry.colour == colour {
          stock := stock[i := entry.(quantity := entry.quantity + quantity, lastUpdated := now)];
          return;
        }
        i := i + 1;
      }
      stock := stock + [SaddleEntry(newId, saddleType, colour, quantity, source, now, now)];
    }

    /** `add_saddles`: adds to stock and returns the key's (first) entry afterwards. */
    method AddSaddles(saddleType: string, colour: string, quantity: int, source: string, newId: string, now: int)
      returns (entry: SaddleEntry)
      modifies this
      ensures stock == Stocked(old(stock), saddleType, colour, quantity, source, newId, now)
      ensures Matches(saddleType, colour)(entry) && entry in stock
      ensures entry.quantity == quantity + match FirstIndex(old(stock), Matches(saddleType, colour))
                                           case None => 0
                                           case Some(i) => old(stock)[i].quantity
      ensures coils == old(coils) && productionHistory == old(productionHistory) && usageHistory == old(usageHistory)
    {
      AddToStock(saddleType, colour, quantity, source, newId, now);
      StockedFirst(old(stock), saddleType, colour, quantity, source, newId, now);
      var i := 0;
      while i < |stock| && !(stock[i].saddleType == saddleType && stock[i].colour == colour)
        invariant 0 <= i <= |stock|
        invariant forall j :: 0 <= j < i ==> !Matches(saddleType, colour)(stock[j])
      {
        i := i + 1;
      }
      entry := stock[i];
    }

    /**
     * `remove_saddles`: false, changing nothing, when the key has no entry
     * or its first entry holds fewer than `quantity`; otherwise that entry
     * loses `quantity` and one usage record is logged.
     */
    method RemoveSaddles(saddleType: string, colour: string, quantity: int, reason: string,
                         orderId: Option<string>, now: int) returns (ok: bool)
      modifies this
      ensures match Withdrawn(old(stock), saddleType, colour, quantity, now)
        case None => !ok && stock == old(stock) && usageHistory == old(usageHistory)
        case Some(s) =>
          && ok && stock == s
          && usageHistory == old(usageHistory) + [SaddleUsage(now, saddleType, colour, quantity, reason, orderId)]
      ensures coils == old(coils) && productionHistory == old(productionHistory)
    {
      var i := 0;
      while i < |stock|
        invariant 0 <= i <= |stock|
        invariant forall j :: 0 <= j < i ==> !Matches(saddleType, colour)(stock[j])
      {
        var entry := stock[i];
        if entry.saddleType == saddleType && entry.colour == colour {
          if entry.quantity < quantity {
            return false;
          }
          stock := stock[i := entry.(quantity := entry.quantity - quantity, lastUpdated := now)];
          usageHistory := usageHistory + [SaddleUsage(now, saddleType, colour, quantity, reason, orderId)];
          return true;
        }
        i := i + 1;
      }
      return false;
    }

    /** `get_saddle_stock`. */
    method GetSaddleStock(saddleType: string, colour: string) returns (r: seq<SaddleEntry>)
      ensures r == Filter(stock, OnShelf(saddleType, colour))
      ensures forall e :: e in r <==> e in stock && (saddleType == "" || e.saddleType == saddleType)
                                      && (colour == "" || e.colour == colour) && e.quantity > 0
    {
      r := [];
      var i := 0;
      while i < |stock|
        invariant 0 <= i <= |stock|
        invariant r == Filter(stock[..i], OnShelf(saddleType, colour))
      {
        assert stock[..i + 1][..i] == stock[..i];
        if OnShelf(saddleType, colour)(stock[i]) {
          r := r + [stock[i]];
        }
        i := i + 1;
      }
      assert stock[..i] == stock;
      FilterMembers(stock, OnShelf(saddleType, colour));
    }

    /** The loop of `get_stock_summary`: positive entries summed per (type, colour). */
    method TallyInStock() returns (buckets: seq<Bucket<SaddleKey>>)
      ensures buckets == SummaryBuckets(stock)
    {
      buckets := [];
      ghost var positive: seq<SaddleEntry> := [];
      var i := 0;
      while i < |stock|
        invariant 0 <= i <= |stock|
        invariant positive == Filter(stock[..i], InStock)
        invariant buckets == Tally(positive, EntryKey, EntryQty, EntryQty)
      {
        assert stock[..i + 1][..i] == stock[..i];
        var entry := stock[i];
        if entry.quantity > 0 {
          TallySnoc(positive, entry, EntryKey, EntryQty, EntryQty);
          buckets := Bump(buckets, SaddleKey(entry.saddleType, entry.colour), entry.quantity, entry.quantity);
          positive := positive + [entry];
        }
        i := i + 1;
      }
      assert stock[..i] == stock;
    }

    /** `get_stock_summary`. */
    method GetStockSummary() returns (rows: seq<SummaryRow>)
      ensures rows == StockSummary(stock)
    {
      var buckets := TallyInStock();
      rows := seq(|buckets|, j requires 0 <= j < |buckets| => RowOf(buckets[j]));
    }
  }
}
