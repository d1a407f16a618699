/**
 * The mesh roll ledger: rolls on the shelf keyed by (mesh type, width in mm,
 * length in metres, colour), the usage log written by removals, roll
 * cutting, and the incoming-order lifecycle (ordered -> received, or
 * cancelled).  Timestamps are integers (seconds); the current time, the
 * current date string and fresh ids are parameters.
 */
module Mesh {
  import opened Builtins
  import opened Collections

  const DaySeconds := 86400

  /** The look-back `get_days_remaining` and the reorder alerts use. */
  const RunwayWindowDays := 180

  /** What tells rolls apart in the ledger. */
  datatype RollKey = RollKey(meshType: string, widthMm: int, lengthM: int, colour: string)

  /** One inventory entry: `quantity` rolls of the same key. */
  datatype Roll = Roll(
    id: string, key: RollKey, quantity: int, receivedDate: string,
    location: string, notes: string, createdAt: int)

  /**
   * How a stored ISO date reads back through `datetime.fromisoformat`:
   * `Zoned` when the text carries a UTC designator ("Z", which the parser
   * is handed as "+00:00", or an explicit offset), giving an offset-aware
   * datetime; `Naive` otherwise.
   */
  datatype DateForm = Naive | Zoned

  datatype UsageRecord = UsageRecord(
    date: int, form: DateForm, key: RollKey, quantity: int, reason: string, orderId: Option<string>)

  /** The fields every usage record of one removal shares. */
  datatype UsageStamp = UsageStamp(date: int, reason: string, orderId: Option<string>)

  datatype IncomingOrder = IncomingOrder(
    id: string, key: RollKey, quantity: int, orderDate: string, expectedDelivery: string,
    status: string, createdAt: int, receivedDate: Option<string>)

  datatype CutPiece = CutPiece(widthMm: int, quantity: int, id: string)

  datatype CutRecord = CutRecord(
    id: string, date: int, meshType: string, sourceWidthMm: int, lengthM: int,
    colour: string, result: seq<CutPiece>, operator: string, notes: string)

  /** The three `ValueError`s `cut_roll` raises. */
  datatype CutError =
    | WidthMismatch(totalTarget: int, sourceWidthMm: int)
    | SourceNotInStock(sourceWidthMm: int, lengthM: int, colour: string)
    | RemoveFailed

  datatype MeshTypeConfig = MeshTypeConfig(name: Option<string>, leadTimeMonths: Option<int>)

  datatype Config = Config(alertMonthsStock: real, meshTypes: map<string, MeshTypeConfig>)

  // ---------------------------------------------------------------------
  // Filters of the getters
  // ---------------------------------------------------------------------

  /**
   * The optional arguments of `get_stock_level` and its siblings.  Python
   * skips a test whose argument is falsy, so `""` and `0` (like `None`)
   * match every entry.
   */
  datatype StockFilter = StockFilter(meshType: string, widthMm: int, lengthM: int, colour: string)

  predicate Passes(f: StockFilter, k: RollKey)
  {
    (f.meshType == "" || k.meshType == f.meshType) &&
    (f.widthMm == 0 || k.widthMm == f.widthMm) &&
    (f.lengthM == 0 || k.lengthM == f.lengthM) &&
    (f.colour == "" || k.colour == f.colour)
  }

  /** The filter `get_stock_metres` and the usage getters build: no length test. */
  function MetresFilter(meshType: string, widthMm: int, colour: string): StockFilter
  {
    StockFilter(meshType, widthMm, 0, colour)
  }

  function KeyFilter(k: RollKey): StockFilter
  {
    StockFilter(k.meshType, k.widthMm, k.lengthM, k.colour)
  }

  /** No field of the key is falsy, so filtering on it is an exact match. */
  predicate Truthy(k: RollKey)
  {
    k.meshType != "" && k.widthMm != 0 && k.lengthM != 0 && k.colour != ""
  }

  lemma PassesKeyFilter(k: RollKey, key: RollKey)
    requires Truthy(k)
    ensures Passes(KeyFilter(k), key) <==> key == k
  {
  }

  // ---------------------------------------------------------------------
  // Stock measures
  // ---------------------------------------------------------------------

  function RollQty(r: Roll): int { r.quantity }

  function RollMetres(r: Roll): int { r.quantity * r.key.lengthM }

  function QtyPassing(f: StockFilter): Roll -> int
  {
    (r: Roll) => if Passes(f, r.key) then r.quantity else 0
  }

  function MetresPassing(f: StockFilter): Roll -> int
  {
    (r: Roll) => if Passes(f, r.key) then RollMetres(r) else 0
  }

  /** `get_stock_level`: rolls over the entries that pass the filter. */
  function StockLevel(inv: seq<Roll>, f: StockFilter): int
  {
    SumInt(inv, QtyPassing(f))
  }

  /** `get_stock_metres`: quantity times length over the entries that pass. */
  function StockMetres(inv: seq<Roll>, f: StockFilter): int
  {
    SumInt(inv, MetresPassing(f))
  }

  /** The rolls `remove_roll` can draw on for key `k`: matching entries with a positive quantity. */
  function OnShelfOf(k: RollKey): Roll -> int
  {
    (r: Roll) => if r.key == k && r.quantity > 0 then r.quantity else 0
  }

  function OnShelf(inv: seq<Roll>, k: RollKey): int
  {
    SumInt(inv, OnShelfOf(k))
  }

  predicate InStock(r: Roll) { r.quantity > 0 }

  /** The comprehension that drops every entry whose quantity is not positive. */
  function Prune(inv: seq<Roll>): (r: seq<Roll>)
    ensures forall x :: x in r <==> x in inv && x.quantity > 0
  {
    FilterMembers(inv, InStock);
    Filter(inv, InStock)
  }

  lemma OnShelfNonneg(inv: seq<Roll>, k: RollKey)
    ensures OnShelf(inv, k) >= 0
  {
    SumIntNonneg(inv, OnShelfOf(k));
  }

  /** Pruning loses no stock of any key. */
  lemma PruneOnShelf(inv: seq<Roll>, k: RollKey)
    ensures OnShelf(Prune(inv), k) == OnShelf(inv, k)
  {
    SumIntFilter(inv, InStock, OnShelfOf(k));
    SumIntCongruence(inv, Masked(InStock, OnShelfOf(k)), OnShelfOf(k));
  }

  /**
   * With a key whose fields are all truthy and no entry below zero,
   * `get_stock_level` counts exactly the rolls `remove_roll` can draw on.
   */
  lemma StockLevelIsOnShelf(inv: seq<Roll>, k: RollKey)
    requires Truthy(k)
    requires forall i :: 0 <= i < |inv| ==> inv[i].quantity >= 0
    ensures StockLevel(inv, KeyFilter(k)) == OnShelf(inv, k)
  {
    SumIntCongruence(inv, QtyPassing(KeyFilter(k)), OnShelfOf(k));
  }

  // ---------------------------------------------------------------------
  // remove_roll: the greedy drain
  // ---------------------------------------------------------------------

  datatype Drained = Drained(inv: seq<Roll>, log: seq<UsageRecord>, remaining: int)

  function LoggedQty(u: UsageRecord): int { u.quantity }

  /**
   * The loop of `remove_roll` from entry `i` on: each matching entry with a
   * positive quantity gives `min(quantity, remaining)` and logs one usage
   * record of that amount; the loop stops as soon as nothing remains.
   */
  function DrainFrom(inv: seq<Roll>, i: nat, k: RollKey, rem: int, st: UsageStamp): Drained
    requires i <= |inv|
    decreases |inv| - i
  {
    if i == |inv| then Drained(inv, [], rem)
    else if inv[i].key == k && inv[i].quantity > 0 then
      var d := MinInt(inv[i].quantity, rem);
      var inv' := inv[i := inv[i].(quantity := inv[i].quantity - d)];
      var u := UsageRecord(st.date, Zoned, k, d, st.reason, st.orderId);
      var rest := if rem - d == 0 then Drained(inv', [], 0) else DrainFrom(inv', i + 1, k, rem - d, st);
      Drained(rest.inv, [u] + rest.log, rest.remaining)
    else
      DrainFrom(inv, i + 1, k, rem, st)
  }

  /** One step of the drain at a matching entry with stock. */
  lemma DrainTake(inv: seq<Roll>, i: nat, k: RollKey, rem: int, st: UsageStamp)
    requires i < |inv| && inv[i].key == k && inv[i].quantity > 0
    ensures var d := MinInt(inv[i].quantity, rem);
      var inv' := inv[i := inv[i].(quantity := inv[i].quantity - d)];
      var u := UsageRecord(st.date, Zoned, k, d, st.reason, st.orderId);
      DrainFrom(inv, i, k, rem, st)
        == if rem - d == 0 then Drained(inv', [u], 0)
           else Drained(DrainFrom(inv', i + 1, k, rem - d, st).inv, [u] + DrainFrom(inv', i + 1, k, rem - d, st).log,
                        DrainFrom(inv', i + 1, k, rem - d, st).remaining)
  {
  }

  /** One step of the drain past an entry it does not touch. */
  lemma DrainSkip(inv: seq<Roll>, i: nat, k: RollKey, rem: int, st: UsageStamp)
    requires i < |inv| && !(inv[i].key == k && inv[i].quantity > 0)
    ensures DrainFrom(inv, i, k, rem, st) == DrainFrom(inv, i + 1, k, rem, st)
  {
  }

  /** The loop of `remove_roll`, run over a copy of the inventory. */
  method Drain(inv0: seq<Roll>, key: RollKey, quantity: int, st: UsageStamp) returns (r: Drained)
    ensures r == DrainFrom(inv0, 0, key, quantity, st)
  {
    var inv, logged := inv0, [];
    var remaining := quantity;
    var i := 0;
    while i < |inv|
      invariant 0 <= i <= |inv|
      invariant var d := DrainFrom(inv, i, key, remaining, st);
        DrainFrom(inv0, 0, key, quantity, st) == Drained(d.inv, logged + d.log, d.remaining)
    {
      var entry := inv[i];
      if entry.key == key && entry.quantity > 0 {
        DrainTake(inv, i, key, remaining, st);
        var deduct := MinInt(entry.quantity, remaining);
        inv := inv[i := entry.(quantity := entry.quantity - deduct)];
        remaining := remaining - deduct;
        var usage := UsageRecord(st.date, Zoned, key, deduct, st.reason, st.orderId);
        logged := logged + [usage];
        if remaining == 0 {
          return Drained(inv, logged, 0);
        }
        assert logged + DrainFrom(inv, i + 1, key, remaining, st).log
            == logged[..|logged| - 1] + ([usage] + DrainFrom(inv, i + 1, key, remaining, st).log);
      } else {
        DrainSkip(inv, i, key, remaining, st);
      }
      i := i + 1;
    }
    return Drained(inv, logged, remaining);
  }

  /** A drain changes only quantities, and only of matching entries from `i` on. */
  lemma {:induction false} DrainInvShape(inv: seq<Roll>, i: nat, k: RollKey, rem: int, st: UsageStamp)
    requires i <= |inv|
    ensures var d := DrainFrom(inv, i, k, rem, st);
      && |d.inv| == |inv|
      && (forall j :: 0 <= j < |inv| ==> d.inv[j] == inv[j].(quantity := d.inv[j].quantity))
      && (forall j :: 0 <= j < |inv| && (j < i || inv[j].key != k || inv[j].quantity <= 0) ==> d.inv[j] == inv[j])
    decreases |inv| - i
  {
    if i < |inv| && inv[i].key == k && inv[i].quantity > 0 {
      var q := inv[i].quantity;
      var d := MinInt(q, rem);
      var inv' := inv[i := inv[i].(quantity := q - d)];
      if rem - d != 0 {
        DrainInvShape(inv', i + 1, k, rem - d, st);
      }
    } else if i < |inv| {
      DrainInvShape(inv, i + 1, k, rem, st);
    }
  }

  /** Every record of `log` is of key `k` and carries the stamp `st`. */
  predicate Stamped(log: seq<UsageRecord>, k: RollKey, st: UsageStamp)
  {
    forall j :: 0 <= j < |log| ==> log[j] == UsageRecord(st.date, Zoned, k, log[j].quantity, st.reason, st.orderId)
  }

  /** Every record a drain logs is of key `k` and carries the stamp `st`. */
  lemma {:induction false} DrainLogShape(inv: seq<Roll>, i: nat, k: RollKey, rem: int, st: UsageStamp)
    requires i <= |inv|
    ensures Stamped(DrainFrom(inv, i, k, rem, st).log, k, st)
    decreases |inv| - i
  {
    if i < |inv| && inv[i].key == k && inv[i].quantity > 0 {
      var q := inv[i].quantity;
      var d := MinInt(q, rem);
      var inv' := inv[i := inv[i].(quantity := q - d)];
      var u := UsageRecord(st.date, Zoned, k, d, st.reason, st.orderId);
      if rem - d != 0 {
        DrainLogShape(inv', i + 1, k, rem - d, st);
        var rest := DrainFrom(inv', i + 1, k, rem - d, st);
        var log := [u] + rest.log;
        forall j | 0 <= j < |log|
          ensures log[j] == UsageRecord(st.date, Zoned, k, log[j].quantity, st.reason, st.orderId)
        {
          if j > 0 {
            assert log[j] == rest.log[j - 1];
          }
        }
      }
    } else if i < |inv| {
      DrainLogShape(inv, i + 1, k, rem, st);
    }
  }

  /** A drain changes only quantities, only of matching entries from `i` on, and logs records of key `k`. */
  lemma DrainShape(inv: seq<Roll>, i: nat, k: RollKey, rem: int, st: UsageStamp)
    requires i <= |inv|
    ensures var d := DrainFrom(inv, i, k, rem, st);
      && |d.inv| == |inv|
      && (forall j :: 0 <= j < |inv| ==> d.inv[j] == inv[j].(quantity := d.inv[j].quantity))
      && (forall j :: 0 <= j < |inv| && (j < i || inv[j].key != k || inv[j].quantity <= 0) ==> d.inv[j] == inv[j])
      && (forall j :: 0 <= j < |d.log| ==>
            d.log[j] == UsageRecord(st.date, Zoned, k, d.log[j].quantity, st.reason, st.orderId))
  {
    DrainInvShape(inv, i, k, rem, st);
    DrainLogShape(inv, i, k, rem, st);
  }

  /** Every roll a drain takes off the shelf is logged: stock falls by what the log records. */
  lemma {:induction false} DrainTotals(inv: seq<Roll>, i: nat, k: RollKey, rem: int, st: UsageStamp)
    requires i <= |inv|
    ensures var d := DrainFrom(inv, i, k, rem, st);
      && OnShelf(d.inv, k) == OnShelf(inv, k) - (rem - d.remaining)
      && SumInt(d.log, LoggedQty) == rem - d.remaining
    decreases |inv| - i
  {
    if i < |inv| && inv[i].key == k && inv[i].quantity > 0 {
      var q := inv[i].quantity;
      var d := MinInt(q, rem);
      var inv' := inv[i := inv[i].(quantity := q - d)];
      SumIntUpdate(inv, i, inv'[i], OnShelfOf(k));
      assert OnShelf(inv', k) == OnShelf(inv, k) - d;
      var u := UsageRecord(st.date, Zoned, k, d, st.reason, st.orderId);
      if rem - d == 0 {
        assert [u] + [] == [u];
        assert [u][..0] == [];
      } else {
        DrainTotals(inv', i + 1, k, rem - d, st);
        SumIntCons(u, DrainFrom(inv', i + 1, k, rem - d, st).log, LoggedQty);
      }
    } else if i < |inv| {
      DrainTotals(inv, i + 1, k, rem, st);
    }
  }

  /** A drain of a non-negative amount leaves between 0 and that much, and leaves something only when every matching entry is empty. */
  lemma {:induction false} DrainRemaining(inv: seq<Roll>, i: nat, k: RollKey, rem: int, st: UsageStamp)
    requires i <= |inv|
    ensures var d := DrainFrom(inv, i, k, rem, st);
      && |d.inv| == |inv|
      && (0 <= rem ==> 0 <= d.remaining <= rem)
      && (d.remaining > 0 ==> forall j :: i <= j < |inv| && inv[j].key == k ==> d.inv[j].quantity <= 0)
    decreases |inv| - i
  {
    DrainInvShape(inv, i, k, rem, st);
    if i < |inv| && inv[i].key == k && inv[i].quantity > 0 {
      var q := inv[i].quantity;
      var d := MinInt(q, rem);
      var inv' := inv[i := inv[i].(quantity := q - d)];
      if rem - d != 0 {
        DrainRemaining(inv', i + 1, k, rem - d, st);
        DrainInvShape(inv', i + 1, k, rem - d, st);
      }
    } else if i < |inv| {
      DrainRemaining(inv, i + 1, k, rem, st);
      DrainInvShape(inv, i + 1, k, rem, st);
    }
  }

  /**
   * `remove_roll` with a non-negative quantity `q` succeeds exactly when the
   * matching stock covers `q`.  On success the matching stock falls by
   * exactly `q`, the logged quantities add up to `q` and no other key's stock
   * moves; on failure every matching entry has been drained to zero and the
   * log holds all of it.
   */
  lemma RemoveRollOutcome(inv: seq<Roll>, k: RollKey, q: int, st: UsageStamp)
    requires 0 <= q
    ensures var d := DrainFrom(inv, 0, k, q, st);
      && (d.remaining <= 0 <==> q <= OnShelf(inv, k))
      && (d.remaining <= 0 ==>
            OnShelf(Prune(d.inv), k) == OnShelf(inv, k) - q && SumInt(d.log, LoggedQty) == q)
      && (d.remaining > 0 ==>
            OnShelf(d.inv, k) == 0 && SumInt(d.log, LoggedQty) == OnShelf(inv, k))
  {
    var d := DrainFrom(inv, 0, k, q, st);
    DrainShape(inv, 0, k, q, st);
    DrainTotals(inv, 0, k, q, st);
    DrainRemaining(inv, 0, k, q, st);
    OnShelfNonneg(d.inv, k);
    PruneOnShelf(d.inv, k);
    if d.remaining > 0 {
      SumIntZero(d.inv, OnShelfOf(k));
    }
  }

  /** A removal moves no stock but its own key's, drained or pruned. */
  lemma RemoveRollOtherKeys(inv: seq<Roll>, k: RollKey, q: int, st: UsageStamp, other: RollKey)
    requires other != k
    ensures OnShelf(DrainFrom(inv, 0, k, q, st).inv, other) == OnShelf(inv, other)
    ensures OnShelf(Prune(DrainFrom(inv, 0, k, q, st).inv), other) == OnShelf(inv, other)
  {
    var d := DrainFrom(inv, 0, k, q, st);
    DrainShape(inv, 0, k, q, st);
    SumIntPointwise(d.inv, inv, OnShelfOf(other));
    PruneOnShelf(d.inv, other);
  }

  // ---------------------------------------------------------------------
  // add_roll
  // ---------------------------------------------------------------------

  /** An appended roll adds its quantity to every filter and key it matches, and nothing else. */
  lemma AddRollStock(inv: seq<Roll>, r: Roll, f: StockFilter, k: RollKey)
    ensures StockLevel(inv + [r], f) == StockLevel(inv, f) + (if Passes(f, r.key) then r.quantity else 0)
    ensures StockMetres(inv + [r], f) == StockMetres(inv, f) + (if Passes(f, r.key) then RollMetres(r) else 0)
    ensures OnShelf(inv + [r], k) == OnShelf(inv, k) + (if r.key == k && r.quantity > 0 then r.quantity else 0)
  {
    assert (inv + [r])[..|inv|] == inv;
  }

  // ---------------------------------------------------------------------
  // Group summaries
  // ---------------------------------------------------------------------

  function RollKeyOf(r: Roll): RollKey { r.key }

  /** `get_inventory_summary`: one row per key, in first-seen order, with its rolls (count) and metres (total). */
  function InventorySummary(inv: seq<Roll>): seq<Bucket<RollKey>>
  {
    Tally(inv, RollKeyOf, RollQty, RollMetres)
  }

  /** Each summary row holds exactly the stock level and metres of its key, and every key appears once. */
  lemma InventorySummaryRows(inv: seq<Roll>, k: RollKey)
    requires Truthy(k)
    ensures UniqueKeys(InventorySummary(inv))
    ensures k in Keys(InventorySummary(inv)) <==> exists i :: 0 <= i < |inv| && inv[i].key == k
    ensures CountOf(InventorySummary(inv), k) == StockLevel(inv, KeyFilter(k))
    ensures TotalOf(InventorySummary(inv), k) == StockMetres(inv, KeyFilter(k))
  {
    TallyKeys(inv, RollKeyOf, RollQty, RollMetres);
    TallyLookup(inv, RollKeyOf, RollQty, RollMetres, k);
    forall i | 0 <= i < |inv|
      ensures CountIn(RollKeyOf, RollQty, k)(inv[i]) == QtyPassing(KeyFilter(k))(inv[i])
      ensures TotalIn(RollKeyOf, RollMetres, k)(inv[i]) == MetresPassing(KeyFilter(k))(inv[i])
    {
      PassesKeyFilter(k, inv[i].key);
      assert RollKeyOf(inv[i]) == inv[i].key && RollQty(inv[i]) == inv[i].quantity;
    }
    SumIntCongruence(inv, CountIn(RollKeyOf, RollQty, k), QtyPassing(KeyFilter(k)));
    SumIntCongruence(inv, TotalIn(RollKeyOf, RollMetres, k), MetresPassing(KeyFilter(k)));
  }

  // ---------------------------------------------------------------------
  // Usage and runway
  // ---------------------------------------------------------------------

  function InWindowOf(cutoff: int): UsageRecord -> bool
  {
    (u: UsageRecord) => u.date >= cutoff
  }

  /**
   * `get_usage(days)` as intended: the usage records dated at or after
   * `now - days`, every date compared as a UTC instant whatever its form.
   */
  function Windowed(usage: seq<UsageRecord>, now: int, days: int): seq<UsageRecord>
  {
    Filter(usage, InWindowOf(now - days * DaySeconds))
  }

  /**
   * The intended window never raises: a record is in it exactly when it is
   * in the history and its instant is at or after the cutoff, whatever the
   * form of its date.
   */
  lemma WindowedByInstant(usage: seq<UsageRecord>, now: int, days: int)
    ensures forall u :: u in Windowed(usage, now, days) <==> u in usage && u.date >= now - days * DaySeconds
  {
    FilterMembers(usage, InWindowOf(now - days * DaySeconds));
  }

  /** Python's `TypeError: can't compare offset-naive and offset-aware datetimes`. */
  datatype DateError = NaiveAwareComparison

  /**
   * The loop of `get_usage` as written, over the first records of the
   * history: it parses each date to an offset-aware datetime when the date
   * is zoned and compares it with the naive `utcnow() - timedelta(days)`,
   * which raises for the first zoned record it meets.
   */
  function UsageAsWritten(usage: seq<UsageRecord>, now: int, days: int): (r: Result<seq<UsageRecord>, DateError>)
    ensures r.Err? <==> exists i :: 0 <= i < |usage| && usage[i].form == Zoned
    ensures r.Ok? ==> r.value == Windowed(usage, now, days)
  {
    if usage == [] then Ok([])
    else
      var u := usage[|usage| - 1];
      match UsageAsWritten(usage[..|usage| - 1], now, days)
      case Err(e) => Err(e)
      case Ok(w) =>
        if u.form == Zoned then Err(NaiveAwareComparison)
        else Ok(w + if u.date >= now - days * DaySeconds then [u] else [])
  }

  /**
   * Once `remove_roll` has logged a record (dated `utcnow().isoformat() + "Z"`),
   * `get_usage` as written raises on every later call, whatever the window.
   */
  lemma RemovalBreaksUsage(inv: seq<Roll>, k: RollKey, q: int, st: UsageStamp,
                           history: seq<UsageRecord>, now: int, days: int)
    ensures var d := DrainFrom(inv, 0, k, q, st);
      |d.log| > 0 ==> UsageAsWritten(history + d.log, now, days).Err?
  {
    var d := DrainFrom(inv, 0, k, q, st);
    DrainLogShape(inv, 0, k, q, st);
    if |d.log| > 0 {
      assert (history + d.log)[|history|] == d.log[0];
    }
  }

  /**
   * One record dated "2025-01-01T00:00:00Z" and a 30-day window that holds
   * it: the written loop raises, the intended window returns the record.
   */
  lemma ZoneDatedRecordRaises(k: RollKey)
    ensures var u := UsageRecord(1735689600, Zoned, k, 1, "sale", None);
      && UsageAsWritten([u], 1735689600, 30) == Err(NaiveAwareComparison)
      && Windowed([u], 1735689600, 30) == [u]
  {
    var u := UsageRecord(1735689600, Zoned, k, 1, "sale", None);
    assert [u][0].form == Zoned;
    assert [u][..0] == [];
  }

  function UsedMetresPassing(f: StockFilter): UsageRecord -> int
  {
    (u: UsageRecord) => if Passes(f, u.key) then u.quantity * u.key.lengthM else 0
  }

  /** `get_average_daily_usage`: metres used in the window per day, 0 when `days` is not positive. */
  function AverageDailyUsage(usage: seq<UsageRecord>, f: StockFilter, now: int, days: int): real
  {
    if days > 0 then SumInt(Windowed(usage, now, days), UsedMetresPassing(f)) as real / days as real
    else 0.0
  }

  /** `get_days_remaining`; `None` stands for `float("inf")`, returned when the daily usage is 0. */
  function DaysRemaining(inv: seq<Roll>, usage: seq<UsageRecord>, f: StockFilter, now: int): Option<real>
  {
    var daily := AverageDailyUsage(usage, f, now, RunwayWindowDays);
    if daily == 0.0 then None else Some(StockMetres(inv, f) as real / daily)
  }

  function MonthsRemaining(inv: seq<Roll>, usage: seq<UsageRecord>, f: StockFilter, now: int): Option<real>
  {
    match DaysRemaining(inv, usage, f, now)
    case None => None
    case Some(d) => Some(d / 30.0)
  }

  /**
   * The daily rate counts a usage record exactly when it is inside the
   * window and passes the filter; records older than the cutoff never count.
   */
  lemma AverageDailyUsageWindow(usage: seq<UsageRecord>, f: StockFilter, now: int, days: int)
    requires days > 0
    ensures AverageDailyUsage(usage, f, now, days) * days as real
      == SumInt(usage, Masked(InWindowOf(now - days * DaySeconds), UsedMetresPassing(f))) as real
  {
    SumIntFilter(usage, InWindowOf(now - days * DaySeconds), UsedMetresPassing(f));
  }

  /**
   * The runway is infinite exactly when nothing was used; with stock and
   * usage that are not negative it is never negative, and months are days / 30.
   */
  lemma RunwayMeaning(inv: seq<Roll>, usage: seq<UsageRecord>, f: StockFilter, now: int)
    requires forall i :: 0 <= i < |inv| ==> inv[i].quantity >= 0 && inv[i].key.lengthM >= 0
    requires forall i :: 0 <= i < |usage| ==> usage[i].quantity >= 0 && usage[i].key.lengthM >= 0
    ensures DaysRemaining(inv, usage, f, now).None? <==> AverageDailyUsage(usage, f, now, RunwayWindowDays) == 0.0
    ensures DaysRemaining(inv, usage, f, now).Some? ==> DaysRemaining(inv, usage, f, now).value >= 0.0
    ensures MonthsRemaining(inv, usage, f, now).Some? <==> DaysRemaining(inv, usage, f, now).Some?
    ensures MonthsRemaining(inv, usage, f, now).Some? ==>
      MonthsRemaining(inv, usage, f, now).value * 30.0 == DaysRemaining(inv, usage, f, now).value
  {
    var w := Windowed(usage, now, RunwayWindowDays);
    FilterMembers(usage, InWindowOf(now - RunwayWindowDays * DaySeconds));
    forall i | 0 <= i < |inv| ensures MetresPassing(f)(inv[i]) >= 0 {
      assert inv[i].quantity * inv[i].key.lengthM >= 0;
    }
    SumIntNonneg(inv, MetresPassing(f));
    forall i | 0 <= i < |w| ensures UsedMetresPassing(f)(w[i]) >= 0 {
      assert w[i] in usage;
      var j :| 0 <= j < |usage| && usage[j] == w[i];
      assert w[i].quantity * w[i].key.lengthM >= 0;
    }
    SumIntNonneg(w, UsedMetresPassing(f));
  }

  // ---------------------------------------------------------------------
  // Reorder alerts
  // ---------------------------------------------------------------------

  datatype GroupKey = GroupKey(meshType: string, widthMm: int, colour: string)

  function GroupOf(r: Roll): GroupKey
  {
    GroupKey(r.key.meshType, r.key.widthMm, r.key.colour)
  }

  datatype Alert = Alert(
    meshType: string, meshName: string, widthMm: int, colour: string, currentMetres: int,
    monthsRemaining: real, leadTimeMonths: int, urgency: string)

  /** The months of stock left for one (type, width, colour) group; `None` is infinite. */
  function GroupMonths(inv: seq<Roll>, usage: seq<UsageRecord>, now: int, g: GroupKey): Option<real>
  {
    MonthsRemaining(inv, usage, MetresFilter(g.meshType, g.widthMm, g.colour), now)
  }

  /** The alert one group raises, if any. */
  function AlertFor(cfg: Config, inv: seq<Roll>, usage: seq<UsageRecord>, now: int, b: Bucket<GroupKey>): (a: Option<Alert>)
    ensures var m := GroupMonths(inv, usage, now, b.key);
      && (a.Some? <==> m.Some? && m.value < cfg.alertMonthsStock)
      && (a.Some? ==>
            && a.value.meshType == b.key.meshType && a.value.widthMm == b.key.widthMm
            && a.value.colour == b.key.colour && a.value.currentMetres == b.total
            && a.value.monthsRemaining == Round(m.value, 1)
            && (a.value.urgency == "HIGH" <==> m.value < 4.0)
            && (a.value.urgency == "HIGH" || a.value.urgency == "MEDIUM"))
  {
    var m := GroupMonths(inv, usage, now, b.key);
    if m.Some? && m.value < cfg.alertMonthsStock then
      var mc := if b.key.meshType in cfg.meshTypes then cfg.meshTypes[b.key.meshType] else MeshTypeConfig(None, None);
      Some(Alert(
        b.key.meshType, mc.name.GetOr(b.key.meshType), b.key.widthMm, b.key.colour, b.total,
        Round(m.value, 1), mc.leadTimeMonths.GetOr(4), if m.value < 4.0 then "HIGH" else "MEDIUM"))
    else None
  }

  /** The alerts of the groups `gs`, in group order (before sorting). */
  function AlertsOf(cfg: Config, inv: seq<Roll>, usage: seq<UsageRecord>, now: int, gs: seq<Bucket<GroupKey>>): seq<Alert>
  {
    if gs == [] then []
    else
      var a := AlertFor(cfg, inv, usage, now, gs[|gs| - 1]);
      AlertsOf(cfg, inv, usage, now, gs[..|gs| - 1]) + (if a.Some? then [a.value] else [])
  }

  predicate ByMonths(a: Alert, b: Alert) { a.monthsRemaining <= b.monthsRemaining }

  /** The groups of `get_reorder_alerts`: metres per (type, width, colour). */
  function AlertGroups(inv: seq<Roll>): seq<Bucket<GroupKey>>
  {
    Tally(inv, GroupOf, RollQty, RollMetres)
  }

  /** Exactly the groups that raise an alert appear, each as its own alert. */
  lemma {:induction false} AlertsOfExact(cfg: Config, inv: seq<Roll>, usage: seq<UsageRecord>, now: int, gs: seq<Bucket<GroupKey>>, a: Alert)
    ensures a in AlertsOf(cfg, inv, usage, now, gs) <==>
      exists i :: 0 <= i < |gs| && AlertFor(cfg, inv, usage, now, gs[i]) == Some(a)
  {
    if gs != [] {
      var init := gs[..|gs| - 1];
      AlertsOfExact(cfg, inv, usage, now, init, a);
      var last := AlertFor(cfg, inv, usage, now, gs[|gs| - 1]);
      assert AlertsOf(cfg, inv, usage, now, gs)
          == AlertsOf(cfg, inv, usage, now, init) + (if last.Some? then [last.value] else []);
      if exists i :: 0 <= i < |init| && AlertFor(cfg, inv, usage, now, init[i]) == Some(a) {
        var i :| 0 <= i < |init| && AlertFor(cfg, inv, usage, now, init[i]) == Some(a);
        assert gs[i] == init[i];
      }
      if exists i :: 0 <= i < |gs| && AlertFor(cfg, inv, usage, now, gs[i]) == Some(a) {
        var i :| 0 <= i < |gs| && AlertFor(cfg, inv, usage, now, gs[i]) == Some(a);
        if i < |init| {
          assert init[i] == gs[i];
        }
      }
    }
  }

  lemma ByMonthsTotalPreorder()
    ensures TotalPreorder(ByMonths)
  {
  }

  /**
   * `get_reorder_alerts` lists, ascending by rounded months, one alert for
   * each group with a finite runway under the threshold, and nothing else.
   */
  lemma ReorderAlertsSpec(cfg: Config, inv: seq<Roll>, usage: seq<UsageRecord>, now: int, a: Alert)
    ensures var r := SortBy(AlertsOf(cfg, inv, usage, now, AlertGroups(inv)), ByMonths);
      && SortedBy(r, ByMonths)
      && (a in r <==> exists i :: 0 <= i < |AlertGroups(inv)| && AlertFor(cfg, inv, usage, now, AlertGroups(inv)[i]) == Some(a))
  {
    var alerts := AlertsOf(cfg, inv, usage, now, AlertGroups(inv));
    ByMonthsTotalPreorder();
    SortBySorted(alerts, ByMonths);
    AlertsOfExact(cfg, inv, usage, now, AlertGroups(inv), a);
    assert a in SortBy(alerts, ByMonths) <==> a in multiset(SortBy(alerts, ByMonths));
  }

  // ---------------------------------------------------------------------
  // Cutting
  // ---------------------------------------------------------------------

  datatype CutOption = CutOption(caption: string, widths: seq<int>)

  function Width(w: int): int { w }

  function One(w: int): int { 1 }

  /** `get_cutting_options`: the presets for 1000, 500 and 750 mm rolls; none for any other width. */
  function CuttingOptions(sourceWidthMm: int): (opts: seq<CutOption>)
    ensures sourceWidthMm != 1000 && sourceWidthMm != 500 && sourceWidthMm != 750 ==> opts == []
  {
    if sourceWidthMm == 1000 then
      [ CutOption("4x 250mm", [250, 250, 250, 250]),
        CutOption("2x 500mm", [500, 500]),
        CutOption("1x 500mm + 2x 250mm", [500, 250, 250]),
        CutOption("1x 750mm + 1x 250mm", [750, 250]) ]
    else if sourceWidthMm == 500 then
      [ CutOption("2x 250mm", [250, 250]) ]
    else if sourceWidthMm == 750 then
      [ CutOption("3x 250mm", [250, 250, 250]),
        CutOption("1x 500mm + 1x 250mm", [500, 250]) ]
    else []
  }

  /** Every preset uses up exactly the source width, so `cut_roll` accepts it. */
  lemma CuttingOptionsSum(sourceWidthMm: int, i: int)
    requires 0 <= i < |CuttingOptions(sourceWidthMm)|
    ensures SumInt(CuttingOptions(sourceWidthMm)[i].widths, Width) == sourceWidthMm
  {
    var w := CuttingOptions(sourceWidthMm)[i].widths;
    assert 2 <= |w| <= 4;
    SumIntPrefix(w, 1, Width);
    SumIntPrefix(w, 2, Width);
    if |w| > 2 {
      SumIntPrefix(w, 3, Width);
    }
    if |w| > 3 {
      SumIntPrefix(w, 4, Width);
    }
    assert w[..|w|] == w;
  }

  function CutNotes(sourceWidthMm: int): string
  {
    "Cut from " + IntToString(sourceWidthMm) + "mm roll"
  }

  /** How many times `w` occurs among the target widths. */
  function Occurrences(widths: seq<int>, w: int): int
  {
    SumInt(widths, CountIn(Width, One, w))
  }

  /** `width_counts`: each distinct target width with its count, in first-seen order. */
  function WidthCounts(widths: seq<int>): seq<Bucket<int>>
  {
    Tally(widths, Width, One, One)
  }

  /** The rolls `cut_roll` adds, one `add_roll` per distinct width; the `j`-th gets id `rollId(j)`. */
  function CutRolls(counts: seq<Bucket<int>>, meshType: string, lengthM: int, colour: string,
                    notes: string, today: string, now: int, rollId: int -> string): seq<Roll>
  {
    if counts == [] then []
    else
      var j := |counts| - 1;
      CutRolls(counts[..j], meshType, lengthM, colour, notes, today, now, rollId)
        + [Roll(rollId(j), RollKey(meshType, counts[j].key, lengthM, colour), counts[j].count,
                today, "Warehouse", notes, now)]
  }

  function CutPieces(counts: seq<Bucket<int>>, rollId: int -> string): seq<CutPiece>
  {
    if counts == [] then []
    else
      var j := |counts| - 1;
      CutPieces(counts[..j], rollId) + [CutPiece(counts[j].key, counts[j].count, rollId(j))]
  }

  function PositiveCountFor(w: int): Bucket<int> -> int
  {
    (b: Bucket<int>) => if b.key == w && b.count > 0 then b.count else 0
  }

  lemma {:induction false} CutRollsOnShelf(counts: seq<Bucket<int>>, meshType: string, lengthM: int, colour: string,
                                           notes: string, today: string, now: int, rollId: int -> string, w: int)
    ensures OnShelf(CutRolls(counts, meshType, lengthM, colour, notes, today, now, rollId), RollKey(meshType, w, lengthM, colour))
      == SumInt(counts, PositiveCountFor(w))
  {
    if counts != [] {
      var j := |counts| - 1;
      var init := CutRolls(counts[..j], meshType, lengthM, colour, notes, today, now, rollId);
      var r := Roll(rollId(j), RollKey(meshType, counts[j].key, lengthM, colour), counts[j].count, today, "Warehouse", notes, now);
      CutRollsOnShelf(counts[..j], meshType, lengthM, colour, notes, today, now, rollId, w);
      AddRollStock(init, r, KeyFilter(r.key), RollKey(meshType, w, lengthM, colour));
    }
  }

  /** A width's bucket in `width_counts` holds its number of occurrences, and every bucket is positive. */
  lemma {:induction false} WidthCountsPositive(widths: seq<int>)
    ensures forall i :: 0 <= i < |WidthCounts(widths)| ==> WidthCounts(widths)[i].count > 0
  {
    if widths != [] {
      var init := widths[..|widths| - 1];
      WidthCountsPositive(init);
      BumpPositive(WidthCounts(init), widths[|widths| - 1]);
    }
  }

  lemma {:induction false} BumpPositive(t: seq<Bucket<int>>, w: int)
    requires forall i :: 0 <= i < |t| ==> t[i].count > 0
    ensures forall i :: 0 <= i < |Bump(t, w, 1, 1)| ==> Bump(t, w, 1, 1)[i].count > 0
  {
    if t != [] && t[0].key != w {
      BumpPositive(t[1..], w);
      var r := Bump(t, w, 1, 1);
      forall i | 0 <= i < |r| ensures r[i].count > 0 {
        if i > 0 {
          assert r[i] == Bump(t[1..], w, 1, 1)[i - 1];
        }
      }
    }
  }

  lemma {:induction false} PositiveCountIsCountOf(t: seq<Bucket<int>>, w: int)
    requires forall i :: 0 <= i < |t| ==> t[i].count > 0
    requires UniqueKeys(t)
    ensures SumInt(t, PositiveCountFor(w)) == CountOf(t, w)
  {
    if t != [] {
      assert t == [t[0]] + t[1..];
      SumIntCons(t[0], t[1..], PositiveCountFor(w));
      PositiveCountIsCountOf(t[1..], w);
      if t[0].key == w {
        forall i | 0 <= i < |t[1..]| ensures PositiveCountFor(w)(t[1..][i]) == 0 {
          assert t[1..][i] == t[i + 1];
        }
        SumIntZero(t[1..], PositiveCountFor(w));
      }
    }
  }

  /** The rolls a cut adds hold, for each width, exactly its number of occurrences among the targets. */
  lemma CutRollsStock(widths: seq<int>, meshType: string, lengthM: int, colour: string,
                      notes: string, today: string, now: int, rollId: int -> string, w: int)
    ensures OnShelf(CutRolls(WidthCounts(widths), meshType, lengthM, colour, notes, today, now, rollId),
                    RollKey(meshType, w, lengthM, colour)) == Occurrences(widths, w)
  {
    var t := WidthCounts(widths);
    CutRollsOnShelf(t, meshType, lengthM, colour, notes, today, now, rollId, w);
    WidthCountsPositive(widths);
    TallyKeys(widths, Width, One, One);
    PositiveCountIsCountOf(t, w);
    TallyLookup(widths, Width, One, One, w);
  }

  /**
   * A successful cut of one `source`-wide roll: on the shelf, the source
   * key loses exactly one roll and every width `w` of the same type, length
   * and colour gains its number of occurrences among the targets.
   */
  lemma CutRollStock(inv: seq<Roll>, meshType: string, source: int, lengthM: int, colour: string,
                     widths: seq<int>, st: UsageStamp, notes: string, today: string, now: int,
                     rollId: int -> string, w: int)
    requires OnShelf(inv, RollKey(meshType, source, lengthM, colour)) >= 1
    ensures var d := DrainFrom(inv, 0, RollKey(meshType, source, lengthM, colour), 1, st);
      && d.remaining <= 0
      && OnShelf(Prune(d.inv) + CutRolls(WidthCounts(widths), meshType, lengthM, colour, notes, today, now, rollId),
                 RollKey(meshType, w, lengthM, colour))
         == OnShelf(inv, RollKey(meshType, w, lengthM, colour)) - (if w == source then 1 else 0) + Occurrences(widths, w)
  {
    var src := RollKey(meshType, source, lengthM, colour);
    var k := RollKey(meshType, w, lengthM, colour);
    var d := DrainFrom(inv, 0, src, 1, st);
    var added := CutRolls(WidthCounts(widths), meshType, lengthM, colour, notes, today, now, rollId);
    RemoveRollOutcome(inv, src, 1, st);
    if w != source {
      RemoveRollOtherKeys(inv, src, 1, st, k);
    }
    SumIntAppend(Prune(d.inv), added, OnShelfOf(k));
    CutRollsStock(widths, meshType, lengthM, colour, notes, today, now, rollId, w);
  }

  // ---------------------------------------------------------------------
  // Incoming orders
  // ---------------------------------------------------------------------

  predicate IsOrdered(o: IncomingOrder) { o.status == "ordered" }

  function IncomingQtyPassing(f: StockFilter): IncomingOrder -> int
  {
    (o: IncomingOrder) => if IsOrdered(o) && Passes(f, o.key) then o.quantity else 0
  }

  function IncomingMetresPassing(f: StockFilter): IncomingOrder -> int
  {
    (o: IncomingOrder) => if IsOrdered(o) && Passes(f, o.key) then o.quantity * o.key.lengthM else 0
  }

  /** `get_incoming_stock`: rolls on order (status "ordered") that pass the filter. */
  function IncomingStock(orders: seq<IncomingOrder>, f: StockFilter): int
  {
    SumInt(orders, IncomingQtyPassing(f))
  }

  function IncomingMetres(orders: seq<IncomingOrder>, f: StockFilter): int
  {
    SumInt(orders, IncomingMetresPassing(f))
  }

  function OrderKeyOf(o: IncomingOrder): RollKey { o.key }

  function OrderQty(o: IncomingOrder): int { o.quantity }

  function OrderMetres(o: IncomingOrder): int { o.quantity * o.key.lengthM }

  /** `get_incoming_summary`: the "ordered" orders grouped by key. */
  function IncomingSummary(orders: seq<IncomingOrder>): seq<Bucket<RollKey>>
  {
    Tally(Filter(orders, IsOrdered), OrderKeyOf, OrderQty, OrderMetres)
  }

  /** Each incoming summary row holds exactly the incoming stock of its key. */
  lemma IncomingSummaryRows(orders: seq<IncomingOrder>, k: RollKey)
    requires Truthy(k)
    ensures UniqueKeys(IncomingSummary(orders))
    ensures CountOf(IncomingSummary(orders), k) == IncomingStock(orders, KeyFilter(k))
    ensures TotalOf(IncomingSummary(orders), k) == IncomingMetres(orders, KeyFilter(k))
  {
    var ordered := Filter(orders, IsOrdered);
    TallyKeys(ordered, OrderKeyOf, OrderQty, OrderMetres);
    TallyLookup(ordered, OrderKeyOf, OrderQty, OrderMetres, k);
    SumIntFilter(orders, IsOrdered, CountIn(OrderKeyOf, OrderQty, k));
    SumIntFilter(orders, IsOrdered, TotalIn(OrderKeyOf, OrderMetres, k));
    var cnt, qty := Masked(IsOrdered, CountIn(OrderKeyOf, OrderQty, k)), IncomingQtyPassing(KeyFilter(k));
    var tot, metres := Masked(IsOrdered, TotalIn(OrderKeyOf, OrderMetres, k)), IncomingMetresPassing(KeyFilter(k));
    forall i | 0 <= i < |orders| ensures cnt(orders[i]) == qty(orders[i]) && tot(orders[i]) == metres(orders[i]) {
      var o := orders[i];
      PassesKeyFilter(k, o.key);
      assert OrderKeyOf(o) == o.key && OrderQty(o) == o.quantity && OrderMetres(o) == o.quantity * o.key.lengthM;
      assert CountIn(OrderKeyOf, OrderQty, k)(o) == if o.key == k then o.quantity else 0;
      assert TotalIn(OrderKeyOf, OrderMetres, k)(o) == if o.key == k then o.quantity * o.key.lengthM else 0;
    }
    SumIntCongruence(orders, cnt, qty);
    SumIntCongruence(orders, tot, metres);
  }

  /** The filter of `get_incoming_orders`; each falsy argument matches everything. */
  function OrderPasses(meshType: string, colour: string, status: string): IncomingOrder -> bool
  {
    (o: IncomingOrder) =>
      (status == "" || o.status == status) &&
      (meshType == "" || o.key.meshType == meshType) &&
      (colour == "" || o.key.colour == colour)
  }

  predicate ByDelivery(a: IncomingOrder, b: IncomingOrder)
  {
    LexLe(a.expectedDelivery, b.expectedDelivery)
  }

  lemma ByDeliveryTotalPreorder()
    ensures TotalPreorder(ByDelivery)
  {
    forall a: IncomingOrder, b: IncomingOrder ensures ByDelivery(a, b) || ByDelivery(b, a) {
      LexLeTotal(a.expectedDelivery, b.expectedDelivery);
    }
    forall a: IncomingOrder, b: IncomingOrder, c: IncomingOrder | ByDelivery(a, b) && ByDelivery(b, c)
      ensures ByDelivery(a, c)
    {
      LexLeTransitive(a.expectedDelivery, b.expectedDelivery, c.expectedDelivery);
    }
  }

  /** `get_incoming_orders`: the matching orders, earliest expected delivery first, and only those. */
  function IncomingOrders(orders: seq<IncomingOrder>, meshType: string, colour: string, status: string): (r: seq<IncomingOrder>)
    ensures forall o :: o in r <==> o in orders && OrderPasses(meshType, colour, status)(o)
    ensures SortedBy(r, ByDelivery)
  {
    var matching := Filter(orders, OrderPasses(meshType, colour, status));
    FilterMembers(orders, OrderPasses(meshType, colour, status));
    ByDeliveryTotalPreorder();
    SortBySorted(matching, ByDelivery);
    var r := SortBy(matching, ByDelivery);
    assert forall o :: o in r <==> o in multiset(r);
    r
  }

  /** The first order with this id that is still "ordered", if any. */
  function FirstOrdered(orders: seq<IncomingOrder>, id: string): (r: Option<nat>)
    ensures r.Some? ==> r.value < |orders| && orders[r.value].id == id && IsOrdered(orders[r.value])
    ensures r.Some? ==> forall j :: 0 <= j < r.value ==> !(orders[j].id == id && IsOrdered(orders[j]))
    ensures r.None? ==> forall j :: 0 <= j < |orders| ==> !(orders[j].id == id && IsOrdered(orders[j]))
  {
    if orders == [] then None
    else if orders[0].id == id && IsOrdered(orders[0]) then Some(0)
    else
      match FirstOrdered(orders[1..], id)
      case None => None
      case Some(i) => Some(i + 1)
  }

  function ReceivedRoll(o: IncomingOrder, rollId: string, today: string, now: int): Roll
  {
    Roll(rollId, o.key, o.quantity, today, "Warehouse", "Received from incoming order " + o.id, now)
  }

  /**
   * Receiving an order moves its rolls from "on the way" to "on the shelf":
   * for every filter, shelf stock plus incoming stock stays the same.
   */
  lemma ReceiveKeepsPosition(inv: seq<Roll>, orders: seq<IncomingOrder>, i: int, rollId: string, today: string, now: int, f: StockFilter)
    requires 0 <= i < |orders| && IsOrdered(orders[i])
    ensures var o := orders[i];
      StockLevel(inv + [ReceivedRoll(o, rollId, today, now)], f)
        + IncomingStock(orders[i := o.(status := "received", receivedDate := Some(today))], f)
      == StockLevel(inv, f) + IncomingStock(orders, f)
  {
    var o := orders[i];
    AddRollStock(inv, ReceivedRoll(o, rollId, today, now), f, o.key);
    SumIntUpdate(orders, i, o.(status := "received", receivedDate := Some(today)), IncomingQtyPassing(f));
  }

  /** Cancelling an order takes exactly its rolls off the incoming stock. */
  lemma CancelIncoming(orders: seq<IncomingOrder>, i: int, f: StockFilter)
    requires 0 <= i < |orders|
    ensures IncomingStock(orders[..i] + orders[i + 1..], f)
      == IncomingStock(orders, f) - IncomingQtyPassing(f)(orders[i])
  {
    assert orders == orders[..i] + ([orders[i]] + orders[i + 1..]);
    SumIntAppend(orders[..i], [orders[i]] + orders[i + 1..], IncomingQtyPassing(f));
    SumIntCons(orders[i], orders[i + 1..], IncomingQtyPassing(f));
    SumIntAppend(orders[..i], orders[i + 1..], IncomingQtyPassing(f));
  }

  /** A new order is "ordered", and it adds its quantity to every filter it passes. */
  lemma AddIncomingStock(orders: seq<IncomingOrder>, o: IncomingOrder, f: StockFilter)
    requires IsOrdered(o)
    ensures IncomingStock(orders + [o], f) == IncomingStock(orders, f) + (if Passes(f, o.key) then o.quantity else 0)
  {
    assert (orders + [o])[..|orders|] == orders;
  }

  datatype StockPosition = StockPosition(
    onShelfQty: int, onShelfMetres: int, incomingQty: int, incomingMetres: int,
    totalQty: int, totalMetres: int)

  // ---------------------------------------------------------------------
  // The ledger
  // ---------------------------------------------------------------------

  /**
   * `MeshManager`: the loaded data file held in memory.  A file without
   * `incoming_orders` or `cutting_history` is modelled with an empty list,
   * which every method treats the same way.
   */
  class MeshManager {
    const config: Config
    var inventory: seq<Roll>
    var usageHistory: seq<UsageRecord>
    var incomingOrders: seq<IncomingOrder>
    var cuttingHistory: seq<CutRecord>

    constructor (config: Config, inventory: seq<Roll>, usageHistory: seq<UsageRecord>,
                 incomingOrders: seq<IncomingOrder>, cuttingHistory: seq<CutRecord>)
      ensures this.config == config && this.inventory == inventory && this.usageHistory == usageHistory
      ensures this.incomingOrders == incomingOrders && this.cuttingHistory == cuttingHistory
    {
      this.config := config;
      this.inventory := inventory;
      this.usageHistory := usageHistory;
      this.incomingOrders := incomingOrders;
      this.cuttingHistory := cuttingHistory;
    }

    /** `add_roll`: always a new entry at the end, never merged into an existing one. */
    method AddRoll(id: string, key: RollKey, quantity: int, receivedDate: string,
                   location: string, notes: string, now: int) returns (entry: Roll)
      modifies this
      ensures entry == Roll(id, key, quantity, receivedDate, location, notes, now)
      ensures inventory == old(inventory) + [entry]
      ensures usageHistory == old(usageHistory) && incomingOrders == old(incomingOrders)
      ensures cuttingHistory == old(cuttingHistory)
    {
      entry := Roll(id, key, quantity, receivedDate, location, notes, now);
      inventory := inventory + [entry];
    }

    /**
     * `remove_roll`: drains the matching entries in list order.  It answers
     * false when rolls remain to be taken; the drained entries and the usage
     * records stay as the loop left them.  On success every entry whose
     * quantity is not positive is pruned.
     */
    method RemoveRoll(key: RollKey, quantity: int, reason: string, orderId: Option<string>, now: int)
      returns (ok: bool)
      modifies this
      ensures var d := DrainFrom(old(inventory), 0, key, quantity, UsageStamp(now, reason, orderId));
        && ok == (d.remaining <= 0)
        && inventory == (if ok then Prune(d.inv) else d.inv)
        && usageHistory == old(usageHistory) + d.log
      ensures incomingOrders == old(incomingOrders) && cuttingHistory == old(cuttingHistory)
    {
      var d := Drain(inventory, key, quantity, UsageStamp(now, reason, orderId));
      inventory, usageHistory := d.inv, usageHistory + d.log;
      if d.remaining > 0 {
        return false;
      }
      inventory := Prune(inventory);
      return true;
    }

    /** `get_stock_level`. */
    method GetStockLevel(f: StockFilter) returns (total: int)
      ensures total == StockLevel(inventory, f)
    {
      total := 0;
      var i := 0;
      while i < |inventory|
        invariant 0 <= i <= |inventory|
        invariant total == SumInt(inventory[..i], QtyPassing(f))
      {
        assert inventory[..i + 1][..i] == inventory[..i];
        var entry := inventory[i];
        if Passes(f, entry.key) {
          total := total + entry.quantity;
        }
        i := i + 1;
      }
      assert inventory[..i] == inventory;
    }

    /** `get_stock_metres`. */
    method GetStockMetres(meshType: string, widthMm: int, colour: string) returns (total: int)
      ensures total == StockMetres(inventory, MetresFilter(meshType, widthMm, colour))
    {
      var f := MetresFilter(meshType, widthMm, colour);
      total := 0;
      var i := 0;
      while i < |inventory|
        invariant 0 <= i <= |inventory|
        invariant total == SumInt(inventory[..i], MetresPassing(f))
      {
        assert inventory[..i + 1][..i] == inventory[..i];
        var entry := inventory[i];
        if Passes(f, entry.key) {
          total := total + entry.quantity * entry.key.lengthM;
        }
        i := i + 1;
      }
      assert inventory[..i] == inventory;
    }

    /** `get_inventory_summary`. */
    method GetInventorySummary() returns (rows: seq<Bucket<RollKey>>)
      ensures rows == InventorySummary(inventory)
    {
      rows := [];
      var i := 0;
      while i < |inventory|
        invariant 0 <= i <= |inventory|
        invariant rows == Tally(inventory[..i], RollKeyOf, RollQty, RollMetres)
      {
        assert inventory[..i + 1][..i] == inventory[..i];
        var entry := inventory[i];
        rows := Bump(rows, entry.key, entry.quantity, entry.quantity * entry.key.lengthM);
        i := i + 1;
      }
      assert inventory[..i] == inventory;
    }

    /** `get_usage`. */
    method GetUsage(days: int, now: int) returns (usage: seq<UsageRecord>)
      ensures usage == Windowed(usageHistory, now, days)
    {
      var cutoff := now - days * DaySeconds;
      usage := [];
      var i := 0;
      while i < |usageHistory|
        invariant 0 <= i <= |usageHistory|
        invariant usage == Filter(usageHistory[..i], InWindowOf(cutoff))
      {
        assert usageHistory[..i + 1][..i] == usageHistory[..i];
        var u := usageHistory[i];
        if u.date >= cutoff {
          usage := usage + [u];
        }
        i := i + 1;
      }
      assert usageHistory[..i] == usageHistory;
    }

    /** `get_average_daily_usage`. */
    method GetAverageDailyUsage(meshType: string, widthMm: int, colour: string, days: int, now: int)
      returns (avg: real)
      ensures avg == AverageDailyUsage(usageHistory, MetresFilter(meshType, widthMm, colour), now, days)
    {
      var f := MetresFilter(meshType, widthMm, colour);
      var usage := GetUsage(days, now);
      var total := 0;
      var i := 0;
      while i < |usage|
        invariant 0 <= i <= |usage|
        invariant total == SumInt(usage[..i], UsedMetresPassing(f))
      {
        assert usage[..i + 1][..i] == usage[..i];
        var u := usage[i];
        if Passes(f, u.key) {
          total := total + u.quantity * u.key.lengthM;
        }
        i := i + 1;
      }
      assert usage[..i] == usage;
      avg := if days > 0 then total as real / days as real else 0.0;
    }

    /** `get_days_remaining`; `None` is `float("inf")`. */
    method GetDaysRemaining(meshType: string, widthMm: int, colour: string, now: int) returns (days: Option<real>)
      ensures days == DaysRemaining(inventory, usageHistory, MetresFilter(meshType, widthMm, colour), now)
    {
      var currentMetres := GetStockMetres(meshType, widthMm, colour);
      var dailyUsage := GetAverageDailyUsage(meshType, widthMm, colour, RunwayWindowDays, now);
      if dailyUsage == 0.0 {
        return None;
      }
      return Some(currentMetres as real / dailyUsage);
    }

    /** `get_months_remaining`. */
    method GetMonthsRemaining(meshType: string, widthMm: int, colour: string, now: int) returns (months: Option<real>)
      ensures months == MonthsRemaining(inventory, usageHistory, MetresFilter(meshType, widthMm, colour), now)
    {
      var days := GetDaysRemaining(meshType, widthMm, colour, now);
      if days.None? {
        return None;
      }
      return Some(days.value / 30.0);
    }

    /** The body of `get_reorder_alerts`' loop for one group. */
    method GroupAlert(g: Bucket<GroupKey>, now: int) returns (a: Option<Alert>)
      ensures a == AlertFor(config, inventory, usageHistory, now, g)
    {
      var months := GetMonthsRemaining(g.key.meshType, g.key.widthMm, g.key.colour, now);
      if months.Some? && months.value < config.alertMonthsStock {
        var mc := if g.key.meshType in config.meshTypes then config.meshTypes[g.key.meshType]
                  else MeshTypeConfig(None, None);
        return Some(Alert(
          g.key.meshType, mc.name.GetOr(g.key.meshType), g.key.widthMm, g.key.colour, g.total,
          Round(months.value, 1), mc.leadTimeMonths.GetOr(4),
          if months.value < 4.0 then "HIGH" else "MEDIUM"));
      }
      return None;
    }

    /** The first loop of `get_reorder_alerts`: the rolls grouped by type, width and colour. */
    method GroupInventory() returns (groups: seq<Bucket<GroupKey>>)
      ensures groups == AlertGroups(inventory)
    {
      groups := [];
      var i := 0;
      while i < |inventory|
        invariant 0 <= i <= |inventory|
        invariant groups == Tally(inventory[..i], GroupOf, RollQty, RollMetres)
      {
        assert inventory[..i + 1][..i] == inventory[..i];
        var entry := inventory[i];
        groups := Bump(groups, GroupOf(entry), entry.quantity, entry.quantity * entry.key.lengthM);
        i := i + 1;
      }
      assert inventory[..i] == inventory;
    }

    /** The second loop of `get_reorder_alerts`: one alert per group that runs short. */
    method CollectAlerts(groups: seq<Bucket<GroupKey>>, now: int) returns (found: seq<Alert>)
      ensures found == AlertsOf(config, inventory, usageHistory, now, groups)
    {
      found := [];
      var j := 0;
      while j < |groups|
        invariant 0 <= j <= |groups|
        invariant found == AlertsOf(config, inventory, usageHistory, now, groups[..j])
      {
        assert groups[..j + 1][..j] == groups[..j];
        var a := GroupAlert(groups[j], now);
        if a.Some? {
          found := found + [a.value];
        }
        j := j + 1;
      }
      assert groups[..j] == groups;
    }

    /** `get_reorder_alerts`: the alerts, fewest months of stock first. */
    method GetReorderAlerts(now: int) returns (alerts: seq<Alert>)
      ensures alerts == SortBy(AlertsOf(config, inventory, usageHistory, now, AlertGroups(inventory)), ByMonths)
    {
      var groups := GroupInventory();
      var found := CollectAlerts(groups, now);
      alerts := SortBy(found, ByMonths);
    }

    /**
     * `cut_roll`: checks the widths add up and a source roll is in stock,
     * removes one source roll with reason "cut", then adds one entry per
     * distinct target width holding its count, and logs the cut.
     */
    method CutRoll(meshType: string, sourceWidthMm: int, lengthM: int, colour: string,
                   targetWidths: seq<int>, operator: string, notes: string,
                   now: int, today: string, cutId: string, rollId: int -> string)
      returns (r: Result<CutRecord, CutError>)
      modifies this
      ensures var src := RollKey(meshType, sourceWidthMm, lengthM, colour);
        var d := DrainFrom(old(inventory), 0, src, 1, UsageStamp(now, "cut", None));
        var counts := WidthCounts(targetWidths);
        if SumInt(targetWidths, Width) != sourceWidthMm then
          && r == Err(WidthMismatch(SumInt(targetWidths, Width), sourceWidthMm))
          && inventory == old(inventory) && usageHistory == old(usageHistory)
          && cuttingHistory == old(cuttingHistory)
        else if StockLevel(old(inventory), KeyFilter(src)) < 1 then
          && r == Err(SourceNotInStock(sourceWidthMm, lengthM, colour))
          && inventory == old(inventory) && usageHistory == old(usageHistory)
          && cuttingHistory == old(cuttingHistory)
        else if d.remaining > 0 then
          && r == Err(RemoveFailed)
          && inventory == d.inv && usageHistory == old(usageHistory) + d.log
          && cuttingHistory == old(cuttingHistory)
        else
          && r == Ok(CutRecord(cutId, now, meshType, sourceWidthMm, lengthM, colour,
                               CutPieces(counts, rollId), operator, notes))
          && inventory == Prune(d.inv) + CutRolls(counts, meshType, lengthM, colour,
                                                 CutNotes(sourceWidthMm), today, now, rollId)
          && usageHistory == old(usageHistory) + d.log
          && cuttingHistory == old(cuttingHistory) + [r.value]
      ensures incomingOrders == old(incomingOrders)
    {
      var src := RollKey(meshType, sourceWidthMm, lengthM, colour);
      var totalTarget := SumInt(targetWidths, Width);
      if totalTarget != sourceWidthMm {
        return Err(WidthMismatch(totalTarget, sourceWidthMm));
      }
      var sourceStock := GetStockLevel(KeyFilter(src));
      if sourceStock < 1 {
        return Err(SourceNotInStock(sourceWidthMm, lengthM, colour));
      }
      var success := RemoveRoll(src, 1, "cut", None, now);
      if !success {
        return Err(RemoveFailed);
      }
      var widthCounts := CountWidths(targetWidths);
      var pieces := AddCutRolls(widthCounts, meshType, lengthM, colour, CutNotes(sourceWidthMm), today, now, rollId);
      var record := CutRecord(cutId, now, meshType, sourceWidthMm, lengthM, colour, pieces, operator, notes);
      cuttingHistory := cuttingHistory + [record];
      return Ok(record);
    }

    /** The second half of `cut_roll`: one `add_roll` per distinct width, in first-seen order. */
    method AddCutRolls(widthCounts: seq<Bucket<int>>, meshType: string, lengthM: int, colour: string,
                       notes: string, today: string, now: int, rollId: int -> string)
      returns (pieces: seq<CutPiece>)
      modifies this
      ensures inventory == old(inventory) + CutRolls(widthCounts, meshType, lengthM, colour, notes, today, now, rollId)
      ensures pieces == CutPieces(widthCounts, rollId)
      ensures usageHistory == old(usageHistory) && incomingOrders == old(incomingOrders)
      ensures cuttingHistory == old(cuttingHistory)
    {
      pieces := [];
      var j := 0;
      while j < |widthCounts|
        invariant 0 <= j <= |widthCounts|
        invariant inventory == old(inventory) + CutRolls(widthCounts[..j], meshType, lengthM, colour, notes, today, now, rollId)
        invariant pieces == CutPieces(widthCounts[..j], rollId)
        invariant usageHistory == old(usageHistory) && incomingOrders == old(incomingOrders)
        invariant cuttingHistory == old(cuttingHistory)
      {
        assert widthCounts[..j + 1][..j] == widthCounts[..j];
        var b := widthCounts[j];
        var entry := AddRoll(rollId(j), RollKey(meshType, b.key, lengthM, colour), b.count,
                             today, "Warehouse", notes, now);
        pieces := pieces + [CutPiece(b.key, b.count, entry.id)];
        j := j + 1;
      }
      assert widthCounts[..j] == widthCounts;
    }

    /** `add_incoming_order`: a new order with status "ordered" at the end of the list. */
    method AddIncomingOrder(id: string, key: RollKey, quantity: int, orderDate: string,
                            expectedDelivery: string, now: int) returns (entry: IncomingOrder)
      modifies this
      ensures entry == IncomingOrder(id, key, quantity, orderDate, expectedDelivery, "ordered", now, None)
      ensures IsOrdered(entry)
      ensures incomingOrders == old(incomingOrders) + [entry]
      ensures inventory == old(inventory) && usageHistory == old(usageHistory)
      ensures cuttingHistory == old(cuttingHistory)
    {
      entry := IncomingOrder(id, key, quantity, orderDate, expectedDelivery, "ordered", now, None);
      incomingOrders := incomingOrders + [entry];
    }

    /** `get_incoming_orders`. */
    method GetIncomingOrders(meshType: string, colour: string, status: string) returns (orders: seq<IncomingOrder>)
      ensures orders == IncomingOrders(incomingOrders, meshType, colour, status)
    {
      var p := OrderPasses(meshType, colour, status);
      var matching: seq<IncomingOrder> := [];
      var i := 0;
      while i < |incomingOrders|
        invariant 0 <= i <= |incomingOrders|
        invariant matching == Filter(incomingOrders[..i], p)
      {
        assert incomingOrders[..i + 1][..i] == incomingOrders[..i];
        var o := incomingOrders[i];
        if p(o) {
          matching := matching + [o];
        }
        i := i + 1;
      }
      assert incomingOrders[..i] == incomingOrders;
      orders := SortBy(matching, ByDelivery);
    }

    /**
     * `mark_order_received`: the first "ordered" order with this id is added
     * to the shelf as a new roll and marked "received"; with no such order
     * nothing changes.
     */
    method MarkOrderReceived(orderId: string, today: string, rollId: string, now: int) returns (ok: bool)
      modifies this
      ensures match FirstOrdered(old(incomingOrders), orderId)
        case None =>
          !ok && inventory == old(inventory) && incomingOrders == old(incomingOrders)
        case Some(i) =>
          var o := old(incomingOrders)[i];
          && ok
          && inventory == old(inventory) + [ReceivedRoll(o, rollId, today, now)]
          && incomingOrders == old(incomingOrders)[i := o.(status := "received", receivedDate := Some(today))]
      ensures usageHistory == old(usageHistory) && cuttingHistory == old(cuttingHistory)
    {
      var i := 0;
      while i < |incomingOrders|
        invariant 0 <= i <= |incomingOrders|
        invariant forall j :: 0 <= j < i ==> !(incomingOrders[j].id == orderId && IsOrdered(incomingOrders[j]))
      {
        var order := incomingOrders[i];
        if order.id == orderId && order.status == "ordered" {
          var _ := AddRoll(rollId, order.key, order.quantity, today, "Warehouse",
                           "Received from incoming order " + orderId, now);
          incomingOrders := incomingOrders[i := order.(status := "received", receivedDate := Some(today))];
          return true;
        }
        i := i + 1;
      }
      return false;
    }

    /** `cancel_incoming_order`: deletes the first "ordered" order with this id. */
    method CancelIncomingOrder(orderId: string) returns (ok: bool)
      modifies this
      ensures match FirstOrdered(old(incomingOrders), orderId)
        case None => !ok && incomingOrders == old(incomingOrders)
        case Some(i) => ok && incomingOrders == old(incomingOrders)[..i] + old(incomingOrders)[i + 1..]
      ensures inventory == old(inventory) && usageHistory == old(usageHistory)
      ensures cuttingHistory == old(cuttingHistory)
    {
      var i := 0;
      while i < |incomingOrders|
        invariant 0 <= i <= |incomingOrders|
        invariant forall j :: 0 <= j < i ==> !(incomingOrders[j].id == orderId && IsOrdered(incomingOrders[j]))
      {
        var order := incomingOrders[i];
        if order.id == orderId && order.status == "ordered" {
          incomingOrders := incomingOrders[..i] + incomingOrders[i + 1..];
          return true;
        }
        i := i + 1;
      }
      return false;
    }

    /** `get_incoming_stock`. */
    method GetIncomingStock(f: StockFilter) returns (total: int)
      ensures total == IncomingStock(incomingOrders, f)
    {
      total := 0;
      var i := 0;
      while i < |incomingOrders|
        invariant 0 <= i <= |incomingOrders|
        invariant total == SumInt(incomingOrders[..i], IncomingQtyPassing(f))
      {
        assert incomingOrders[..i + 1][..i] == incomingOrders[..i];
        var o := incomingOrders[i];
        if o.status == "ordered" && Passes(f, o.key) {
          total := total + o.quantity;
        }
        i := i + 1;
      }
      assert incomingOrders[..i] == incomingOrders;
    }

    /** `get_incoming_metres`. */
    method GetIncomingMetres(meshType: string, widthMm: int, colour: string) returns (total: int)
      ensures total == IncomingMetres(incomingOrders, MetresFilter(meshType, widthMm, colour))
    {
      var f := MetresFilter(meshType, widthMm, colour);
      total := 0;
      var i := 0;
      while i < |incomingOrders|
        invariant 0 <= i <= |incomingOrders|
        invariant total == SumInt(incomingOrders[..i], IncomingMetresPassing(f))
      {
        assert incomingOrders[..i + 1][..i] == incomingOrders[..i];
        var o := incomingOrders[i];
        if o.status == "ordered" && Passes(f, o.key) {
          total := total + o.quantity * o.key.lengthM;
        }
        i := i + 1;
      }
      assert incomingOrders[..i] == incomingOrders;
    }

    /** `get_stock_with_incoming`: shelf, incoming and their sums, in rolls and in metres. */
    method GetStockWithIncoming(key: RollKey) returns (p: StockPosition)
      ensures p.onShelfQty == StockLevel(inventory, KeyFilter(key))
      ensures p.incomingQty == IncomingStock(incomingOrders, KeyFilter(key))
      ensures p.onShelfMetres == p.onShelfQty * key.lengthM
      ensures p.incomingMetres == p.incomingQty * key.lengthM
      ensures p.totalQty == p.onShelfQty + p.incomingQty
      ensures p.totalMetres == p.onShelfMetres + p.incomingMetres
    {
      var onShelfQty := GetStockLevel(KeyFilter(key));
      var incomingQty := GetIncomingStock(KeyFilter(key));
      var onShelfMetres := onShelfQty * key.lengthM;
      var incomingMetres := incomingQty * key.lengthM;
      p := StockPosition(onShelfQty, onShelfMetres, incomingQty, incomingMetres,
                         onShelfQty + incomingQty, onShelfMetres + incomingMetres);
    }

    /** `get_incoming_summary`. */
    method GetIncomingSummary() returns (rows: seq<Bucket<RollKey>>)
      ensures rows == IncomingSummary(incomingOrders)
    {
      rows := [];
      ghost var ordered: seq<IncomingOrder> := [];
      var i := 0;
      while i < |incomingOrders|
        invariant 0 <= i <= |incomingOrders|
        invariant ordered == Filter(incomingOrders[..i], IsOrdered)
        invariant rows == Tally(ordered, OrderKeyOf, OrderQty, OrderMetres)
      {
        assert incomingOrders[..i + 1][..i] == incomingOrders[..i];
        var o := incomingOrders[i];
        if o.status == "ordered" {
          assert (ordered + [o])[..|ordered|] == ordered;
          rows := Bump(rows, o.key, o.quantity, o.quantity * o.key.lengthM);
          ordered := ordered + [o];
        }
        i := i + 1;
      }
      assert incomingOrders[..i] == incomingOrders;
    }
  }

  /** The first half of `cut_roll`'s bookkeeping: each target width with how often it occurs. */
  method CountWidths(targetWidths: seq<int>) returns (widthCounts: seq<Bucket<int>>)
    ensures widthCounts == WidthCounts(targetWidths)
  {
    widthCounts := [];
    var i := 0;
    while i < |targetWidths|
      invariant 0 <= i <= |targetWidths|
      invariant widthCounts == Tally(targetWidths[..i], Width, One, One)
    {
      assert targetWidths[..i + 1][..i] == targetWidths[..i];
      widthCounts := Bump(widthCounts, targetWidths[i], 1, 1);
      i := i + 1;
    }
    assert targetWidths[..i] == targetWidths;
  }
}
