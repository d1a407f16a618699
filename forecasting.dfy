/**
 * The forecasting engine: usage of mesh over a look-back window grouped
 * by period or by product, the runway and status of every mesh product,
 * reorder suggestions, the runway of saddles, screws, trims and boxes
 * from the order-based component usage, and the summary figures.  The data
 * files are snapshots held by the forecaster; the current time, the date
 * formatting of period keys and the outcome of the order sync are
 * parameters.
 */
module Forecasting {
  import opened Builtins
  import opened Collections
  import opened Mesh
  import opened ShopifySync
  import Saddle
  import Screw
  import Box

  // ---------------------------------------------------------------------
  // Status
  // ---------------------------------------------------------------------

  /** The status strings: CRITICAL, ORDER_NOW, LOW, OK, NO_USAGE and COIL. */
  datatype Status = Critical | OrderNow | Low | Sufficient | NoUsage | CoilYield

  function StatusName(s: Status): string
  {
    match s
    case Critical => "CRITICAL"
    case OrderNow => "ORDER_NOW"
    case Low => "LOW"
    case Sufficient => "OK"
    case NoUsage => "NO_USAGE"
    case CoilYield => "COIL"
  }

  /** How urgent a status is: lower is more urgent. */
  function Urgency(s: Status): int
  {
    match s
    case Critical => 0
    case OrderNow => 1
    case Low => 2
    case Sufficient => 3
    case NoUsage => 4
    case CoilYield => 5
  }

  /** `_get_status`: `None` stands for an infinite runway (`float("inf")`). */
  function DayStatus(days: Option<real>, leadDays: int): Status
  {
    match days
    case None => NoUsage
    case Some(d) =>
      if d < leadDays as real then Critical
      else if d < (leadDays * 2) as real then OrderNow
      else if d < (leadDays * 3) as real then Low
      else Sufficient
  }

  /**
   * The day ladder: no usage exactly for an infinite runway; otherwise
   * critical below L days, order-now below 2L, low below 3L, else OK.
   */
  lemma DayStatusLadder(days: Option<real>, leadDays: int)
    requires leadDays >= 0
    ensures DayStatus(days, leadDays) == NoUsage <==> days.None?
    ensures days.Some? ==> (DayStatus(days, leadDays) == Critical <==> days.value < leadDays as real)
    ensures days.Some? ==> (DayStatus(days, leadDays) == OrderNow <==>
      leadDays as real <= days.value < (2 * leadDays) as real)
    ensures days.Some? ==> (DayStatus(days, leadDays) == Low <==>
      (2 * leadDays) as real <= days.value < (3 * leadDays) as real)
    ensures days.Some? ==> (DayStatus(days, leadDays) == Sufficient <==> (3 * leadDays) as real <= days.value)
  {
  }

  /** A longer runway is never more urgent. */
  lemma DayStatusMonotone(d1: real, d2: real, leadDays: int)
    requires leadDays >= 0 && d1 <= d2
    ensures Urgency(DayStatus(Some(d1), leadDays)) <= Urgency(DayStatus(Some(d2), leadDays))
  {
  }

  /** The mesh ladder on months of stock: below L, L+1 and L+2 months. */
  function MonthStatus(months: Option<real>, lead: int): Status
  {
    match months
    case None => NoUsage
    case Some(m) =>
      if m < lead as real then Critical
      else if m < (lead + 1) as real then OrderNow
      else if m < (lead + 2) as real then Low
      else Sufficient
  }

  lemma MonthStatusLadder(months: Option<real>, lead: int)
    ensures MonthStatus(months, lead) == NoUsage <==> months.None?
    ensures months.Some? ==> (MonthStatus(months, lead) == Critical <==> months.value < lead as real)
    ensures months.Some? ==> (MonthStatus(months, lead) == OrderNow <==>
      lead as real <= months.value < (lead + 1) as real)
    ensures months.Some? ==> (MonthStatus(months, lead) == Low <==>
      (lead + 1) as real <= months.value < (lead + 2) as real)
    ensures months.Some? ==> (MonthStatus(months, lead) == Sufficient <==> (lead + 2) as real <= months.value)
    ensures months.Some? ==> MonthStatus(months, lead) in {Critical, OrderNow, Low, Sufficient}
  {
  }

  lemma MonthStatusMonotone(m1: real, m2: real, lead: int)
    requires m1 <= m2
    ensures Urgency(MonthStatus(Some(m1), lead)) <= Urgency(MonthStatus(Some(m2), lead))
  {
  }

  /** `round(x, n)` on a value that may be infinite (kept as `None`). */
  function RoundOpt(x: Option<real>, digits: nat): (r: Option<real>)
    ensures r.Some? <==> x.Some?
  {
    match x
    case None => None
    case Some(v) => Some(Round(v, digits))
  }

  /** `quantity / rate` when the rate is positive, else infinite. */
  function Runway(quantity: real, daily: real): (days: Option<real>)
    ensures days.None? <==> daily <= 0.0
    ensures days.Some? ==> days.value * daily == quantity
    ensures days.Some? && quantity >= 0.0 ==> days.value >= 0.0
  {
    if daily > 0.0 then Some(quantity / daily) else None
  }

  // ---------------------------------------------------------------------
  // Usage by period
  // ---------------------------------------------------------------------

  /** The three groupings of `get_usage_by_period`. */
  datatype Grouping = ByDay | ByWeek | ByMonth

  /** The `group_by` argument: "week" and "month" are recognised, anything else groups by day. */
  function GroupingOf(groupBy: string): (g: Grouping)
    ensures g == ByWeek <==> groupBy == "week"
    ensures g == ByMonth <==> groupBy == "month"
    ensures g == ByDay <==> groupBy != "week" && groupBy != "month"
  {
    if groupBy == "day" then ByDay
    else if groupBy == "week" then ByWeek
    else if groupBy == "month" then ByMonth
    else ByDay
  }

  function UsedRolls(u: UsageRecord): int { u.quantity }

  function UsedMetres(u: UsageRecord): int { u.quantity * u.key.lengthM }

  /** The period a record falls in, by the date formatting `bucketKey` gives each grouping. */
  function PeriodOf(bucketKey: (int, Grouping) -> string, g: Grouping): UsageRecord -> string
  {
    (u: UsageRecord) => bucketKey(u.date, g)
  }

  datatype PeriodUsage = PeriodUsage(period: string, metres: int)

  function PeriodRows(t: seq<Bucket<string>>): (rows: seq<PeriodUsage>)
    ensures |rows| == |t|
    ensures forall i :: 0 <= i < |t| ==> rows[i] == PeriodUsage(t[i].key, t[i].total)
  {
    if t == [] then [] else PeriodRows(t[..|t| - 1]) + [PeriodUsage(t[|t| - 1].key, t[|t| - 1].total)]
  }

  predicate PeriodLe(a: PeriodUsage, b: PeriodUsage) { LexLe(a.period, b.period) }

  function PeriodMetres(r: PeriodUsage): int { r.metres }

  /** The windowed records grouped by period, in first-occurrence order. */
  function PeriodTally(usage: seq<UsageRecord>, now: int, days: int, g: Grouping,
                       bucketKey: (int, Grouping) -> string): seq<Bucket<string>>
  {
    Tally(Windowed(usage, now, days), PeriodOf(bucketKey, g), UsedRolls, UsedMetres)
  }

  /** `get_usage_by_period`: metres per period key, sorted by key. */
  function UsageByPeriod(usage: seq<UsageRecord>, now: int, days: int, groupBy: string,
                         bucketKey: (int, Grouping) -> string): seq<PeriodUsage>
  {
    SortBy(PeriodRows(PeriodTally(usage, now, days, GroupingOf(groupBy), bucketKey)), PeriodLe)
  }

  lemma PeriodLeTotal()
    ensures TotalPreorder(PeriodLe)
  {
    forall a, b ensures PeriodLe(a, b) || PeriodLe(b, a) {
      LexLeTotal(a.period, b.period);
    }
    forall a, b, c | PeriodLe(a, b) && PeriodLe(b, c) ensures PeriodLe(a, c) {
      LexLeTransitive(a.period, b.period, c.period);
    }
  }

  lemma {:induction false} PeriodRowsSum(t: seq<Bucket<string>>)
    ensures SumInt(PeriodRows(t), PeriodMetres) == SumInt(t, BucketTotal)
  {
    if t != [] {
      PeriodRowsSum(t[..|t| - 1]);
      assert PeriodRows(t)[..|t| - 1] == PeriodRows(t[..|t| - 1]);
    }
  }

  /** The periods come out in ascending key order. */
  lemma UsageByPeriodSorted(usage: seq<UsageRecord>, now: int, days: int, groupBy: string,
                            bucketKey: (int, Grouping) -> string)
    ensures SortedBy(UsageByPeriod(usage, now, days, groupBy, bucketKey), PeriodLe)
  {
    PeriodLeTotal();
    SortBySorted(PeriodRows(PeriodTally(usage, now, days, GroupingOf(groupBy), bucketKey)), PeriodLe);
  }

  /** The period values add up to the metres (quantity times length) of the records inside the window. */
  lemma UsageByPeriodTotal(usage: seq<UsageRecord>, now: int, days: int, groupBy: string,
                           bucketKey: (int, Grouping) -> string)
    ensures SumInt(UsageByPeriod(usage, now, days, groupBy, bucketKey), PeriodMetres)
         == SumInt(usage, Masked(InWindowOf(now - days * DaySeconds), UsedMetres))
  {
    var g := GroupingOf(groupBy);
    var t := PeriodTally(usage, now, days, g, bucketKey);
    var rows := PeriodRows(t);
    SumIntPermutation(rows, SortBy(rows, PeriodLe), PeriodMetres);
    PeriodRowsSum(t);
    TallySums(Windowed(usage, now, days), PeriodOf(bucketKey, g), UsedRolls, UsedMetres);
    SumIntFilter(usage, InWindowOf(now - days * DaySeconds), UsedMetres);
  }

  /**
   * A period appears exactly when some windowed record falls in it, and
   * its value is the metres of the windowed records of that period.
   */
  lemma UsageByPeriodEntries(usage: seq<UsageRecord>, now: int, days: int, groupBy: string,
                             bucketKey: (int, Grouping) -> string, r: PeriodUsage)
    ensures r in UsageByPeriod(usage, now, days, groupBy, bucketKey) <==>
      var w, key := Windowed(usage, now, days), PeriodOf(bucketKey, GroupingOf(groupBy));
      HasKey(w, key, r.period) && r.metres == SumInt(w, TotalIn(key, UsedMetres, r.period))
  {
    var g := GroupingOf(groupBy);
    var w, key := Windowed(usage, now, days), PeriodOf(bucketKey, g);
    var t := PeriodTally(usage, now, days, g, bucketKey);
    var rows := PeriodRows(t);
    TallyLookup(w, key, UsedRolls, UsedMetres, r.period);
    TallyKeys(w, key, UsedRolls, UsedMetres);
    PeriodRowsMember(t, r);
    assert r in SortBy(rows, PeriodLe) <==> r in multiset(rows);
  }

  lemma PeriodRowsMember(t: seq<Bucket<string>>, r: PeriodUsage)
    requires UniqueKeys(t)
    ensures r in PeriodRows(t) <==> r.period in Keys(t) && r.metres == TotalOf(t, r.period)
  {
    var rows := PeriodRows(t);
    if r in rows {
      var i :| 0 <= i < |rows| && rows[i] == r;
      assert Keys(t)[i] == r.period;
      TotalOfUnique(t, i);
    }
    if r.period in Keys(t) && r.metres == TotalOf(t, r.period) {
      var i :| 0 <= i < |t| && Keys(t)[i] == r.period;
      TotalOfUnique(t, i);
      assert rows[i] == r;
    }
  }

  /** In a table without repeated keys, the total filed under a key is that entry's total. */
  lemma {:induction false} TotalOfUnique<K>(t: seq<Bucket<K>>, i: int)
    requires UniqueKeys(t) && 0 <= i < |t|
    ensures TotalOf(t, t[i].key) == t[i].total
    ensures CountOf(t, t[i].key) == t[i].count
  {
    if i > 0 {
      assert UniqueKeys(t[1..]) by {
        forall a, b | 0 <= a < b < |t[1..]| ensures t[1..][a].key != t[1..][b].key {
          assert t[1..][a] == t[a + 1] && t[1..][b] == t[b + 1];
        }
      }
      TotalOfUnique(t[1..], i - 1);
      assert t[0].key != t[i].key;
    }
  }

  // ---------------------------------------------------------------------
  // Usage by product
  // ---------------------------------------------------------------------

  function UsageGroupOf(u: UsageRecord): GroupKey
  {
    GroupKey(u.key.meshType, u.key.widthMm, u.key.colour)
  }

  datatype ProductUsage = ProductUsage(
    meshType: string, widthMm: int, colour: string, rollsUsed: int, metresUsed: int, avgDailyMetres: real)

  function ProductKey(r: ProductUsage): GroupKey
  {
    GroupKey(r.meshType, r.widthMm, r.colour)
  }

  function ProductRowOf(b: Bucket<GroupKey>, days: int): ProductUsage
    requires days != 0
  {
    ProductUsage(b.key.meshType, b.key.widthMm, b.key.colour, b.count, b.total,
                 Round(b.total as real / days as real, 2))
  }

  function ProductRows(t: seq<Bucket<GroupKey>>, days: int): (rows: seq<ProductUsage>)
    requires days != 0
    ensures |rows| == |t|
    ensures forall i :: 0 <= i < |t| ==> rows[i] == ProductRowOf(t[i], days)
  {
    if t == [] then [] else ProductRows(t[..|t| - 1], days) + [ProductRowOf(t[|t| - 1], days)]
  }

  /** The sort of `get_usage_by_product`: by metres used, largest first (stable). */
  predicate ByMetresDesc(a: ProductUsage, b: ProductUsage) { a.metresUsed >= b.metresUsed }

  /** The windowed records grouped by (type, width, colour): rolls as the count, metres as the total. */
  function ProductTally(usage: seq<UsageRecord>, now: int, days: int): seq<Bucket<GroupKey>>
  {
    Tally(Windowed(usage, now, days), UsageGroupOf, UsedRolls, UsedMetres)
  }

  /** `get_usage_by_product`; a zero `days` would divide by zero once a record is in the window. */
  function UsageByProduct(usage: seq<UsageRecord>, now: int, days: int): seq<ProductUsage>
    requires days != 0
  {
    SortBy(ProductRows(ProductTally(usage, now, days), days), ByMetresDesc)
  }

  /** The products come out by metres used, largest first. */
  lemma UsageByProductSorted(usage: seq<UsageRecord>, now: int, days: int)
    requires days != 0
    ensures SortedBy(UsageByProduct(usage, now, days), ByMetresDesc)
  {
    SortBySorted(ProductRows(ProductTally(usage, now, days), days), ByMetresDesc);
  }

  lemma ProductRowsMember(t: seq<Bucket<GroupKey>>, days: int, r: ProductUsage)
    requires days != 0 && UniqueKeys(t)
    ensures r in ProductRows(t, days) <==>
      && ProductKey(r) in Keys(t)
      && r.rollsUsed == CountOf(t, ProductKey(r)) && r.metresUsed == TotalOf(t, ProductKey(r))
      && r.avgDailyMetres == Round(r.metresUsed as real / days as real, 2)
  {
    var rows := ProductRows(t, days);
    var k := ProductKey(r);
    if r in rows {
      var i :| 0 <= i < |rows| && rows[i] == r;
      assert Keys(t)[i] == k;
      TotalOfUnique(t, i);
    }
    if k in Keys(t) && r.rollsUsed == CountOf(t, k) && r.metresUsed == TotalOf(t, k)
       && r.avgDailyMetres == Round(r.metresUsed as real / days as real, 2) {
      var i :| 0 <= i < |t| && Keys(t)[i] == k;
      TotalOfUnique(t, i);
      assert rows[i] == r;
    }
  }

  /**
   * A product appears exactly when some windowed record has its (type,
   * width, colour); its rolls and metres are the sums over those records,
   * and its daily average is the metres over `days`, to 2 decimals.
   */
  lemma UsageByProductEntries(usage: seq<UsageRecord>, now: int, days: int, r: ProductUsage)
    requires days != 0
    ensures r in UsageByProduct(usage, now, days) <==>
      var w, k := Windowed(usage, now, days), ProductKey(r);
      && HasKey(w, UsageGroupOf, k)
      && r.rollsUsed == SumInt(w, CountIn(UsageGroupOf, UsedRolls, k))
      && r.metresUsed == SumInt(w, TotalIn(UsageGroupOf, UsedMetres, k))
      && r.avgDailyMetres == Round(r.metresUsed as real / days as real, 2)
  {
    var w := Windowed(usage, now, days);
    var t := ProductTally(usage, now, days);
    var rows := ProductRows(t, days);
    TallyLookup(w, UsageGroupOf, UsedRolls, UsedMetres, ProductKey(r));
    TallyKeys(w, UsageGroupOf, UsedRolls, UsedMetres);
    ProductRowsMember(t, days, r);
    assert r in SortBy(rows, ByMetresDesc) <==> r in multiset(rows);
  }

  // ---------------------------------------------------------------------
  // Mesh forecast
  // ---------------------------------------------------------------------

  /** The look-back of the mesh forecast's usage rates, in days. */
  const ForecastWindowDays := 180

  /** The lead time a mesh type gets when its configuration does not give one, in months. */
  const DefaultLeadTimeMonths := 4

  datatype MeshForecast = MeshForecast(
    meshType: string, meshName: string, widthMm: int, colour: string,
    currentMetres: real, avgDailyUsage: real, avgMonthlyUsage: real,
    daysRemaining: Option<real>, monthsRemaining: Option<real>, leadTimeMonths: int, status: Status)

  function ForecastKey(f: MeshForecast): GroupKey
  {
    GroupKey(f.meshType, f.widthMm, f.colour)
  }

  /** `mesh_types.get(mesh_type, {})`. */
  function TypeConfigOf(cfg: Config, meshType: string): MeshTypeConfig
  {
    if meshType in cfg.meshTypes then cfg.meshTypes[meshType] else MeshTypeConfig(None, None)
  }

  function LeadTimeOf(cfg: Config, meshType: string): int
  {
    TypeConfigOf(cfg, meshType).leadTimeMonths.GetOr(DefaultLeadTimeMonths)
  }

  /**
   * The forecast entry of one (type, width, colour) with `current` metres
   * on the shelf and `daily` metres used a day: the runway in days and in
   * months (days / 30) and the status on the month ladder.
   */
  function MeshForecastFor(cfg: Config, k: GroupKey, current: int, daily: real): (f: MeshForecast)
    ensures ForecastKey(f) == k && f.leadTimeMonths == LeadTimeOf(cfg, k.meshType)
    ensures f.currentMetres == Round(current as real, 1)
    ensures f.avgDailyUsage == Round(daily, 2) && f.avgMonthlyUsage == Round(daily * 30.0, 1)
    ensures f.status == NoUsage <==> daily <= 0.0
    ensures f.daysRemaining.None? <==> daily <= 0.0
    ensures f.monthsRemaining.None? <==> daily <= 0.0
    ensures daily > 0.0 ==>
      f.status == MonthStatus(Some(current as real / daily / 30.0), LeadTimeOf(cfg, k.meshType))
    ensures daily > 0.0 && current == 0 ==>
      f.daysRemaining == Some(0.0) && (f.leadTimeMonths > 0 ==> f.status == Critical)
  {
    var days := Runway(current as real, daily);
    var months := if daily > 0.0 then Some(days.value / 30.0) else None;
    var mc := TypeConfigOf(cfg, k.meshType);
    var lead := mc.leadTimeMonths.GetOr(DefaultLeadTimeMonths);
    MeshForecast(k.meshType, mc.name.GetOr(k.meshType), k.widthMm, k.colour, Round(current as real, 1),
                 Round(daily, 2), Round(daily * 30.0, 1), RoundOpt(days, 0), RoundOpt(months, 1),
                 lead, MonthStatus(months, lead))
  }

  /** The metres on the shelf per (type, width, colour), over every inventory entry. */
  function StockTally(inv: seq<Roll>): seq<Bucket<GroupKey>>
  {
    Tally(inv, GroupOf, RollQty, RollMetres)
  }

  /** The daily rate the forecast reads for a key: the last row with that key, 0 when there is none. */
  function RateOf(rates: seq<ProductUsage>, k: GroupKey): real
  {
    if rates == [] then 0.0
    else if ProductKey(rates[|rates| - 1]) == k then rates[|rates| - 1].avgDailyMetres
    else RateOf(rates[..|rates| - 1], k)
  }

  lemma {:induction false} RateOfSource(rates: seq<ProductUsage>, k: GroupKey)
    ensures (forall r :: r in rates ==> ProductKey(r) != k) ==> RateOf(rates, k) == 0.0
    ensures (exists r :: r in rates && ProductKey(r) == k) ==>
      exists r :: r in rates && ProductKey(r) == k && RateOf(rates, k) == r.avgDailyMetres
  {
    if rates != [] {
      var init := rates[..|rates| - 1];
      RateOfSource(init, k);
      assert forall r :: r in init ==> r in rates;
      if ProductKey(rates[|rates| - 1]) != k {
        assert forall r :: r in rates && r != rates[|rates| - 1] ==> r in init;
      }
    }
  }

  function RateKeys(rates: seq<ProductUsage>): (ks: seq<GroupKey>)
    ensures |ks| == |rates|
    ensures forall i :: 0 <= i < |rates| ==> ks[i] == ProductKey(rates[i])
  {
    if rates == [] then [] else RateKeys(rates[..|rates| - 1]) + [ProductKey(rates[|rates| - 1])]
  }

  predicate Distinct<T(==)>(s: seq<T>)
  {
    forall i, j :: 0 <= i < j < |s| ==> s[i] != s[j]
  }

  /** Appends the elements of `xs` that `acc` does not hold yet: a set union listed without repeats. */
  function AddNew<T(==, !new)>(acc: seq<T>, xs: seq<T>): (r: seq<T>)
    ensures forall x :: x in r <==> x in acc || x in xs
    ensures Distinct(acc) ==> Distinct(r)
    decreases |xs|
  {
    if xs == [] then acc
    else AddNew(if xs[0] in acc then acc else acc + [xs[0]], xs[1..])
  }

  /** `set(inventory keys) | set(usage keys)`, stocked keys first. */
  function ForecastKeys(stock: seq<Bucket<GroupKey>>, rates: seq<ProductUsage>): (ks: seq<GroupKey>)
    ensures Distinct(ks)
    ensures forall k :: k in ks <==> k in Keys(stock) || k in RateKeys(rates)
  {
    AddNew(AddNew([], Keys(stock)), RateKeys(rates))
  }

  /** The forecast entries of `keys`, in key order. */
  function ForecastsFor(cfg: Config, stock: seq<Bucket<GroupKey>>, rates: seq<ProductUsage>, keys: seq<GroupKey>)
    : (fs: seq<MeshForecast>)
    ensures |fs| == |keys|
    ensures forall i :: 0 <= i < |keys| ==>
      fs[i] == MeshForecastFor(cfg, keys[i], TotalOf(stock, keys[i]), RateOf(rates, keys[i]))
  {
    if keys == [] then []
    else
      var k := keys[|keys| - 1];
      ForecastsFor(cfg, stock, rates, keys[..|keys| - 1]) + [MeshForecastFor(cfg, k, TotalOf(stock, k), RateOf(rates, k))]
  }

  /** The sort group: 0 for entries needing attention, then NO_USAGE, then OK. */
  function Tier(f: MeshForecast): int
  {
    if f.status == Sufficient then 2 else if f.status == NoUsage then 1 else 0
  }

  /** `days_remaining or float("inf")`: a missing and a zero runway both sort last (`None`). */
  function SortDays(f: MeshForecast): Option<real>
  {
    match f.daysRemaining
    case Some(d) => if d == 0.0 then None else Some(d)
    case None => None
  }

  /** `<=` on runways where `None` is infinity. */
  predicate InfLe(a: Option<real>, b: Option<real>)
  {
    b.None? || (a.Some? && a.value <= b.value)
  }

  /** The sort key `(status == OK, status == NO_USAGE, days_remaining or inf)` compared with `<=`. */
  predicate ForecastLe(a: MeshForecast, b: MeshForecast)
  {
    Tier(a) < Tier(b) || (Tier(a) == Tier(b) && InfLe(SortDays(a), SortDays(b)))
  }

  lemma ForecastLeTotal()
    ensures TotalPreorder(ForecastLe)
  {
  }

  /** `calculate_stock_forecast`. */
  function MeshForecasts(cfg: Config, inv: seq<Roll>, usage: seq<UsageRecord>, now: int): seq<MeshForecast>
  {
    var stock := StockTally(inv);
    var rates := UsageByProduct(usage, now, ForecastWindowDays);
    SortBy(ForecastsFor(cfg, stock, rates, ForecastKeys(stock, rates)), ForecastLe)
  }

  /** 1 for the entry of key `k`, else 0: summed, the number of entries `k` has. */
  function IsFor(k: GroupKey): MeshForecast -> int
  {
    (f: MeshForecast) => if ForecastKey(f) == k then 1 else 0
  }

  lemma {:induction false} ForecastsForCount(cfg: Config, stock: seq<Bucket<GroupKey>>, rates: seq<ProductUsage>,
                                             keys: seq<GroupKey>, k: GroupKey)
    requires Distinct(keys)
    ensures SumInt(ForecastsFor(cfg, stock, rates, keys), IsFor(k)) == if k in keys then 1 else 0
  {
    if keys != [] {
      var init, last := keys[..|keys| - 1], keys[|keys| - 1];
      var fs := ForecastsFor(cfg, stock, rates, init);
      var x := MeshForecastFor(cfg, last, TotalOf(stock, last), RateOf(rates, last));
      ForecastsForCount(cfg, stock, rates, init, k);
      assert (fs + [x])[..|fs|] == fs;
      assert keys == init + [last];
      assert last !in init;
    }
  }

  /** The key of a row of the usage rates is exactly a key used inside the window. */
  lemma RateKeysUsed(usage: seq<UsageRecord>, now: int, k: GroupKey)
    ensures k in RateKeys(UsageByProduct(usage, now, ForecastWindowDays)) <==>
      HasKey(Windowed(usage, now, ForecastWindowDays), UsageGroupOf, k)
  {
    var rates := UsageByProduct(usage, now, ForecastWindowDays);
    var w := Windowed(usage, now, ForecastWindowDays);
    if k in RateKeys(rates) {
      var i :| 0 <= i < |rates| && RateKeys(rates)[i] == k;
      UsageByProductEntries(usage, now, ForecastWindowDays, rates[i]);
    }
    if HasKey(w, UsageGroupOf, k) {
      var metres := SumInt(w, TotalIn(UsageGroupOf, UsedMetres, k));
      var r := ProductUsage(k.meshType, k.widthMm, k.colour, SumInt(w, CountIn(UsageGroupOf, UsedRolls, k)),
                            metres, Round(metres as real / ForecastWindowDays as real, 2));
      UsageByProductEntries(usage, now, ForecastWindowDays, r);
      var i :| 0 <= i < |rates| && rates[i] == r;
      assert RateKeys(rates)[i] == k;
    }
  }

  /**
   * The daily rate a key gets: its windowed metres over 180 days, rounded
   * to 2 decimals, or 0 when it has no record in the window.
   */
  lemma RateOfUsage(usage: seq<UsageRecord>, now: int, k: GroupKey)
    ensures var w := Windowed(usage, now, ForecastWindowDays);
      RateOf(UsageByProduct(usage, now, ForecastWindowDays), k) ==
        if HasKey(w, UsageGroupOf, k)
        then Round(SumInt(w, TotalIn(UsageGroupOf, UsedMetres, k)) as real / ForecastWindowDays as real, 2)
        else 0.0
  {
    var rates := UsageByProduct(usage, now, ForecastWindowDays);
    RateOfSource(rates, k);
    RateKeysUsed(usage, now, k);
    if exists r :: r in rates && ProductKey(r) == k {
      var r :| r in rates && ProductKey(r) == k && RateOf(rates, k) == r.avgDailyMetres;
      UsageByProductEntries(usage, now, ForecastWindowDays, r);
    } else {
      forall r | r in rates ensures ProductKey(r) != k {
        var i :| 0 <= i < |rates| && rates[i] == r;
        assert RateKeys(rates)[i] == ProductKey(r);
      }
    }
  }

  /** The forecast is ordered by its sort key. */
  lemma MeshForecastsSorted(cfg: Config, inv: seq<Roll>, usage: seq<UsageRecord>, now: int)
    ensures SortedBy(MeshForecasts(cfg, inv, usage, now), ForecastLe)
  {
    var stock := StockTally(inv);
    var rates := UsageByProduct(usage, now, ForecastWindowDays);
    ForecastLeTotal();
    SortBySorted(ForecastsFor(cfg, stock, rates, ForecastKeys(stock, rates)), ForecastLe);
  }

  /**
   * Exactly one entry per (type, width, colour) that is stocked (has an
   * inventory entry) or was used inside the window; none for any other.
   */
  lemma MeshForecastsOnePerKey(cfg: Config, inv: seq<Roll>, usage: seq<UsageRecord>, now: int, k: GroupKey)
    ensures SumInt(MeshForecasts(cfg, inv, usage, now), IsFor(k)) ==
      if HasKey(inv, GroupOf, k) || HasKey(Windowed(usage, now, ForecastWindowDays), UsageGroupOf, k) then 1 else 0
  {
    var stock := StockTally(inv);
    var rates := UsageByProduct(usage, now, ForecastWindowDays);
    var fs := ForecastsFor(cfg, stock, rates, ForecastKeys(stock, rates));
    SumIntPermutation(fs, SortBy(fs, ForecastLe), IsFor(k));
    ForecastsForCount(cfg, stock, rates, ForecastKeys(stock, rates), k);
    TallyKeys(inv, GroupOf, RollQty, RollMetres);
    RateKeysUsed(usage, now, k);
  }

  /**
   * Every entry is the forecast of its key from the metres on the shelf
   * (quantity times length over the entries of that key) and the key's
   * daily rate.
   */
  lemma MeshForecastsEntries(cfg: Config, inv: seq<Roll>, usage: seq<UsageRecord>, now: int, f: MeshForecast)
    requires f in MeshForecasts(cfg, inv, usage, now)
    ensures var k := ForecastKey(f);
      f == MeshForecastFor(cfg, k, SumInt(inv, TotalIn(GroupOf, RollMetres, k)),
                           RateOf(UsageByProduct(usage, now, ForecastWindowDays), k))
  {
    var stock := StockTally(inv);
    var rates := UsageByProduct(usage, now, ForecastWindowDays);
    var fs := ForecastsFor(cfg, stock, rates, ForecastKeys(stock, rates));
    SortByMember(fs, ForecastLe, f);
    var i :| 0 <= i < |fs| && fs[i] == f;
    var k := ForecastKeys(stock, rates)[i];
    assert f == MeshForecastFor(cfg, k, TotalOf(stock, k), RateOf(rates, k));
    TallyLookup(inv, GroupOf, RollQty, RollMetres, k);
  }

  /**
   * A key used inside the window with a positive daily rate but nothing on
   * the shelf gets an entry with 0 metres, 0 days left and, for a positive
   * lead time, status CRITICAL.
   */
  lemma UsedButNotStocked(cfg: Config, inv: seq<Roll>, usage: seq<UsageRecord>, now: int, k: GroupKey)
    requires !HasKey(inv, GroupOf, k)
    requires RateOf(UsageByProduct(usage, now, ForecastWindowDays), k) > 0.0
    ensures exists f :: (f in MeshForecasts(cfg, inv, usage, now) && ForecastKey(f) == k
      && f.currentMetres == 0.0 && f.daysRemaining == Some(0.0)
      && (LeadTimeOf(cfg, k.meshType) > 0 ==> f.status == Critical))
  {
    var fs := MeshForecasts(cfg, inv, usage, now);
    RateOfUsage(usage, now, k);
    MeshForecastsOnePerKey(cfg, inv, usage, now, k);
    var i := KeyedEntry(fs, k);
    MeshForecastsEntries(cfg, inv, usage, now, fs[i]);
    SumIntZero(inv, TotalIn(GroupOf, RollMetres, k));
  }

  /** A list in which `k` has entries holds one at some index. */
  lemma {:induction false} KeyedEntry(fs: seq<MeshForecast>, k: GroupKey) returns (i: int)
    requires SumInt(fs, IsFor(k)) > 0
    ensures 0 <= i < |fs| && ForecastKey(fs[i]) == k
  {
    var init := fs[..|fs| - 1];
    if ForecastKey(fs[|fs| - 1]) == k {
      i := |fs| - 1;
    } else {
      i := KeyedEntry(init, k);
    }
  }

  // ---------------------------------------------------------------------
  // Reorder suggestions
  // ---------------------------------------------------------------------

  /** The months of stock a reorder aims for beyond the lead time. */
  const BufferMonths := 2

  datatype Suggestion = Suggestion(
    meshType: string, meshName: string, widthMm: int, colour: string, currentMetres: real,
    suggestedOrderMetres: real, reason: string, urgency: Status)

  /** The statuses that ask for a reorder. */
  predicate NeedsReorder(s: Status)
  {
    s == Critical || s == OrderNow || s == Low
  }

  /** `round(max(0, monthly * (lead + 2) - current))`: the metres to order. */
  /** Metres short of covering the lead time plus the buffer at the monthly rate. */
  function Shortfall(f: MeshForecast): real
  {
    f.avgMonthlyUsage * (f.leadTimeMonths + BufferMonths) as real - f.currentMetres
  }

  function ReorderAmount(f: MeshForecast): real
  {
    Round(Max(0.0, Shortfall(f)), 0)
  }

  /**
   * The amount is never negative; it is 0 when the stock already covers lead
   * time plus 2 months of usage, and otherwise the shortfall to within half
   * a metre.
   */
  lemma ReorderAmountBounds(f: MeshForecast)
    ensures ReorderAmount(f) >= 0.0
    ensures Shortfall(f) <= 0.0 ==> ReorderAmount(f) == 0.0
    ensures Shortfall(f) > 0.0 ==> Shortfall(f) - 0.5 <= ReorderAmount(f) <= Shortfall(f) + 0.5
  {
    RoundShortfall(Shortfall(f));
  }

  lemma RoundShortfall(x: real)
    ensures Round(Max(0.0, x), 0) >= 0.0
    ensures x <= 0.0 ==> Round(Max(0.0, x), 0) == 0.0
    ensures x > 0.0 ==> x - 0.5 <= Round(Max(0.0, x), 0) <= x + 0.5
  {
    RoundWhole(Max(0.0, x));
  }

  /** "Stock below {lead + 2} months ({status})". */
  function ReorderReason(f: MeshForecast): string
  {
    "Stock below " + IntToString(f.leadTimeMonths + BufferMonths) + " months (" + StatusName(f.status) + ")"
  }

  /**
   * The suggestion for one forecast entry: only for CRITICAL, ORDER_NOW and
   * LOW entries with a positive monthly usage, with the entry's status as
   * its urgency.
   */
  function SuggestionFor(f: MeshForecast): (s: Option<Suggestion>)
    ensures s.Some? <==> NeedsReorder(f.status) && f.avgMonthlyUsage > 0.0
  {
    if NeedsReorder(f.status) && f.avgMonthlyUsage > 0.0 then
      Some(Suggestion(f.meshType, f.meshName, f.widthMm, f.colour, f.currentMetres, ReorderAmount(f),
                      ReorderReason(f), f.status))
    else None
  }

  /** `round(x)` to a whole number stays within half a unit of `x`. */
  lemma RoundWhole(x: real)
    ensures x - 0.5 <= Round(x, 0) <= x + 0.5
  {
    assert Pow10(0) == 1;
    assert x * 1.0 == x;
  }

  /** `get_reorder_suggestions`, stated on the mesh forecast. */
  function ReorderSuggestions(cfg: Config, inv: seq<Roll>, usage: seq<UsageRecord>, now: int): seq<Suggestion>
  {
    Collect(MeshForecasts(cfg, inv, usage, now), SuggestionFor)
  }

  /** The loop of `get_reorder_suggestions`: one suggestion per entry that needs one, in forecast order. */
  method CollectSuggestions(fs: seq<MeshForecast>) returns (ss: seq<Suggestion>)
    ensures ss == Collect(fs, SuggestionFor)
  {
    ss := [];
    var i := 0;
    while i < |fs|
      invariant 0 <= i <= |fs|
      invariant ss == Collect(fs[..i], SuggestionFor)
    {
      var s := SuggestionFor(fs[i]);
      CollectPrefix(fs, SuggestionFor, i);
      if s.Some? {
        ss := ss + [s.value];
      }
      i := i + 1;
    }
    assert fs[..i] == fs;
  }

  /** A suggestion is listed exactly when some entry of the mesh forecast produces it. */
  lemma ReorderSuggestionsExact(cfg: Config, inv: seq<Roll>, usage: seq<UsageRecord>, now: int, s: Suggestion)
    ensures s in ReorderSuggestions(cfg, inv, usage, now) <==>
      exists f :: f in MeshForecasts(cfg, inv, usage, now) && SuggestionFor(f) == Some(s)
  {
    var fs := MeshForecasts(cfg, inv, usage, now);
    CollectExact(fs, SuggestionFor, s);
    if exists f :: f in fs && SuggestionFor(f) == Some(s) {
      var f :| f in fs && SuggestionFor(f) == Some(s);
      var i :| 0 <= i < |fs| && fs[i] == f;
    }
  }

  // ---------------------------------------------------------------------
  // Component forecasts
  // ---------------------------------------------------------------------

  /** Lead times in days: 14 for saddles and trims, 7 for screws and boxes. */
  const SaddleLeadDays := 14
  const TrimLeadDays := 14
  const ScrewLeadDays := 7
  const BoxLeadDays := 7

  /** The runway fields every component line carries. */
  datatype Outlook = Outlook(currentQty: int, dailyUsage: real, daysRemaining: Option<real>, status: Status)

  /** The runway of `qty` items used at `daily` a day, judged on the day ladder for `leadDays`. */
  function OutlookOf(qty: int, daily: real, leadDays: int): Outlook
  {
    var days := Runway(qty as real, daily);
    Outlook(qty, Round(daily, 1), RoundOpt(days, 0), DayStatus(days, leadDays))
  }

  /** The runway of what a coil would yield: the same figures, with the status COIL. */
  function CoilOutlook(qty: int, daily: real): Outlook
  {
    Outlook(qty, Round(daily, 1), RoundOpt(Runway(qty as real, daily), 0), CoilYield)
  }

  /**
   * No usage exactly when the rate is not positive; otherwise the status
   * says whether the stock lasts less than the lead time, less than twice
   * it, less than three times it, or longer.
   */
  lemma OutlookStatus(qty: int, daily: real, leadDays: int)
    requires leadDays >= 0
    ensures OutlookOf(qty, daily, leadDays).status == NoUsage <==> daily <= 0.0
    ensures OutlookOf(qty, daily, leadDays).daysRemaining.None? <==> daily <= 0.0
    ensures daily > 0.0 ==>
      (OutlookOf(qty, daily, leadDays).status == Critical <==> qty as real < leadDays as real * daily)
    ensures daily > 0.0 ==>
      (OutlookOf(qty, daily, leadDays).status == OrderNow <==>
        leadDays as real * daily <= qty as real < (2 * leadDays) as real * daily)
    ensures daily > 0.0 ==>
      (OutlookOf(qty, daily, leadDays).status == Low <==>
        (2 * leadDays) as real * daily <= qty as real < (3 * leadDays) as real * daily)
    ensures daily > 0.0 ==>
      (OutlookOf(qty, daily, leadDays).status == Sufficient <==> (3 * leadDays) as real * daily <= qty as real)
  {
    if daily > 0.0 {
      LadderByRate(Runway(qty as real, daily).value, qty as real, daily, leadDays);
    }
  }

  /** The day ladder on `d = q / daily`, restated on the quantity `q`. */
  lemma LadderByRate(d: real, q: real, daily: real, leadDays: int)
    requires daily > 0.0 && d * daily == q && leadDays >= 0
    ensures DayStatus(Some(d), leadDays) == Critical <==> q < leadDays as real * daily
    ensures DayStatus(Some(d), leadDays) == OrderNow <==>
      leadDays as real * daily <= q < (2 * leadDays) as real * daily
    ensures DayStatus(Some(d), leadDays) == Low <==>
      (2 * leadDays) as real * daily <= q < (3 * leadDays) as real * daily
    ensures DayStatus(Some(d), leadDays) == Sufficient <==> (3 * leadDays) as real * daily <= q
  {
    DayStatusLadder(Some(d), leadDays);
    ScaleCompare(d, leadDays as real, daily);
    ScaleCompare(d, (2 * leadDays) as real, daily);
    ScaleCompare(d, (3 * leadDays) as real, daily);
  }

  lemma ScaleCompare(d: real, c: real, daily: real)
    requires daily > 0.0
    ensures d < c <==> d * daily < c * daily
  {
    if d < c {
      assert (c - d) * daily > 0.0;
    } else {
      assert (d - c) * daily >= 0.0;
    }
  }

  /** The lines of the component forecast, one shape per kind of line. */
  datatype ComponentLine =
    | SaddleLine(saddleType: string, colour: string, outlook: Outlook)
    | SaddleCoilLine(saddleType: string, colour: string, coilWeightKg: real, outlook: Outlook)
    | ScrewLine(screwType: string, screwName: string, colour: string, outlook: Outlook)
    | TrimLine(colour: string, outlook: Outlook)
    | TrimCoilLine(colour: string, coilWeightKg: real, outlook: Outlook)
    | BoxLine(boxType: string, boxName: string, outlook: Outlook)

  /** `config.get(t, {}).get("name", t)`. */
  function NameOf(names: map<string, string>, t: string): string
  {
    if t in names then names[t] else t
  }

  /** The rate of part `p` in the summary's daily averages; 0 when the summary has none. */
  function DailyOf(avg: Option<DailyAvg>, p: Part): real
  {
    match avg
    case None => 0.0
    case Some(d) => AvgOfPart(d, p)
  }

  // Saddles

  /** Saddles a coil should yield: 66 a kilogram after 27% waste, truncated. */
  function SaddleCoilYield(c: Saddle.Coil): int
  {
    Trunc(c.currentWeightKg * 0.73 * 66.0)
  }

  function SaddleShelfLine(daily: real): Saddle.SaddleEntry -> Option<ComponentLine>
  {
    (e: Saddle.SaddleEntry) =>
      if e.quantity <= 0 then None
      else Some(SaddleLine(e.saddleType, e.colour, OutlookOf(e.quantity, daily, SaddleLeadDays)))
  }

  /** A coil is passed over when it is not in use but still has weight, or when it is a trim coil. */
  function SaddleCoilLineOf(daily: real): Saddle.Coil -> Option<ComponentLine>
  {
    (c: Saddle.Coil) =>
      if c.status != "in_use" && c.currentWeightKg > 0.0 then None
      else if c.saddleType == "trim" then None
      else if SaddleCoilYield(c) <= 0 then None
      else Some(SaddleCoilLine(c.saddleType, c.colour, c.currentWeightKg, CoilOutlook(SaddleCoilYield(c), daily)))
  }

  /** `_forecast_saddles`: every stocked shelf line (trims included), then the coils' yields. */
  function SaddleForecast(stock: seq<Saddle.SaddleEntry>, coils: seq<Saddle.Coil>, daily: real): seq<ComponentLine>
  {
    Collect(stock, SaddleShelfLine(daily)) + Collect(coils, SaddleCoilLineOf(daily))
  }

  /** A coil yields saddles only when it has weight. */
  lemma SaddleYieldNeedsWeight(c: Saddle.Coil)
    ensures SaddleCoilYield(c) > 0 <==> c.currentWeightKg * 0.73 * 66.0 >= 1.0
    ensures SaddleCoilYield(c) > 0 ==> c.currentWeightKg > 0.0
  {
  }

  /**
   * The saddle lines are the shelf entries with a positive quantity and
   * the coils that are in use, are not trim coils and would yield at least
   * one saddle: a coil that is not in use never contributes, although the
   * skip test alone lets weightless ones through.
   */
  lemma SaddleForecastLines(stock: seq<Saddle.SaddleEntry>, coils: seq<Saddle.Coil>, daily: real, l: ComponentLine)
    ensures l in SaddleForecast(stock, coils, daily) <==>
      (exists e :: e in stock && e.quantity > 0 &&
        l == SaddleLine(e.saddleType, e.colour, OutlookOf(e.quantity, daily, SaddleLeadDays))) ||
      (exists c :: c in coils && c.status == "in_use" && c.saddleType != "trim" && SaddleCoilYield(c) > 0 &&
        l == SaddleCoilLine(c.saddleType, c.colour, c.currentWeightKg, CoilOutlook(SaddleCoilYield(c), daily)))
  {
    CollectExact(stock, SaddleShelfLine(daily), l);
    CollectExact(coils, SaddleCoilLineOf(daily), l);
    if exists c :: c in coils && c.status == "in_use" && c.saddleType != "trim" && SaddleCoilYield(c) > 0 &&
        l == SaddleCoilLine(c.saddleType, c.colour, c.currentWeightKg, CoilOutlook(SaddleCoilYield(c), daily)) {
      var c :| c in coils && c.status == "in_use" && c.saddleType != "trim" && SaddleCoilYield(c) > 0 &&
        l == SaddleCoilLine(c.saddleType, c.colour, c.currentWeightKg, CoilOutlook(SaddleCoilYield(c), daily));
      var i :| 0 <= i < |coils| && coils[i] == c;
    }
    if exists e :: e in stock && e.quantity > 0 &&
        l == SaddleLine(e.saddleType, e.colour, OutlookOf(e.quantity, daily, SaddleLeadDays)) {
      var e :| e in stock && e.quantity > 0 &&
        l == SaddleLine(e.saddleType, e.colour, OutlookOf(e.quantity, daily, SaddleLeadDays));
      var i :| 0 <= i < |stock| && stock[i] == e;
    }
    if exists i :: 0 <= i < |coils| && SaddleCoilLineOf(daily)(coils[i]) == Some(l) {
      var i :| 0 <= i < |coils| && SaddleCoilLineOf(daily)(coils[i]) == Some(l);
      SaddleYieldNeedsWeight(coils[i]);
    }
  }

  // Screws

  /** The usage figure a screw type draws on; unknown types count as saddle screws. */
  function ScrewPart(screwType: string): Part
  {
    if screwType == "trim_screw" then TrimScrews
    else if screwType == "mesh_screw" then MeshScrews
    else SaddleScrews
  }

  function ScrewLineOf(names: map<string, string>, avg: Option<DailyAvg>): Screw.ScrewEntry -> Option<ComponentLine>
  {
    (e: Screw.ScrewEntry) =>
      if e.quantity <= 0 then None
      else Some(ScrewLine(e.screwType, NameOf(names, e.screwType), e.colour,
                          OutlookOf(e.quantity, DailyOf(avg, ScrewPart(e.screwType)), ScrewLeadDays)))
  }

  /** `_forecast_screws`. */
  function ScrewForecast(stock: seq<Screw.ScrewEntry>, names: map<string, string>, avg: Option<DailyAvg>)
    : seq<ComponentLine>
  {
    Collect(stock, ScrewLineOf(names, avg))
  }

  /**
   * The screw lines are the stocked entries; saddle, trim and mesh screws
   * run down at the daily rate of their own kind, any other type at the
   * saddle-screw rate.
   */
  lemma ScrewForecastLines(stock: seq<Screw.ScrewEntry>, names: map<string, string>, avg: Option<DailyAvg>,
                           l: ComponentLine)
    ensures l in ScrewForecast(stock, names, avg) <==>
      exists e :: e in stock && e.quantity > 0 && l == ScrewLine(e.screwType, NameOf(names, e.screwType), e.colour,
        OutlookOf(e.quantity, DailyOf(avg, ScrewPart(e.screwType)), ScrewLeadDays))
    ensures ScrewPart("saddle_screw") == SaddleScrews && ScrewPart("trim_screw") == TrimScrews
    ensures ScrewPart("mesh_screw") == MeshScrews
    ensures forall t :: t !in {"trim_screw", "mesh_screw"} ==> ScrewPart(t) == SaddleScrews
  {
    CollectExact(stock, ScrewLineOf(names, avg), l);
    if exists e :: e in stock && e.quantity > 0 && l == ScrewLine(e.screwType, NameOf(names, e.screwType), e.colour,
        OutlookOf(e.quantity, DailyOf(avg, ScrewPart(e.screwType)), ScrewLeadDays)) {
      var e :| e in stock && e.quantity > 0 && l == ScrewLine(e.screwType, NameOf(names, e.screwType), e.colour,
        OutlookOf(e.quantity, DailyOf(avg, ScrewPart(e.screwType)), ScrewLeadDays));
      var i :| 0 <= i < |stock| && stock[i] == e;
    }
  }

  // Trims

  /** Trims a coil should yield: 8.4 a kilogram, truncated. */
  function TrimCoilYield(c: Saddle.Coil): int
  {
    Trunc(c.currentWeightKg * 8.4)
  }

  function TrimShelfLine(daily: real): Saddle.SaddleEntry -> Option<ComponentLine>
  {
    (e: Saddle.SaddleEntry) =>
      if e.saddleType != "trim" then None
      else if e.quantity <= 0 then None
      else Some(TrimLine(e.colour, OutlookOf(e.quantity, daily, TrimLeadDays)))
  }

  /** Trim coils count whatever their status, once they have weight. */
  function TrimCoilLineOf(daily: real): Saddle.Coil -> Option<ComponentLine>
  {
    (c: Saddle.Coil) =>
      if c.saddleType != "trim" then None
      else if c.currentWeightKg <= 0.0 then None
      else if TrimCoilYield(c) <= 0 then None
      else Some(TrimCoilLine(c.colour, c.currentWeightKg, CoilOutlook(TrimCoilYield(c), daily)))
  }

  /** `_forecast_trims`: the stocked trim entries, then the trim coils' yields. */
  function TrimForecast(stock: seq<Saddle.SaddleEntry>, coils: seq<Saddle.Coil>, daily: real): seq<ComponentLine>
  {
    Collect(stock, TrimShelfLine(daily)) + Collect(coils, TrimCoilLineOf(daily))
  }

  /**
   * The trim lines are the stocked entries of type "trim" and the trim
   * coils holding enough metal for one trim (8.4 trims a kilogram).
   */
  lemma TrimForecastLines(stock: seq<Saddle.SaddleEntry>, coils: seq<Saddle.Coil>, daily: real, l: ComponentLine)
    ensures l in TrimForecast(stock, coils, daily) <==>
      (exists e :: e in stock && e.saddleType == "trim" && e.quantity > 0 &&
        l == TrimLine(e.colour, OutlookOf(e.quantity, daily, TrimLeadDays))) ||
      (exists c :: c in coils && c.saddleType == "trim" && c.currentWeightKg * 8.4 >= 1.0 &&
        l == TrimCoilLine(c.colour, c.currentWeightKg, CoilOutlook(TrimCoilYield(c), daily)))
  {
    CollectExact(stock, TrimShelfLine(daily), l);
    CollectExact(coils, TrimCoilLineOf(daily), l);
    if exists e :: e in stock && e.saddleType == "trim" && e.quantity > 0 &&
        l == TrimLine(e.colour, OutlookOf(e.quantity, daily, TrimLeadDays)) {
      var e :| e in stock && e.saddleType == "trim" && e.quantity > 0 &&
        l == TrimLine(e.colour, OutlookOf(e.quantity, daily, TrimLeadDays));
      var i :| 0 <= i < |stock| && stock[i] == e;
    }
    if exists c :: c in coils && c.saddleType == "trim" && c.currentWeightKg * 8.4 >= 1.0 &&
        l == TrimCoilLine(c.colour, c.currentWeightKg, CoilOutlook(TrimCoilYield(c), daily)) {
      var c :| c in coils && c.saddleType == "trim" && c.currentWeightKg * 8.4 >= 1.0 &&
        l == TrimCoilLine(c.colour, c.currentWeightKg, CoilOutlook(TrimCoilYield(c), daily));
      var i :| 0 <= i < |coils| && coils[i] == c;
    }
  }

  // Boxes

  /** Orders a day over the summary's period, taken as boxes a day; 0 for an empty period. */
  function DailyOrders(u: UsageSummary): real
  {
    if u.periodDays > 0 then u.orderCount as real / u.periodDays as real else 0.0
  }

  /** The share of orders each box type ships in. */
  function BoxShare(boxType: string): real
  {
    if boxType == "small_tube" then 0.5
    else if boxType == "large_tube" then 0.3
    else if boxType == "saddle_box" then 0.2
    else 0.33
  }

  /** Boxes of a type used a day: its share of the orders a day. */
  function BoxRate(dailyOrders: real, boxType: string): real
  {
    dailyOrders * BoxShare(boxType)
  }

  function BoxLineOf(names: map<string, string>, dailyOrders: real): Box.BoxEntry -> Option<ComponentLine>
  {
    (e: Box.BoxEntry) =>
      if e.quantity <= 0 then None
      else Some(BoxLine(e.boxType, NameOf(names, e.boxType),
                        OutlookOf(e.quantity, BoxRate(dailyOrders, e.boxType), BoxLeadDays)))
  }

  /** `_forecast_boxes`, given the usage summary it reads. */
  function BoxForecast(stock: seq<Box.BoxEntry>, names: map<string, string>, u: UsageSummary): seq<ComponentLine>
  {
    Collect(stock, BoxLineOf(names, DailyOrders(u)))
  }

  /** The box rate is positive exactly when the period holds orders. */
  lemma BoxRateSign(u: UsageSummary, boxType: string)
    ensures BoxRate(DailyOrders(u), boxType) > 0.0 <==> u.orderCount > 0 && u.periodDays > 0
  {
    var share := BoxShare(boxType);
    assert share > 0.0;
    if u.periodDays > 0 {
      var r := u.orderCount as real / u.periodDays as real;
      assert r * u.periodDays as real == u.orderCount as real;
      if u.orderCount > 0 {
        assert r > 0.0;
      } else {
        assert r <= 0.0;
        assert r * share <= 0.0;
      }
    }
  }

  /** The box lines are the stocked entries, each used at its type's share of the orders a day. */
  lemma BoxForecastLines(stock: seq<Box.BoxEntry>, names: map<string, string>, u: UsageSummary, l: ComponentLine)
    ensures l in BoxForecast(stock, names, u) <==>
      exists e :: e in stock && e.quantity > 0 && l == BoxLine(e.boxType, NameOf(names, e.boxType),
        OutlookOf(e.quantity, BoxRate(DailyOrders(u), e.boxType), BoxLeadDays))
  {
    CollectExact(stock, BoxLineOf(names, DailyOrders(u)), l);
    if exists e :: e in stock && e.quantity > 0 && l == BoxLine(e.boxType, NameOf(names, e.boxType),
        OutlookOf(e.quantity, BoxRate(DailyOrders(u), e.boxType), BoxLeadDays)) {
      var e :| e in stock && e.quantity > 0 && l == BoxLine(e.boxType, NameOf(names, e.boxType),
        OutlookOf(e.quantity, BoxRate(DailyOrders(u), e.boxType), BoxLeadDays));
      var i :| 0 <= i < |stock| && stock[i] == e;
    }
  }

  /** A box line reads NO_USAGE exactly when the summary's period holds no orders. */
  lemma BoxLineNoUsage(stock: seq<Box.BoxEntry>, names: map<string, string>, u: UsageSummary, l: ComponentLine)
    requires l in BoxForecast(stock, names, u)
    ensures l.outlook.status == NoUsage <==> !(u.orderCount > 0 && u.periodDays > 0)
  {
    BoxForecastLines(stock, names, u, l);
    var e :| e in stock && e.quantity > 0 && l == BoxLine(e.boxType, NameOf(names, e.boxType),
      OutlookOf(e.quantity, BoxRate(DailyOrders(u), e.boxType), BoxLeadDays));
    BoxRateSign(u, e.boxType);
    OutlookStatus(e.quantity, BoxRate(DailyOrders(u), e.boxType), BoxLeadDays);
  }

  // ---------------------------------------------------------------------
  // Order-based usage and its cache
  // ---------------------------------------------------------------------

  /** What an attempt to sync the orders came to: the kit breakdown and orders it used, or a failure. */
  datatype SyncOutcome = Synced(kitBreakdown: seq<Product>, orders: seq<Order>) | SyncFailed

  /** The all-zero summary returned when the sync fails. */
  function DegradedUsage(days: int): UsageSummary
  {
    UsageSummary([], NoTotals, 0, days, Some(DailyAvg(0.0, 0.0, 0.0, 0.0, 0.0)))
  }

  /** The summary a call hands back and the cache it leaves behind. */
  datatype UsageCall = UsageCall(usage: UsageSummary, cache: Option<UsageSummary>)

  /**
   * `get_shopify_usage`: a cached summary is returned unless a refresh is
   * forced; otherwise a successful sync is summarised over `days` and
   * cached, and a failed one yields the all-zero summary without touching
   * the cache.
   */
  function ShopifyUsage(cache: Option<UsageSummary>, days: int, forceRefresh: bool, outcome: SyncOutcome): UsageCall
  {
    if cache.Some? && !forceRefresh then UsageCall(cache.value, cache)
    else
      match outcome
      case Synced(kit, orders) =>
        var u := Summarize(kit, orders, days);
        UsageCall(u, Some(u))
      case SyncFailed => UsageCall(DegradedUsage(days), cache)
  }

  /**
   * The cache only ever holds a summary of a successful sync: it is left
   * alone or replaced by the new summary, never by the all-zero one. A
   * call that did not fail leaves its answer cached, so the next call
   * without a refresh returns the same summary whatever window it asks for.
   */
  lemma ShopifyUsageCache(cache: Option<UsageSummary>, days: int, forceRefresh: bool, outcome: SyncOutcome,
                          days2: int, outcome2: SyncOutcome)
    ensures var r := ShopifyUsage(cache, days, forceRefresh, outcome);
      r.cache == cache || (outcome.Synced? && r.cache == Some(Summarize(outcome.kitBreakdown, outcome.orders, days)))
    ensures var r := ShopifyUsage(cache, days, forceRefresh, outcome);
      outcome.SyncFailed? ==> r.cache == cache
    ensures var r := ShopifyUsage(cache, days, forceRefresh, outcome);
      (cache.Some? && !forceRefresh) || outcome.Synced? ==>
        r.cache == Some(r.usage) && ShopifyUsage(r.cache, days2, false, outcome2).usage == r.usage
  {
  }

  /** The all-zero summary: no orders, nothing used, a zero rate for every part. */
  lemma DegradedUsageZero(days: int, p: Part)
    ensures DegradedUsage(days).orderCount == 0 && DegradedUsage(days).periodDays == days
    ensures TotalOfPart(DegradedUsage(days).totals, p) == 0 && DailyOf(DegradedUsage(days).dailyAvg, p) == 0.0
    ensures DailyOrders(DegradedUsage(days)) == 0.0
  {
  }

  // ---------------------------------------------------------------------
  // The component forecast
  // ---------------------------------------------------------------------

  /** The stock the component forecast reads: the saddle, coil, screw and box files and the type names. */
  datatype ComponentData = ComponentData(
    saddleStock: seq<Saddle.SaddleEntry>, coils: seq<Saddle.Coil>,
    screwStock: seq<Screw.ScrewEntry>, screwNames: map<string, string>,
    boxStock: seq<Box.BoxEntry>, boxNames: map<string, string>)

  /** The `usage_summary` part of the component forecast. */
  datatype UsageTotals = UsageTotals(
    periodDays: int, orderCount: int, totalSaddles: int, totalSaddleScrews: int, totalTrimScrews: int,
    totalTrims: int)

  datatype ComponentForecast = ComponentForecast(
    saddles: seq<ComponentLine>, screws: seq<ComponentLine>, trims: seq<ComponentLine>,
    boxes: seq<ComponentLine>, usageSummary: UsageTotals)

  function TotalsOf(u: UsageSummary): UsageTotals
  {
    UsageTotals(u.periodDays, u.orderCount, u.totals.saddles, u.totals.saddleScrews, u.totals.trimScrews,
                u.totals.trims)
  }

  /**
   * `get_component_forecast(days)`: the usage over `days` drives the
   * saddle, screw and trim lines; the box lines ask for the usage again
   * with the default 180-day window, which the cache may answer. `first`
   * and `second` are the outcomes of the two syncs that may be attempted.
   */
  function ComponentForecastOf(d: ComponentData, cache: Option<UsageSummary>, days: int,
                               first: SyncOutcome, second: SyncOutcome): (ComponentForecast, Option<UsageSummary>)
  {
    var call := ShopifyUsage(cache, days, false, first);
    var u := call.usage;
    var boxCall := ShopifyUsage(call.cache, ForecastWindowDays, false, second);
    (ComponentForecast(
       SaddleForecast(d.saddleStock, d.coils, DailyOf(u.dailyAvg, Saddles)),
       ScrewForecast(d.screwStock, d.screwNames, u.dailyAvg),
       TrimForecast(d.saddleStock, d.coils, DailyOf(u.dailyAvg, Trims)),
       BoxForecast(d.boxStock, d.boxNames, boxCall.usage),
       TotalsOf(u)),
     boxCall.cache)
  }

  /**
   * Once a summary is cached (found there or just synced), the box lines
   * use that same summary, whatever window it covers; only when the first
   * sync failed with nothing cached do they use a fresh 180-day sync.
   */
  lemma BoxesUseCachedUsage(d: ComponentData, cache: Option<UsageSummary>, days: int,
                            first: SyncOutcome, second: SyncOutcome)
    ensures var call := ShopifyUsage(cache, days, false, first);
      call.cache.Some? ==>
        ComponentForecastOf(d, cache, days, first, second).0.boxes == BoxForecast(d.boxStock, d.boxNames, call.usage)
    ensures cache.None? && first.SyncFailed? ==>
      ComponentForecastOf(d, cache, days, first, second).0.boxes ==
        BoxForecast(d.boxStock, d.boxNames, ShopifyUsage(None, ForecastWindowDays, false, second).usage)
  {
  }

  /**
   * When neither sync succeeds and nothing is cached, no line has a
   * runway: every shelf, screw and box line reads NO_USAGE and every coil
   * line COIL, and the usage totals show no orders.
   */
  lemma ComponentForecastOffline(d: ComponentData, days: int, l: ComponentLine)
    ensures var cf := ComponentForecastOf(d, None, days, SyncFailed, SyncFailed).0;
      l in cf.saddles + cf.screws + cf.trims + cf.boxes ==>
        l.outlook.status in {NoUsage, CoilYield} && l.outlook.daysRemaining.None?
    ensures ComponentForecastOf(d, None, days, SyncFailed, SyncFailed).0.usageSummary ==
      UsageTotals(days, 0, 0, 0, 0, 0)
    ensures ComponentForecastOf(d, None, days, SyncFailed, SyncFailed).1 == None
  {
    var u, ub := DegradedUsage(days), DegradedUsage(ForecastWindowDays);
    assert ShopifyUsage(None, days, false, SyncFailed) == UsageCall(u, None);
    assert ShopifyUsage(None, ForecastWindowDays, false, SyncFailed) == UsageCall(ub, None);
    assert DailyOf(u.dailyAvg, Saddles) == 0.0 && DailyOf(u.dailyAvg, Trims) == 0.0;
    var cf := ComponentForecastOf(d, None, days, SyncFailed, SyncFailed).0;
    assert cf == ComponentForecast(
      SaddleForecast(d.saddleStock, d.coils, 0.0), ScrewForecast(d.screwStock, d.screwNames, u.dailyAvg),
      TrimForecast(d.saddleStock, d.coils, 0.0), BoxForecast(d.boxStock, d.boxNames, ub), TotalsOf(u));
    if l in cf.saddles {
      SaddleForecastLines(d.saddleStock, d.coils, 0.0, l);
    } else if l in cf.screws {
      ScrewForecastLines(d.screwStock, d.screwNames, u.dailyAvg, l);
    } else if l in cf.trims {
      TrimForecastLines(d.saddleStock, d.coils, 0.0, l);
    } else if l in cf.boxes {
      BoxForecastLines(d.boxStock, d.boxNames, ub, l);
    }
  }

  // ---------------------------------------------------------------------
  // Summary figures
  // ---------------------------------------------------------------------

  /** The look-back of the recent-usage figure. */
  const RecentDays := 30

  datatype SummaryStats = SummaryStats(
    totalRolls: int, totalMetres: real, uniqueProducts: int, usageLast30DaysMetres: real,
    criticalItems: int, lowStockItems: int, lastUpdated: Option<string>, shopifyOrdersAnalyzed: int)

  /** The (type, width, colour) products that have rolls on the shelf. */
  function StockedProducts(inv: seq<Roll>): set<GroupKey>
  {
    set r | r in inv && r.quantity > 0 :: GroupOf(r)
  }

  predicate IsUrgent(f: MeshForecast) { f.status == Critical || f.status == OrderNow }

  predicate IsLow(f: MeshForecast) { f.status == Low }

  /** `get_summary_stats`, given the forecast and the number of orders the component forecast analysed. */
  function SummaryStatsOf(inv: seq<Roll>, usage: seq<UsageRecord>, lastUpdated: Option<string>, now: int,
                          forecasts: seq<MeshForecast>, ordersAnalyzed: int): SummaryStats
  {
    SummaryStats(
      SumInt(inv, RollQty), Round(SumInt(inv, RollMetres) as real, 1), |StockedProducts(inv)|,
      Round(SumInt(Windowed(usage, now, RecentDays), UsedMetres) as real, 1),
      |Filter(forecasts, IsUrgent)|, |Filter(forecasts, IsLow)|, lastUpdated, ordersAnalyzed)
  }

  /** Products are counted once however many entries they have, and only when in stock. */
  lemma {:induction false} StockedProductsBound(inv: seq<Roll>)
    ensures |StockedProducts(inv)| <= |inv|
    ensures |StockedProducts(inv)| == 0 <==> forall r :: r in inv ==> r.quantity <= 0
  {
    if inv != [] {
      var init := inv[..|inv| - 1];
      var x := inv[|inv| - 1];
      StockedProductsBound(init);
      assert inv == init + [x];
      var extra := if x.quantity > 0 then {GroupOf(x)} else {};
      assert StockedProducts(inv) == StockedProducts(init) + extra;
    }
    if exists r :: r in inv && r.quantity > 0 {
      var r :| r in inv && r.quantity > 0;
      assert GroupOf(r) in StockedProducts(inv);
    }
  }

  /** The urgent and the low entries are told apart, so together they are at most the whole forecast. */
  lemma {:induction false} AlertCountsBound(fs: seq<MeshForecast>)
    ensures |Filter(fs, IsUrgent)| + |Filter(fs, IsLow)| <= |fs|
  {
    if fs != [] {
      AlertCountsBound(fs[..|fs| - 1]);
    }
  }

  /**
   * The summary's counts: the urgent entries are the critical and
   * order-now ones, the low entries the low ones, and the two never
   * exceed the number of forecast entries.
   */
  lemma SummaryCounts(inv: seq<Roll>, usage: seq<UsageRecord>, lastUpdated: Option<string>, now: int,
                      forecasts: seq<MeshForecast>, ordersAnalyzed: int)
    ensures var st := SummaryStatsOf(inv, usage, lastUpdated, now, forecasts, ordersAnalyzed);
      && st.criticalItems + st.lowStockItems <= |forecasts|
      && st.uniqueProducts <= |inv|
      && (forall f :: f in Filter(forecasts, IsUrgent) <==> f in forecasts && f.status in {Critical, OrderNow})
      && (forall f :: f in Filter(forecasts, IsLow) <==> f in forecasts && f.status == Low)
  {
    AlertCountsBound(forecasts);
    StockedProductsBound(inv);
    FilterMembers(forecasts, IsUrgent);
    FilterMembers(forecasts, IsLow);
  }

  // ---------------------------------------------------------------------
  // The forecaster
  // ---------------------------------------------------------------------

  lemma StockTallyPrefix(inv: seq<Roll>, i: int)
    requires 0 <= i < |inv|
    ensures StockTally(inv[..i + 1]) == Bump(StockTally(inv[..i]), GroupOf(inv[i]), RollQty(inv[i]), RollMetres(inv[i]))
  {
    assert inv[..i + 1][..i] == inv[..i];
  }

  lemma RateOfPrefix(rates: seq<ProductUsage>, j: int, k: GroupKey)
    requires 0 <= j < |rates|
    ensures RateOf(rates[..j + 1], k) ==
      if ProductKey(rates[j]) == k then rates[j].avgDailyMetres else RateOf(rates[..j], k)
  {
    assert rates[..j + 1][..j] == rates[..j];
  }

  lemma ProductRowsPrefix(t: seq<Bucket<GroupKey>>, days: int, j: int)
    requires days != 0 && 0 <= j < |t|
    ensures ProductRows(t[..j + 1], days) == ProductRows(t[..j], days) + [ProductRowOf(t[j], days)]
  {
    assert t[..j + 1][..j] == t[..j];
  }

  lemma ForecastsForPrefix(cfg: Config, stock: seq<Bucket<GroupKey>>, rates: seq<ProductUsage>, keys: seq<GroupKey>,
                           n: int)
    requires 0 <= n < |keys|
    ensures ForecastsFor(cfg, stock, rates, keys[..n + 1]) ==
      ForecastsFor(cfg, stock, rates, keys[..n]) +
        [MeshForecastFor(cfg, keys[n], TotalOf(stock, keys[n]), RateOf(rates, keys[n]))]
  {
    assert keys[..n + 1][..n] == keys[..n];
  }

  /** Everything `get_all_forecasts` returns. */
  datatype AllForecasts = AllForecasts(
    mesh: seq<MeshForecast>, components: ComponentForecast, reorderSuggestions: seq<Suggestion>,
    summary: SummaryStats)

  /**
   * The forecaster: snapshots of the data files, the configuration it
   * read once, and the cached order-based usage.
   */
  class Forecaster {
    const meshConfig: Config
    const screwNames: map<string, string>
    const boxNames: map<string, string>
    var inventory: seq<Roll>
    var usageHistory: seq<UsageRecord>
    var lastUpdated: Option<string>
    var saddleStock: seq<Saddle.SaddleEntry>
    var coils: seq<Saddle.Coil>
    var screwStock: seq<Screw.ScrewEntry>
    var boxStock: seq<Box.BoxEntry>
    var shopifyUsage: Option<UsageSummary>

    /** The stock the component forecast reads. */
    function Data(): ComponentData
      reads this
    {
      ComponentData(saddleStock, coils, screwStock, screwNames, boxStock, boxNames)
    }

    /** The data file snapshots, all but the cache. */
    function Files(): (seq<Roll>, seq<UsageRecord>, Option<string>, ComponentData)
      reads this
    {
      (inventory, usageHistory, lastUpdated, Data())
    }

    constructor (meshConfig: Config, screwNames: map<string, string>, boxNames: map<string, string>,
                 inventory: seq<Roll>, usageHistory: seq<UsageRecord>, lastUpdated: Option<string>,
                 saddleStock: seq<Saddle.SaddleEntry>, coils: seq<Saddle.Coil>,
                 screwStock: seq<Screw.ScrewEntry>, boxStock: seq<Box.BoxEntry>)
      ensures this.meshConfig == meshConfig && this.screwNames == screwNames && this.boxNames == boxNames
      ensures this.inventory == inventory && this.usageHistory == usageHistory && this.lastUpdated == lastUpdated
      ensures this.saddleStock == saddleStock && this.coils == coils
      ensures this.screwStock == screwStock && this.boxStock == boxStock
      ensures shopifyUsage == None
    {
      this.meshConfig := meshConfig;
      this.screwNames := screwNames;
      this.boxNames := boxNames;
      this.inventory := inventory;
      this.usageHistory := usageHistory;
      this.lastUpdated := lastUpdated;
      this.saddleStock := saddleStock;
      this.coils := coils;
      this.screwStock := screwStock;
      this.boxStock := boxStock;
      shopifyUsage := None;
    }

    /** `reload_data`: fresh snapshots of the data files (not the configuration) and an empty cache. */
    method ReloadData(inventory: seq<Roll>, usageHistory: seq<UsageRecord>, lastUpdated: Option<string>,
                      saddleStock: seq<Saddle.SaddleEntry>, coils: seq<Saddle.Coil>,
                      screwStock: seq<Screw.ScrewEntry>, boxStock: seq<Box.BoxEntry>)
      modifies this
      ensures this.inventory == inventory && this.usageHistory == usageHistory && this.lastUpdated == lastUpdated
      ensures this.saddleStock == saddleStock && this.coils == coils
      ensures this.screwStock == screwStock && this.boxStock == boxStock
      ensures shopifyUsage == None
    {
      this.inventory := inventory;
      this.usageHistory := usageHistory;
      this.lastUpdated := lastUpdated;
      this.saddleStock := saddleStock;
      this.coils := coils;
      this.screwStock := screwStock;
      this.boxStock := boxStock;
      shopifyUsage := None;
    }

    /** `get_shopify_usage`; `outcome` is what the sync would come to if one is attempted. */
    method GetShopifyUsage(days: int, forceRefresh: bool, outcome: SyncOutcome) returns (u: UsageSummary)
      modifies this
      ensures u == ShopifyUsage(old(shopifyUsage), days, forceRefresh, outcome).usage
      ensures shopifyUsage == ShopifyUsage(old(shopifyUsage), days, forceRefresh, outcome).cache
      ensures Files() == old(Files())
    {
      if shopifyUsage.Some? && !forceRefresh {
        return shopifyUsage.value;
      }
      match outcome
      case Synced(kit, orders) =>
        u := Summarize(kit, orders, days);
        shopifyUsage := Some(u);
      case SyncFailed =>
        u := DegradedUsage(days);
    }

    /** `get_usage_by_period`: the window is summed per period key, then sorted by key. */
    method GetUsageByPeriod(now: int, days: int, groupBy: string, bucketKey: (int, Grouping) -> string)
      returns (rows: seq<PeriodUsage>)
      ensures rows == UsageByPeriod(usageHistory, now, days, groupBy, bucketKey)
    {
      var history := usageHistory;
      var g := GroupingOf(groupBy);
      var t: seq<Bucket<string>> := [];
      var i := 0;
      while i < |history|
        invariant 0 <= i <= |history|
        invariant t == PeriodTally(history[..i], now, days, g, bucketKey)
      {
        var u := history[i];
        TallyFilterPrefix(history, InWindowOf(now - days * DaySeconds), i, PeriodOf(bucketKey, g), UsedRolls, UsedMetres);
        if u.date >= now - days * DaySeconds {
          t := Bump(t, bucketKey(u.date, g), UsedRolls(u), UsedMetres(u));
        }
        i := i + 1;
      }
      assert history[..i] == history;
      rows := SortBy(PeriodRows(t), PeriodLe);
    }

    /** `get_usage_by_product`: the window summed per product, largest first. */
    method GetUsageByProduct(now: int, days: int) returns (rows: seq<ProductUsage>)
      requires days != 0
      ensures rows == UsageByProduct(usageHistory, now, days)
    {
      var history := usageHistory;
      var t: seq<Bucket<GroupKey>> := [];
      var i := 0;
      while i < |history|
        invariant 0 <= i <= |history|
        invariant t == ProductTally(history[..i], now, days)
      {
        var u := history[i];
        TallyFilterPrefix(history, InWindowOf(now - days * DaySeconds), i, UsageGroupOf, UsedRolls, UsedMetres);
        if u.date >= now - days * DaySeconds {
          t := Bump(t, UsageGroupOf(u), UsedRolls(u), UsedMetres(u));
        }
        i := i + 1;
      }
      assert history[..i] == history;
      var result: seq<ProductUsage> := [];
      var j := 0;
      while j < |t|
        invariant 0 <= j <= |t|
        invariant result == ProductRows(t[..j], days)
      {
        ProductRowsPrefix(t, days, j);
        result := result + [ProductRowOf(t[j], days)];
        j := j + 1;
      }
      assert t[..j] == t;
      rows := SortBy(result, ByMetresDesc);
    }

    /** `calculate_stock_forecast`. */
    method CalculateStockForecast(now: int) returns (fs: seq<MeshForecast>)
      ensures fs == MeshForecasts(meshConfig, inventory, usageHistory, now)
    {
      var inv := inventory;
      var stock: seq<Bucket<GroupKey>> := [];
      var i := 0;
      while i < |inv|
        invariant 0 <= i <= |inv|
        invariant stock == StockTally(inv[..i])
      {
        StockTallyPrefix(inv, i);
        var r := inv[i];
        stock := Bump(stock, GroupOf(r), RollQty(r), RollMetres(r));
        i := i + 1;
      }
      assert inv[..i] == inv;
      var rates := GetUsageByProduct(now, ForecastWindowDays);
      var daily: map<GroupKey, real> := map[];
      var j := 0;
      while j < |rates|
        invariant 0 <= j <= |rates|
        invariant forall k :: RateOf(rates[..j], k) == if k in daily then daily[k] else 0.0
      {
        forall k | true
          ensures RateOf(rates[..j + 1], k) ==
            if ProductKey(rates[j]) == k then rates[j].avgDailyMetres else RateOf(rates[..j], k)
        {
          RateOfPrefix(rates, j, k);
        }
        daily := daily[ProductKey(rates[j]) := rates[j].avgDailyMetres];
        j := j + 1;
      }
      assert rates[..j] == rates;
      var keys := ForecastKeys(stock, rates);
      var out: seq<MeshForecast> := [];
      var n := 0;
      while n < |keys|
        invariant 0 <= n <= |keys|
        invariant out == ForecastsFor(meshConfig, stock, rates, keys[..n])
      {
        var k := keys[n];
        ForecastsForPrefix(meshConfig, stock, rates, keys, n);
        out := out + [MeshForecastFor(meshConfig, k, TotalOf(stock, k), if k in daily then daily[k] else 0.0)];
        n := n + 1;
      }
      assert keys[..n] == keys;
      fs := SortBy(out, ForecastLe);
    }

    /** `get_reorder_suggestions`. */
    method GetReorderSuggestions(now: int) returns (ss: seq<Suggestion>)
      ensures ss == ReorderSuggestions(meshConfig, inventory, usageHistory, now)
    {
      var fs := CalculateStockForecast(now);
      ss := CollectSuggestions(fs);
    }

    /** `_forecast_saddles`. */
    method ForecastSaddles(daily: real) returns (lines: seq<ComponentLine>)
      ensures lines == SaddleForecast(saddleStock, coils, daily)
    {
      lines := [];
      var i := 0;
      while i < |saddleStock|
        invariant 0 <= i <= |saddleStock|
        invariant lines == Collect(saddleStock[..i], SaddleShelfLine(daily))
      {
        CollectPrefix(saddleStock, SaddleShelfLine(daily), i);
        var e := saddleStock[i];
        if e.quantity > 0 {
          lines := lines + [SaddleLine(e.saddleType, e.colour, OutlookOf(e.quantity, daily, SaddleLeadDays))];
        }
        i := i + 1;
      }
      assert saddleStock[..i] == saddleStock;
      var shelf := lines;
      var j := 0;
      while j < |coils|
        invariant 0 <= j <= |coils|
        invariant lines == shelf + Collect(coils[..j], SaddleCoilLineOf(daily))
      {
        CollectPrefix(coils, SaddleCoilLineOf(daily), j);
        var c := coils[j];
        if !(c.status != "in_use" && c.currentWeightKg > 0.0) && c.saddleType != "trim" {
          var estimated := SaddleCoilYield(c);
          if estimated > 0 {
            lines := lines + [SaddleCoilLine(c.saddleType, c.colour, c.currentWeightKg, CoilOutlook(estimated, daily))];
          }
        }
        j := j + 1;
      }
      assert coils[..j] == coils;
    }

    /** `_forecast_screws`, given the summary's daily averages. */
    method ForecastScrews(avg: Option<DailyAvg>) returns (lines: seq<ComponentLine>)
      ensures lines == ScrewForecast(screwStock, screwNames, avg)
    {
      lines := [];
      var i := 0;
      while i < |screwStock|
        invariant 0 <= i <= |screwStock|
        invariant lines == Collect(screwStock[..i], ScrewLineOf(screwNames, avg))
      {
        CollectPrefix(screwStock, ScrewLineOf(screwNames, avg), i);
        var e := screwStock[i];
        if e.quantity > 0 {
          var daily := DailyOf(avg, ScrewPart(e.screwType));
          lines := lines + [ScrewLine(e.screwType, NameOf(screwNames, e.screwType), e.colour,
                                      OutlookOf(e.quantity, daily, ScrewLeadDays))];
        }
        i := i + 1;
      }
      assert screwStock[..i] == screwStock;
    }

    /** `_forecast_trims`. */
    method ForecastTrims(daily: real) returns (lines: seq<ComponentLine>)
      ensures lines == TrimForecast(saddleStock, coils, daily)
    {
      lines := [];
      var i := 0;
      while i < |saddleStock|
        invariant 0 <= i <= |saddleStock|
        invariant lines == Collect(saddleStock[..i], TrimShelfLine(daily))
      {
        CollectPrefix(saddleStock, TrimShelfLine(daily), i);
        var e := saddleStock[i];
        if e.saddleType == "trim" && e.quantity > 0 {
          lines := lines + [TrimLine(e.colour, OutlookOf(e.quantity, daily, TrimLeadDays))];
        }
        i := i + 1;
      }
      assert saddleStock[..i] == saddleStock;
      var shelf := lines;
      var j := 0;
      while j < |coils|
        invariant 0 <= j <= |coils|
        invariant lines == shelf + Collect(coils[..j], TrimCoilLineOf(daily))
      {
        CollectPrefix(coils, TrimCoilLineOf(daily), j);
        var c := coils[j];
        if c.saddleType == "trim" && c.currentWeightKg > 0.0 {
          var estimated := TrimCoilYield(c);
          if estimated > 0 {
            lines := lines + [TrimCoilLine(c.colour, c.currentWeightKg, CoilOutlook(estimated, daily))];
          }
        }
        j := j + 1;
      }
      assert coils[..j] == coils;
    }

    /** `_forecast_boxes`: reads the usage with the default window, which the cache may answer. */
    method ForecastBoxes(outcome: SyncOutcome) returns (lines: seq<ComponentLine>)
      modifies this
      ensures lines == BoxForecast(boxStock, boxNames,
                                   ShopifyUsage(old(shopifyUsage), ForecastWindowDays, false, outcome).usage)
      ensures shopifyUsage == ShopifyUsage(old(shopifyUsage), ForecastWindowDays, false, outcome).cache
      ensures Files() == old(Files())
    {
      var usage := GetShopifyUsage(ForecastWindowDays, false, outcome);
      var dailyOrders := DailyOrders(usage);
      lines := [];
      var i := 0;
      label Synced:
      while i < |boxStock|
        invariant 0 <= i <= |boxStock|
        invariant unchanged@Synced(this)
        invariant lines == Collect(boxStock[..i], BoxLineOf(boxNames, dailyOrders))
      {
        CollectPrefix(boxStock, BoxLineOf(boxNames, dailyOrders), i);
        var e := boxStock[i];
        if e.quantity > 0 {
          lines := lines + [BoxLine(e.boxType, NameOf(boxNames, e.boxType),
                                    OutlookOf(e.quantity, BoxRate(dailyOrders, e.boxType), BoxLeadDays))];
        }
        i := i + 1;
      }
      assert boxStock[..i] == boxStock;
    }

    /** `get_component_forecast`; `first` and `second` are the outcomes of the syncs it may attempt. */
    method GetComponentForecast(days: int, first: SyncOutcome, second: SyncOutcome) returns (cf: ComponentForecast)
      modifies this
      ensures cf == ComponentForecastOf(Data(), old(shopifyUsage), days, first, second).0
      ensures shopifyUsage == ComponentForecastOf(Data(), old(shopifyUsage), days, first, second).1
      ensures Files() == old(Files())
    {
      var usage := GetShopifyUsage(days, false, first);
      var saddles := ForecastSaddles(DailyOf(usage.dailyAvg, Saddles));
      var screws := ForecastScrews(usage.dailyAvg);
      var trims := ForecastTrims(DailyOf(usage.dailyAvg, Trims));
      var boxes := ForecastBoxes(second);
      cf := ComponentForecast(saddles, screws, trims, boxes, TotalsOf(usage));
    }

    /** `get_summary_stats`: reads the mesh forecast and a 180-day component forecast. */
    method GetSummaryStats(now: int, first: SyncOutcome, second: SyncOutcome) returns (st: SummaryStats)
      modifies this
      ensures var c := ComponentForecastOf(Data(), old(shopifyUsage), ForecastWindowDays, first, second);
        && st == SummaryStatsOf(inventory, usageHistory, lastUpdated, now,
                                MeshForecasts(meshConfig, inventory, usageHistory, now), c.0.usageSummary.orderCount)
        && shopifyUsage == c.1
      ensures Files() == old(Files())
    {
      var forecasts := CalculateStockForecast(now);
      var cf := GetComponentForecast(ForecastWindowDays, first, second);
      st := SummaryStatsOf(inventory, usageHistory, lastUpdated, now, forecasts, cf.usageSummary.orderCount);
    }

    /**
     * `get_all_forecasts`: the mesh forecast, a component forecast, the
     * reorder suggestions and the summary, whose own component forecast
     * runs against the cache the first one left.
     */
    method GetAllForecasts(now: int, s1: SyncOutcome, s2: SyncOutcome, s3: SyncOutcome, s4: SyncOutcome)
      returns (all: AllForecasts)
      modifies this
      ensures var c1 := ComponentForecastOf(Data(), old(shopifyUsage), ForecastWindowDays, s1, s2);
        var c2 := ComponentForecastOf(Data(), c1.1, ForecastWindowDays, s3, s4);
        && all.mesh == MeshForecasts(meshConfig, inventory, usageHistory, now)
        && all.components == c1.0
        && all.reorderSuggestions == ReorderSuggestions(meshConfig, inventory, usageHistory, now)
        && all.summary == SummaryStatsOf(inventory, usageHistory, lastUpdated, now, all.mesh,
                                         c2.0.usageSummary.orderCount)
        && shopifyUsage == c2.1
      ensures Files() == old(Files())
    {
      var mesh := CalculateStockForecast(now);
      var components := GetComponentForecast(ForecastWindowDays, s1, s2);
      var suggestions := GetReorderSuggestions(now);
      var summary := GetSummaryStats(now, s3, s4);
      all := AllForecasts(mesh, components, suggestions, summary);
    }
  }

  /**
   * Within one `get_all_forecasts`, the summary reports the same number
   * of analysed orders as the component forecast whenever that forecast's
   * own usage request was answered from the cache or by a successful sync.
   */
  lemma AllForecastsAgree(d: ComponentData, cache: Option<UsageSummary>,
                          s1: SyncOutcome, s2: SyncOutcome, s3: SyncOutcome, s4: SyncOutcome)
    requires cache.Some? || s1.Synced?
    ensures var c1 := ComponentForecastOf(d, cache, ForecastWindowDays, s1, s2);
      ComponentForecastOf(d, c1.1, ForecastWindowDays, s3, s4).0.usageSummary.orderCount ==
        c1.0.usageSummary.orderCount
  {
    ShopifyUsageCache(cache, ForecastWindowDays, false, s1, ForecastWindowDays, s2);
  }
}
