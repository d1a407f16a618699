/**
 * The pure part of the order sync: turning fetched order nodes into orders,
 * matching an order line to a kit in the component breakdown, adding up the
 * components the shipped orders used, and deciding whether the cached
 * orders are fresh enough to skip the network.  The network itself is a
 * parameter: the order nodes that the paging loop would have collected.
 */
module ShopifySync {
  import opened Builtins
  import opened Collections

  /** How long a synced order list stays fresh, in seconds. */
  const HourSeconds := 3600

  /** The width a mesh component gets when the breakdown does not say. */
  const DefaultMeshWidthMm := 250

  // ---------------------------------------------------------------------
  // Orders
  // ---------------------------------------------------------------------

  datatype LineItem = LineItem(title: string, variant: string, quantity: int, sku: Option<string>)

  datatype Order = Order(orderNumber: string, createdAt: string, status: string, lineItems: seq<LineItem>)

  /** The GraphQL shapes `_parse_order` reads; a variant object may be null or lack its title. */
  datatype VariantNode = VariantNode(title: Option<string>)

  datatype ItemNode = ItemNode(title: string, variant: Option<VariantNode>, quantity: int, sku: Option<string>)

  datatype OrderNode = OrderNode(name: string, createdAt: string, displayFulfillmentStatus: string,
                                 lineItems: seq<ItemNode>)

  /** The variant title of a line, `""` when the variant or its title is missing. */
  function VariantTitle(v: Option<VariantNode>): (t: string)
    ensures v.None? ==> t == ""
    ensures v.Some? && v.value.title.None? ==> t == ""
    ensures v.Some? && v.value.title.Some? ==> t == v.value.title.value
  {
    match v
    case None => ""
    case Some(n) => n.title.GetOr("")
  }

  function ParseItem(n: ItemNode): LineItem
  {
    LineItem(n.title, VariantTitle(n.variant), n.quantity, n.sku)
  }

  /**
   * `_parse_order`: the order number is the name with every `#` dropped
   * and the other characters kept in order (`RemoveCharPositions`), and
   * each line of the node becomes one line item, in order, with its title,
   * quantity and sku copied and its variant title read by `VariantTitle`.
   */
  function ParseOrder(n: OrderNode): (o: Order)
    ensures o.orderNumber == RemoveChar(n.name, '#')
    ensures '#' !in o.orderNumber
    ensures forall c :: c in n.name && c != '#' ==> c in o.orderNumber
    ensures |o.orderNumber| == |n.name| - Occurrences(n.name, '#')
    ensures o.createdAt == n.createdAt && o.status == n.displayFulfillmentStatus
    ensures |o.lineItems| == |n.lineItems|
    ensures forall k :: 0 <= k < |n.lineItems| ==>
      && o.lineItems[k].title == n.lineItems[k].title
      && o.lineItems[k].quantity == n.lineItems[k].quantity
      && o.lineItems[k].sku == n.lineItems[k].sku
      && o.lineItems[k].variant == VariantTitle(n.lineItems[k].variant)
  {
    Order(RemoveChar(n.name, '#'), n.createdAt, n.displayFulfillmentStatus,
          seq(|n.lineItems|, k requires 0 <= k < |n.lineItems| => ParseItem(n.lineItems[k])))
  }

  // ---------------------------------------------------------------------
  // The kit component breakdown
  // ---------------------------------------------------------------------

  datatype MeshPart = MeshPart(widthMm: Option<int>, lengthM: Option<int>)

  /** The components of one kit; a count the breakdown leaves out is 0. */
  datatype Components = Components(
    mesh: Option<MeshPart>, saddles: int, saddleScrews: int, trimScrews: int, meshScrews: int, trims: int)

  datatype Variant = Variant(size: string, components: Components)

  datatype Product = Product(productName: string, variants: seq<Variant>)

  /** The terms `_product_matches` looks for in both names. */
  const KeyTerms: seq<string> := ["corrugated", "trimdek", "klip-lok", "tiled", "valley", "box gutter", "ember"]

  function MatchesFrom(order: string, product: string, terms: seq<string>): bool
  {
    if terms == [] then false
    else (Contains(order, terms[0]) && Contains(product, terms[0])) || MatchesFrom(order, product, terms[1..])
  }

  lemma {:induction false} MatchesFromIff(order: string, product: string, terms: seq<string>)
    ensures MatchesFrom(order, product, terms) <==> exists t :: t in terms && Contains(order, t) && Contains(product, t)
  {
    if terms != [] {
      var t0, rest := terms[0], terms[1..];
      MatchesFromIff(order, product, rest);
      if Contains(order, t0) && Contains(product, t0) {
        assert t0 in terms;
      } else if MatchesFrom(order, product, rest) {
        var t :| t in rest && Contains(order, t) && Contains(product, t);
        assert t in terms;
      } else {
        forall t | t in terms ensures !(Contains(order, t) && Contains(product, t)) {
          if t != t0 {
            assert t in rest;
          }
        }
      }
    }
  }

  /** `_product_matches`: the scan over the key terms, stopping at the first one found in both names. */
  function ProductMatches(orderTitle: string, productName: string): bool
  {
    MatchesFrom(Lower(orderTitle), Lower(productName), KeyTerms)
  }

  /** A title and a product name match exactly when some key term occurs in both, lowercased. */
  lemma ProductMatchesIff(orderTitle: string, productName: string)
    ensures ProductMatches(orderTitle, productName) <==>
      exists t :: t in KeyTerms && Contains(Lower(orderTitle), t) && Contains(Lower(productName), t)
  {
    MatchesFromIff(Lower(orderTitle), Lower(productName), KeyTerms);
  }

  /** How a size is compared: lowercased with the spaces removed. */
  function NormalSize(s: string): (r: string)
    ensures ' ' !in r
  {
    RemoveChar(Lower(s), ' ')
  }

  /**
   * The size `_get_components_for_product` reads from a variant title such
   * as "50m / Monument": the text before the first "/", stripped, kept only
   * when its lowercase form holds an "m".
   */
  function ParseSize(variant: string): (size: Option<string>)
    ensures variant == "" ==> size.None?
    ensures size.Some? ==> 'm' in size.value && ' ' !in size.value && '/' !in size.value
    ensures size.Some? ==> size.value == NormalSize(Strip(BeforeFirst(variant, '/')))
  {
    if variant == "" then None
    else
      var part := Strip(BeforeFirst(variant, '/'));
      if 'm' in Lower(part) then
        assert forall c :: c in part ==> c != '/';
        assert forall c :: c in Lower(part) ==> c != '/';
        Some(NormalSize(part))
      else None
  }

  /** The variant whose size equals the parsed one. */
  function SizeMatches(size: Option<string>): Variant -> bool
  {
    (v: Variant) => size.Some? && NormalSize(v.size) == size.value
  }

  /** A product `_get_components_for_product` can answer from: it matches the title and has variants. */
  predicate Serves(p: Product, title: string)
  {
    ProductMatches(title, p.productName) && p.variants != []
  }

  /** The variant chosen inside one serving product: the first of the parsed size, else the first one. */
  function PickVariant(variants: seq<Variant>, size: Option<string>): (v: Variant)
    requires variants != []
    ensures v in variants
    ensures (exists i :: 0 <= i < |variants| && SizeMatches(size)(variants[i])) ==>
      exists i :: 0 <= i < |variants| && v == variants[i] && SizeMatches(size)(variants[i])
        && forall j :: 0 <= j < i ==> !SizeMatches(size)(variants[j])
    ensures !(exists i :: 0 <= i < |variants| && SizeMatches(size)(variants[i])) ==> v == variants[0]
  {
    match FirstIndex(variants, SizeMatches(size))
    case Some(i) => variants[i]
    case None => variants[0]
  }

  /**
   * `_get_components_for_product`: the components of the first product
   * that matches the title and has variants, using the variant of the
   * parsed size or else its first variant; `None` when no product serves.
   */
  function ComponentsFor(products: seq<Product>, title: string, variant: string): Option<Components>
  {
    if products == [] then None
    else if Serves(products[0], title) then Some(PickVariant(products[0].variants, ParseSize(variant)).components)
    else ComponentsFor(products[1..], title, variant)
  }

  /**
   * The lookup answers `None` exactly when no product serves the title;
   * otherwise it answers from the first product that does.
   */
  lemma {:induction false} ComponentsForSpec(products: seq<Product>, title: string, variant: string)
    ensures var r := ComponentsFor(products, title, variant);
      && (r.None? <==> forall i :: 0 <= i < |products| ==> !Serves(products[i], title))
      && (r.Some? ==> exists i :: (0 <= i < |products| && FirstServing(products, title, i)
            && r.value == PickVariant(products[i].variants, ParseSize(variant)).components))
  {
    if products != [] && !Serves(products[0], title) {
      var rest := products[1..];
      ComponentsForSpec(rest, title, variant);
      assert forall i :: 1 <= i < |products| ==> products[i] == rest[i - 1];
      var r := ComponentsFor(rest, title, variant);
      if r.Some? {
        var i :| 0 <= i < |rest| && FirstServing(rest, title, i)
          && r.value == PickVariant(rest[i].variants, ParseSize(variant)).components;
        assert FirstServing(products, title, i + 1);
      }
    } else if products != [] {
      assert FirstServing(products, title, 0);
    }
  }

  /** Product `i` is the first one that serves the title. */
  predicate FirstServing(products: seq<Product>, title: string, i: int)
  {
    0 <= i < |products| && Serves(products[i], title) && forall j :: 0 <= j < i ==> !Serves(products[j], title)
  }

  // ---------------------------------------------------------------------
  // Component usage
  // ---------------------------------------------------------------------

  /** The five component counts the usage summary adds up. */
  datatype Part = Saddles | SaddleScrews | TrimScrews | MeshScrews | Trims

  function CountOfPart(c: Components, p: Part): int
  {
    match p
    case Saddles => c.saddles
    case SaddleScrews => c.saddleScrews
    case TrimScrews => c.trimScrews
    case MeshScrews => c.meshScrews
    case Trims => c.trims
  }

  datatype Totals = Totals(saddles: int, saddleScrews: int, trimScrews: int, meshScrews: int, trims: int)

  function TotalOfPart(t: Totals, p: Part): int
  {
    match p
    case Saddles => t.saddles
    case SaddleScrews => t.saddleScrews
    case TrimScrews => t.trimScrews
    case MeshScrews => t.meshScrews
    case Trims => t.trims
  }

  datatype DailyAvg = DailyAvg(saddles: real, saddleScrews: real, trimScrews: real, meshScrews: real, trims: real)

  function AvgOfPart(d: DailyAvg, p: Part): real
  {
    match p
    case Saddles => d.saddles
    case SaddleScrews => d.saddleScrews
    case TrimScrews => d.trimScrews
    case MeshScrews => d.meshScrews
    case Trims => d.trims
  }

  /** One entry of the summary's `mesh` list: the metres one order line asked for. */
  datatype MeshDemand = MeshDemand(widthMm: int, lengthM: int)

  /** What `calculate_component_usage` returns; `dailyAvg` is absent when `days` is not positive. */
  datatype UsageSummary = UsageSummary(
    mesh: seq<MeshDemand>, totals: Totals, orderCount: int, periodDays: int, dailyAvg: Option<DailyAvg>)

  /** The running state of the summing loop. */
  datatype Acc = Acc(mesh: seq<MeshDemand>, totals: Totals)

  const NoTotals := Totals(0, 0, 0, 0, 0)

  /** The five counts of a kit, each times `q`. */
  function Scale(c: Components, q: int): (t: Totals)
    ensures forall p :: TotalOfPart(t, p) == CountOfPart(c, p) * q
  {
    Totals(c.saddles * q, c.saddleScrews * q, c.trimScrews * q, c.meshScrews * q, c.trims * q)
  }

  function Plus(t: Totals, u: Totals): (r: Totals)
    ensures forall p :: TotalOfPart(r, p) == TotalOfPart(t, p) + TotalOfPart(u, p)
  {
    Totals(t.saddles + u.saddles, t.saddleScrews + u.saddleScrews, t.trimScrews + u.trimScrews,
           t.meshScrews + u.meshScrews, t.trims + u.trims)
  }

  /** The mesh record of a kit ordered `q` times: width defaulting to 250, length times `q`. */
  function DemandOf(m: MeshPart, q: int): MeshDemand
  {
    MeshDemand(m.widthMm.GetOr(DefaultMeshWidthMm), m.lengthM.GetOr(0) * q)
  }

  /** One order line added to the running state. */
  function AddLine(products: seq<Product>, a: Acc, item: LineItem): Acc
  {
    match ComponentsFor(products, item.title, item.variant)
    case None => a
    case Some(c) =>
      var mesh := match c.mesh
        case None => a.mesh
        case Some(m) => a.mesh + [DemandOf(m, item.quantity)];
      Acc(mesh, Plus(a.totals, Scale(c, item.quantity)))
  }

  /** The loop over the lines `items`, in order. */
  function Accumulate(products: seq<Product>, items: seq<LineItem>): Acc
  {
    if items == [] then Acc([], NoTotals)
    else AddLine(products, Accumulate(products, items[..|items| - 1]), items[|items| - 1])
  }

  /** Every line of every order, order by order. */
  function LinesOf(orders: seq<Order>): seq<LineItem>
  {
    if orders == [] then [] else LinesOf(orders[..|orders| - 1]) + orders[|orders| - 1].lineItems
  }

  lemma AccumulateSnoc(products: seq<Product>, items: seq<LineItem>, x: LineItem)
    ensures Accumulate(products, items + [x]) == AddLine(products, Accumulate(products, items), x)
  {
    assert (items + [x])[..|items|] == items;
  }

  /** The inner loop of `calculate_component_usage`: the lines of one order added to the running state. */
  method AddOrderLines(products: seq<Product>, ghost done: seq<LineItem>, acc0: Acc, lines: seq<LineItem>)
    returns (acc: Acc)
    requires acc0 == Accumulate(products, done)
    ensures acc == Accumulate(products, done + lines)
  {
    acc := acc0;
    var j := 0;
    assert done + lines[..0] == done;
    while j < |lines|
      invariant 0 <= j <= |lines|
      invariant acc == Accumulate(products, done + lines[..j])
    {
      AccumulateSnoc(products, done + lines[..j], lines[j]);
      assert done + lines[..j + 1] == done + lines[..j] + [lines[j]];
      acc := AddLine(products, acc, lines[j]);
      j := j + 1;
    }
    assert lines[..j] == lines;
  }

  lemma LinesOfSnoc(orders: seq<Order>, i: int)
    requires 0 <= i < |orders|
    ensures LinesOf(orders[..i + 1]) == LinesOf(orders[..i]) + orders[i].lineItems
  {
    assert orders[..i + 1][..i] == orders[..i];
  }

  /** The summary of `orders` over a window of `days`. */
  function Summarize(products: seq<Product>, orders: seq<Order>, days: int): UsageSummary
  {
    var a := Accumulate(products, LinesOf(orders));
    var t := a.totals;
    UsageSummary(a.mesh, t, |orders|, days,
      if days > 0 then Some(AverageOver(t, days)) else None)
  }

  /** Each total spread evenly over `days` days. */
  function AverageOver(t: Totals, days: int): (d: DailyAvg)
    requires days > 0
    ensures forall p :: AvgOfPart(d, p) * days as real == TotalOfPart(t, p) as real
  {
    var n := days as real;
    DailyAvg(t.saddles as real / n, t.saddleScrews as real / n, t.trimScrews as real / n,
             t.meshScrews as real / n, t.trims as real / n)
  }

  /** What one line adds to the total of component `p`: its count times the line quantity, 0 when unmatched. */
  function Contribution(products: seq<Product>, p: Part): LineItem -> int
  {
    (item: LineItem) =>
      match ComponentsFor(products, item.title, item.variant)
      case None => 0
      case Some(c) => CountOfPart(c, p) * item.quantity
  }

  /** The lines that add a mesh record: matched, with a mesh component. */
  function AddsMesh(products: seq<Product>): LineItem -> bool
  {
    (item: LineItem) =>
      var c := ComponentsFor(products, item.title, item.variant);
      c.Some? && c.value.mesh.Some?
  }

  function MeshDemandOf(products: seq<Product>, item: LineItem): MeshDemand
    requires AddsMesh(products)(item)
  {
    DemandOf(ComponentsFor(products, item.title, item.variant).value.mesh.value, item.quantity)
  }

  /**
   * Each component total is the sum, over all lines, of the component
   * count times the line quantity; unmatched lines add nothing.
   */
  lemma {:induction false} AccumulateTotals(products: seq<Product>, items: seq<LineItem>, p: Part)
    ensures TotalOfPart(Accumulate(products, items).totals, p) == SumInt(items, Contribution(products, p))
  {
    if items != [] {
      AccumulateTotals(products, items[..|items| - 1], p);
    }
  }

  /**
   * The mesh list holds one record per matched line with a mesh component,
   * in line order, with the width defaulting to 250 and the length scaled
   * by the line quantity.
   */
  lemma {:induction false} AccumulateMesh(products: seq<Product>, items: seq<LineItem>)
    ensures var mesh, f := Accumulate(products, items).mesh, Filter(items, AddsMesh(products));
      && |mesh| == |f|
      && forall k :: 0 <= k < |mesh| ==> AddsMesh(products)(f[k]) && mesh[k] == MeshDemandOf(products, f[k])
  {
    if items != [] {
      var init := items[..|items| - 1];
      var x := items[|items| - 1];
      AccumulateMesh(products, init);
      var a := Accumulate(products, init);
      assert Accumulate(products, items) == AddLine(products, a, x);
    }
  }

  /** `calculate_component_usage`'s counts and averages, stated on the summary of a given order list. */
  lemma SummarizeShape(products: seq<Product>, orders: seq<Order>, days: int, p: Part)
    ensures Summarize(products, orders, days).orderCount == |orders|
    ensures Summarize(products, orders, days).periodDays == days
    ensures Summarize(products, orders, days).dailyAvg.Some? <==> days > 0
    ensures days > 0 ==>
      AvgOfPart(Summarize(products, orders, days).dailyAvg.value, p) * days as real
        == TotalOfPart(Summarize(products, orders, days).totals, p) as real
  {
  }

  /** Each component total of the summary sums, over all lines of all orders, what the line contributes. */
  lemma SummarizeTotals(products: seq<Product>, orders: seq<Order>, days: int, p: Part)
    ensures TotalOfPart(Summarize(products, orders, days).totals, p)
         == SumInt(LinesOf(orders), Contribution(products, p))
  {
    AccumulateTotals(products, LinesOf(orders), p);
  }

  /** Lines with a non-negative quantity and component counts give non-negative totals. */
  lemma TotalsNonneg(products: seq<Product>, orders: seq<Order>, days: int, p: Part)
    requires forall i :: 0 <= i < |LinesOf(orders)| ==> LinesOf(orders)[i].quantity >= 0
    requires forall i, j :: 0 <= i < |products| && 0 <= j < |products[i].variants| ==>
      CountOfPart(products[i].variants[j].components, p) >= 0
    ensures TotalOfPart(Summarize(products, orders, days).totals, p) >= 0
  {
    var items := LinesOf(orders);
    AccumulateTotals(products, items, p);
    forall i | 0 <= i < |items| ensures Contribution(products, p)(items[i]) >= 0 {
      ContributionNonneg(products, items[i], p);
    }
    SumIntNonneg(items, Contribution(products, p));
    assert Summarize(products, orders, days).totals == Accumulate(products, items).totals;
  }

  /** A matched line gets the components of some variant of some product of the breakdown. */
  lemma ComponentsFromVariant(products: seq<Product>, title: string, variant: string)
    ensures var c := ComponentsFor(products, title, variant);
      c.Some? ==> exists i, j :: (0 <= i < |products| && 0 <= j < |products[i].variants|
        && c.value == products[i].variants[j].components)
  {
    var c := ComponentsFor(products, title, variant);
    ComponentsForSpec(products, title, variant);
    if c.Some? {
      var k :| 0 <= k < |products| && FirstServing(products, title, k)
        && c.value == PickVariant(products[k].variants, ParseSize(variant)).components;
      var v := PickVariant(products[k].variants, ParseSize(variant));
      var j :| 0 <= j < |products[k].variants| && products[k].variants[j] == v;
    }
  }

  lemma ContributionNonneg(products: seq<Product>, item: LineItem, p: Part)
    requires item.quantity >= 0
    requires forall i, j :: 0 <= i < |products| && 0 <= j < |products[i].variants| ==>
      CountOfPart(products[i].variants[j].components, p) >= 0
    ensures Contribution(products, p)(item) >= 0
  {
    ComponentsFromVariant(products, item.title, item.variant);
    var c := ComponentsFor(products, item.title, item.variant);
    if c.Some? {
      var i, j :| 0 <= i < |products| && 0 <= j < |products[i].variants|
        && c.value == products[i].variants[j].components;
      assert CountOfPart(c.value, p) >= 0;
    }
  }

  // ---------------------------------------------------------------------
  // The sync object: the cached order list and its freshness
  // ---------------------------------------------------------------------

  /**
   * `ShopifySync` with its loaded breakdown and cache.  `lastSynced` is
   * `None` when the cache has no (or an empty) `last_synced`; times are
   * seconds.
   */
  class Syncer {
    const kitBreakdown: seq<Product>
    var cachedOrders: seq<Order>
    var lastSynced: Option<int>
    var totalOrders: int
    var daysFetched: int

    constructor (kitBreakdown: seq<Product>, cachedOrders: seq<Order>, lastSynced: Option<int>,
                 totalOrders: int, daysFetched: int)
      ensures this.kitBreakdown == kitBreakdown && this.cachedOrders == cachedOrders
      ensures this.lastSynced == lastSynced && this.totalOrders == totalOrders && this.daysFetched == daysFetched
    {
      this.kitBreakdown := kitBreakdown;
      this.cachedOrders := cachedOrders;
      this.lastSynced := lastSynced;
      this.totalOrders := totalOrders;
      this.daysFetched := daysFetched;
    }

    /** The cache is served when no refresh is forced and the last sync is less than an hour old. */
    predicate CacheFresh(forceRefresh: bool, now: int)
      reads this
    {
      !forceRefresh && lastSynced.Some? && now - lastSynced.value < HourSeconds
    }

    /**
     * `fetch_orders`: the cached orders while they are fresh; otherwise the
     * orders parsed from `nodes` (what the paging loop received), which
     * then replace the cache, stamped with `now`.
     */
    method FetchOrders(days: int, forceRefresh: bool, now: int, nodes: seq<OrderNode>) returns (orders: seq<Order>)
      modifies this
      ensures old(CacheFresh(forceRefresh, now)) ==>
        orders == old(cachedOrders) && unchanged(this)
      ensures !old(CacheFresh(forceRefresh, now)) ==>
        && |orders| == |nodes| && (forall k :: 0 <= k < |nodes| ==> orders[k] == ParseOrder(nodes[k]))
        && cachedOrders == orders && lastSynced == Some(now)
        && totalOrders == |nodes| && daysFetched == days
    {
      if CacheFresh(forceRefresh, now) {
        return cachedOrders;
      }
      orders := [];
      var i := 0;
      while i < |nodes|
        invariant 0 <= i <= |nodes|
        invariant |orders| == i
        invariant forall k :: 0 <= k < i ==> orders[k] == ParseOrder(nodes[k])
      {
        orders := orders + [ParseOrder(nodes[i])];
        i := i + 1;
      }
      cachedOrders, lastSynced, totalOrders, daysFetched := orders, Some(now), |orders|, days;
    }

    /** The summing loops of `calculate_component_usage` over a given order list. */
    method Tabulate(orders: seq<Order>, days: int) returns (usage: UsageSummary)
      ensures usage == Summarize(kitBreakdown, orders, days)
    {
      var acc := Acc([], NoTotals);
      ghost var done: seq<LineItem> := [];
      var i := 0;
      while i < |orders|
        invariant 0 <= i <= |orders|
        invariant done == LinesOf(orders[..i])
        invariant acc == Accumulate(kitBreakdown, done)
      {
        acc := AddOrderLines(kitBreakdown, done, acc, orders[i].lineItems);
        LinesOfSnoc(orders, i);
        done := done + orders[i].lineItems;
        i := i + 1;
      }
      assert orders[..i] == orders;
      var t := acc.totals;
      var avg := None;
      if days > 0 {
        avg := Some(AverageOver(t, days));
      }
      usage := UsageSummary(acc.mesh, t, |orders|, days, avg);
    }

    /** `calculate_component_usage`: fetch (or reuse) the orders, then add up their components. */
    method CalculateComponentUsage(days: int, forceRefresh: bool, now: int, nodes: seq<OrderNode>)
      returns (usage: UsageSummary)
      modifies this
      ensures old(CacheFresh(forceRefresh, now)) ==>
        usage == Summarize(kitBreakdown, old(cachedOrders), days) && unchanged(this)
      ensures !old(CacheFresh(forceRefresh, now)) ==>
        usage == Summarize(kitBreakdown, cachedOrders, days) && lastSynced == Some(now)
        && |cachedOrders| == |nodes| && (forall k :: 0 <= k < |nodes| ==> cachedOrders[k] == ParseOrder(nodes[k]))
    {
      var orders := FetchOrders(days, forceRefresh, now, nodes);
      usage := Tabulate(orders, days);
    }
  }
}
