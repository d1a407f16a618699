/**
 * The stocktake wizard's session: the item list being counted, a quantity
 * per item id (`None` until counted), a cursor into the list, and the
 * dictionary form the session is saved in and reloaded from.
 *
 * The clock (`datetime.now().isoformat()`) is a `now` parameter; the
 * progress file itself is not modelled.
 */
module StocktakeState {
  import opened Builtins
  import opened Collections
  import opened StocktakeItems

  /** `item_id -> quantity`, where `None` means not counted yet. */
  type Quantities = map<string, Option<int>>

  /** `quantities.get(item_id)`. */
  function QuantityIn(q: Quantities, id: string): Option<int>
  {
    if id in q then q[id] else None
  }

  /** The ids of the items. */
  function Ids(items: seq<Item>): set<string>
  {
    set i | 0 <= i < |items| :: items[i].id
  }

  lemma {:induction false} IdsSize(items: seq<Item>)
    ensures |Ids(items)| <= |items|
  {
    if items != [] {
      var init := items[..|items| - 1];
      IdsSize(init);
      assert Ids(items) == Ids(init) + {items[|items| - 1].id} by {
        forall id | id in Ids(items) ensures id in Ids(init) + {items[|items| - 1].id} {
          var i :| 0 <= i < |items| && items[i].id == id;
          if i < |init| {
            assert init[i].id == id;
          }
        }
        forall id | id in Ids(init) ensures id in Ids(items) {
          var i :| 0 <= i < |init| && init[i].id == id;
          assert items[i].id == id;
        }
      }
    }
  }

  /** `{item["id"]: None for item in items}`. */
  function Uncounted(items: seq<Item>): (q: Quantities)
    ensures q.Keys == Ids(items)
    ensures forall id :: id in q ==> q[id].None?
  {
    map id | id in Ids(items) :: None
  }

  /** The ids whose quantity has been entered. */
  function CountedIds(q: Quantities): set<string>
  {
    set id | id in q && q[id].Some?
  }

  /** `sum(1 for q in quantities.values() if q is not None)`. */
  function Completed(q: Quantities): nat
  {
    |CountedIds(q)|
  }

  /** `all(q is not None for q in quantities.values())`. */
  predicate AllEntered(q: Quantities)
  {
    forall id :: id in q ==> q[id].Some?
  }

  /** Everything is entered exactly when every key of the map is counted: `is_complete` is `completed == len(quantities)`. */
  lemma AllEnteredIffCompleted(q: Quantities)
    ensures AllEntered(q) <==> Completed(q) == |q|
  {
    var c := CountedIds(q);
    assert c <= q.Keys;
    assert |q.Keys| == |q|;
    if AllEntered(q) {
      assert c == q.Keys;
    } else {
      var id :| id in q && q[id].None?;
      assert id in q.Keys - c;
      assert |q.Keys - c| >= 1;
      assert (q.Keys - c) + c == q.Keys;
      assert |(q.Keys - c) + c| == |q.Keys - c| + |c| by {
        assert (q.Keys - c) * c == {};
      }
    }
  }

  lemma CompletedAtMostKeys(q: Quantities)
    ensures Completed(q) <= |q|
  {
    assert CountedIds(q) <= q.Keys;
    assert |q.Keys| == |q|;
    SubsetSize(CountedIds(q), q.Keys);
  }

  lemma SubsetSize(a: set<string>, b: set<string>)
    requires a <= b
    ensures |a| <= |b|
  {
    assert b == (b - a) + a;
    assert (b - a) * a == {};
  }

  // ---------------------------------------------------------------------
  // Progress
  // ---------------------------------------------------------------------

  datatype Progress = Progress(current: int, total: int, completed: int, remaining: int, percent: real)

  /**
   * `get_progress`: the cursor shown 1-based, the item count, the entered
   * quantities and the percentage, 0 for an empty list.
   */
  function ProgressOf(items: seq<Item>, q: Quantities, index: int): (p: Progress)
    ensures p.current == index + 1 && p.total == |items| && p.completed == Completed(q)
    ensures p.completed + p.remaining == p.total
    ensures |items| == 0 ==> p.percent == 0.0
  {
    var total, completed := |items|, Completed(q);
    Progress(index + 1, total, completed, total - completed,
             if total > 0 then completed as real / total as real * 100.0 else 0.0)
  }

  /**
   * While the map holds only item ids (as `initialize` leaves it, and as
   * `set_quantity` on an item's id keeps it), the completed count lies
   * within the item count and the percentage between 0 and 100.
   */
  lemma ProgressBounds(items: seq<Item>, q: Quantities, index: int)
    requires q.Keys <= Ids(items)
    ensures var p := ProgressOf(items, q, index);
      && 0 <= p.completed <= p.total && 0 <= p.remaining
      && 0.0 <= p.percent <= 100.0
      && (p.total > 0 && p.remaining == 0 ==> p.percent == 100.0)
  {
    CompletedAtMostKeys(q);
    SubsetSize(q.Keys, Ids(items));
    assert |q.Keys| == |q|;
    IdsSize(items);
    if |items| > 0 {
      RatioAtMostOne(Completed(q) as real, |items| as real);
    }
  }

  lemma RatioAtMostOne(c: real, t: real)
    requires 0.0 <= c <= t && t > 0.0
    ensures 0.0 <= c / t <= 1.0
    ensures c == t ==> c / t == 1.0
  {
    assert c / t * t == c;
  }

  /** Right after `initialize` nothing is entered, and everything remains. */
  lemma InitialProgress(items: seq<Item>)
    ensures Completed(Uncounted(items)) == 0
    ensures ProgressOf(items, Uncounted(items), 0).remaining == |items|
  {
    assert CountedIds(Uncounted(items)) == {};
  }

  // ---------------------------------------------------------------------
  // Progress per category
  // ---------------------------------------------------------------------

  datatype CategoryProgress = CategoryProgress(category: string, total: int, completed: int)

  function CategoryOf(it: Item): string { it.category }

  /** 1 when the item's quantity has been entered. */
  function EnteredIn(q: Quantities): Item -> int
  {
    (it: Item) => if QuantityIn(q, it.id).Some? then 1 else 0
  }

  /** The dictionary `get_category_progress` builds, in first-seen order: a count of 1 per item, and of 1 per entered item. */
  function CategoryBuckets(items: seq<Item>, q: Quantities): seq<Bucket<string>>
  {
    Tally(items, CategoryOf, Unit, EnteredIn(q))
  }

  function ProgressRow(b: Bucket<string>): CategoryProgress
  {
    CategoryProgress(b.key, b.count, b.total)
  }

  function CategoryProgressOf(items: seq<Item>, q: Quantities): (rows: seq<CategoryProgress>)
    ensures |rows| == |CategoryBuckets(items, q)|
  {
    var bs := CategoryBuckets(items, q);
    seq(|bs|, i requires 0 <= i < |bs| => ProgressRow(bs[i]))
  }

  /**
   * `get_category_progress` has one row per category that has an item, no
   * category twice, at most `total` completed items in each row, and the
   * totals add up to the number of items.
   */
  lemma CategoryProgressSound(items: seq<Item>, q: Quantities)
    ensures var rows := CategoryProgressOf(items, q);
      && (forall i :: 0 <= i < |rows| ==> 0 <= rows[i].completed <= rows[i].total)
      && (forall i, j :: 0 <= i < j < |rows| ==> rows[i].category != rows[j].category)
      && (forall c :: c in Keys(CategoryBuckets(items, q)) <==> exists i :: 0 <= i < |items| && items[i].category == c)
      && SumInt(CategoryBuckets(items, q), BucketCount) == |items|
  {
    var bs := CategoryBuckets(items, q);
    TallyDominated(items, CategoryOf, Unit, EnteredIn(q));
    TallyKeys(items, CategoryOf, Unit, EnteredIn(q));
    TallySums(items, CategoryOf, Unit, EnteredIn(q));
    SumIntUnit(items);
    var ks := Keys(bs);
    forall i, j | 0 <= i < j < |bs| ensures bs[i].key != bs[j].key {
    }
  }

  /** The completed counts of `get_category_progress` add up to the entered items, counted once per item. */
  lemma CategoryProgressCompleted(items: seq<Item>, q: Quantities)
    ensures SumInt(CategoryBuckets(items, q), BucketTotal) == SumInt(items, EnteredIn(q))
  {
    TallySums(items, CategoryOf, Unit, EnteredIn(q));
  }

  // ---------------------------------------------------------------------
  // Review lists
  // ---------------------------------------------------------------------

  /** One row of `get_summary`: the item with its quantity, `None` when not entered. */
  datatype SummaryEntry = SummaryEntry(item: Item, quantity: Option<int>)

  /** One row of `get_non_zero_entries`. */
  datatype CountedEntry = CountedEntry(item: Item, quantity: int)

  /** `quantities.get(id, 0) > 0` raises `TypeError` when the id is present with `None`. */
  datatype CompareError = NoneComparedWithZero(id: string)

  predicate Unentered(q: Quantities, it: Item)
  {
    it.id in q && q[it.id].None?
  }

  predicate PositiveIn(q: Quantities, it: Item)
  {
    it.id in q && q[it.id].Some? && q[it.id].value > 0
  }

  /** The row an item gives when its quantity is positive. */
  function CountedOf(q: Quantities): Item -> Option<CountedEntry>
  {
    (it: Item) => if PositiveIn(q, it) then Some(CountedEntry(it, q[it.id].value)) else None
  }

  /**
   * `get_non_zero_entries`: the items with a positive quantity, in order,
   * each with its quantity.  An item whose id is in the map with `None`
   * makes the comparison raise, whatever else the list holds.
   */
  function NonZeroEntries(items: seq<Item>, q: Quantities): (r: Result<seq<CountedEntry>, CompareError>)
    ensures r.Err? <==> exists i :: 0 <= i < |items| && Unentered(q, items[i])
    ensures r.Ok? ==> r.value == Collect(items, CountedOf(q))
    ensures r.Ok? ==> forall e :: e in r.value ==>
      e.item in items && PositiveIn(q, e.item) && e.quantity == q[e.item.id].value
    ensures r.Ok? ==> forall i :: 0 <= i < |items| && PositiveIn(q, items[i]) ==>
      CountedEntry(items[i], q[items[i].id].value) in r.value
    decreases |items|
  {
    if items == [] then Ok([])
    else
      var it := items[0];
      if Unentered(q, it) then Err(NoneComparedWithZero(it.id))
      else
        var rest := NonZeroEntries(items[1..], q);
        assert forall i :: 1 <= i < |items| ==> items[i] == items[1..][i - 1];
        assert items == [it] + items[1..];
        CollectCons(it, items[1..], CountedOf(q));
        if rest.Err? then rest
        else if PositiveIn(q, it) then Ok([CountedEntry(it, q[it.id].value)] + rest.value)
        else Ok(rest.value)
  }

  /** With every quantity entered, the non-zero entries are the positive ones; none of them is zero. */
  lemma NonZeroWhenComplete(items: seq<Item>, q: Quantities)
    requires AllEntered(q)
    ensures NonZeroEntries(items, q).Ok?
    ensures forall e :: e in NonZeroEntries(items, q).value ==> e.quantity > 0
  {
  }

  // ---------------------------------------------------------------------
  // Saving and loading
  // ---------------------------------------------------------------------

  /** The session's fields, as `to_dict` writes them and `from_dict` reads them back. */
  datatype Snapshot = Snapshot(
    items: seq<Item>, quantities: Quantities, currentIndex: int, categories: seq<string>,
    startedAt: Option<string>, lastSaved: Option<string>)

  /** The saved dictionary; `None` is a missing key (and, for the timestamps, a JSON `null`). */
  datatype SavedDict = SavedDict(
    items: Option<seq<Item>>, quantities: Option<Quantities>, currentIndex: Option<int>,
    categories: Option<seq<string>>, startedAt: Option<string>, lastSaved: Option<string>)

  /** `to_dict`: every field, with `last_saved` set to the time of the call. */
  function Saved(s: Snapshot, now: string): SavedDict
  {
    SavedDict(Some(s.items), Some(s.quantities), Some(s.currentIndex), Some(s.categories), s.startedAt, Some(now))
  }

  /** `from_dict`: each missing key takes its default. */
  function Loaded(d: SavedDict): Snapshot
  {
    Snapshot(d.items.GetOr([]), d.quantities.GetOr(map[]), d.currentIndex.GetOr(0), d.categories.GetOr([]),
             d.startedAt, d.lastSaved)
  }

  /** Saving and reloading keeps the session, `last_saved` becoming the save time. */
  lemma SaveLoadRoundTrip(s: Snapshot, now: string)
    ensures Loaded(Saved(s, now)) == s.(lastSaved := Some(now))
  {
  }

  /** Loading then saving keeps every key that was present. */
  lemma LoadSaveKeeps(d: SavedDict, now: string)
    requires d.items.Some? && d.quantities.Some? && d.currentIndex.Some? && d.categories.Some?
    ensures Saved(Loaded(d), now) == d.(lastSaved := Some(now))
  {
  }

  datatype SavedInfo = SavedInfo(
    startedAt: Option<string>, lastSaved: Option<string>, completed: int, total: int, categories: seq<string>)

  /** `get_saved_progress_info`: the header of a saved session, without loading it. */
  function InfoOf(d: SavedDict): SavedInfo
  {
    SavedInfo(d.startedAt, d.lastSaved, Completed(d.quantities.GetOr(map[])), |d.items.GetOr([])|,
              d.categories.GetOr([]))
  }

  /** The saved header agrees with the progress of the session that was saved. */
  lemma InfoMatchesProgress(s: Snapshot, now: string)
    ensures var info, p := InfoOf(Saved(s, now)), ProgressOf(s.items, s.quantities, s.currentIndex);
      info.completed == p.completed && info.total == p.total && info.lastSaved == Some(now)
  {
  }

  // ---------------------------------------------------------------------
  // The session
  // ---------------------------------------------------------------------

  /** Python's `items[i]` bounds: negative indices count from the end. */
  predicate PyIndexable(n: int, i: int) { -n <= i < n }

  function PyIndex(n: int, i: int): (j: int)
    requires PyIndexable(n, i)
    ensures 0 <= j < n
    ensures i >= 0 ==> j == i
  {
    if i < 0 then n + i else i
  }

  class StocktakeSession {
    var items: seq<Item>
    var quantities: Quantities
    var currentIndex: int
    var categories: seq<string>
    var startedAt: Option<string>
    var lastSaved: Option<string>

    function Snap(): Snapshot
      reads this
    {
      Snapshot(items, quantities, currentIndex, categories, startedAt, lastSaved)
    }

    /** The cursor points at an item. */
    predicate InRange()
      reads this
    {
      0 <= currentIndex < |items|
    }

    constructor ()
      ensures Snap() == Snapshot([], map[], 0, [], None, None)
    {
      items := [];
      quantities := map[];
      currentIndex := 0;
      categories := [];
      startedAt := None;
      lastSaved := None;
    }

    /** `from_dict`. */
    constructor FromDict(data: SavedDict)
      ensures Snap() == Loaded(data)
    {
      items := data.items.GetOr([]);
      quantities := data.quantities.GetOr(map[]);
      currentIndex := data.currentIndex.GetOr(0);
      categories := data.categories.GetOr([]);
      startedAt := data.startedAt;
      lastSaved := data.lastSaved;
    }

    /** `initialize`: every item uncounted, the cursor on the first item, the start time set. */
    method Initialize(newItems: seq<Item>, newCategories: seq<string>, now: string)
      modifies this
      ensures Snap() == Snapshot(newItems, Uncounted(newItems), 0, newCategories, Some(now), None)
      ensures newItems != [] ==> InRange()
    {
      items := newItems;
      categories := newCategories;
      quantities := Uncounted(newItems);
      currentIndex := 0;
      startedAt := Some(now);
      lastSaved := None;
    }

    /** `set_quantity`. */
    method SetQuantity(id: string, quantity: int)
      modifies this
      ensures Snap() == old(Snap()).(quantities := old(quantities)[id := Some(quantity)])
      ensures old(quantities).Keys <= old(Ids(items)) && id in Ids(items) ==> quantities.Keys <= Ids(items)
    {
      quantities := quantities[id := Some(quantity)];
    }

    /** `get_quantity`. */
    function GetQuantity(id: string): (r: Option<int>)
      reads this
      ensures r.Some? <==> id in quantities && quantities[id].Some?
      ensures r.Some? ==> quantities[id] == r
    {
      QuantityIn(quantities, id)
    }

    /**
     * `skip_current`: records 0 for the item under the cursor when the
     * cursor is below the end; a cursor below `-len(items)` raises
     * `IndexError` and nothing changes.
     */
    method SkipCurrent() returns (raised: bool)
      modifies this
      ensures raised <==> currentIndex < -|items|
      ensures currentIndex >= |items| || raised ==> Snap() == old(Snap())
      ensures currentIndex < |items| && !raised ==>
        Snap() == old(Snap()).(quantities := old(quantities)[items[PyIndex(|items|, currentIndex)].id := Some(0)])
    {
      if currentIndex < |items| {
        if currentIndex < -|items| {
          return true;
        }
        var id := items[PyIndex(|items|, currentIndex)].id;
        quantities := quantities[id := Some(0)];
      }
      return false;
    }

    /** `next_item`: moves forward unless on the last item. */
    method NextItem() returns (moved: bool)
      modifies this
      ensures moved <==> old(currentIndex) < |items| - 1
      ensures Snap() == old(Snap()).(currentIndex := if moved then old(currentIndex) + 1 else old(currentIndex))
      ensures old(InRange()) ==> InRange()
    {
      if currentIndex < |items| - 1 {
        currentIndex := currentIndex + 1;
        return true;
      }
      return false;
    }

    /** `previous_item`: moves back unless on the first item. */
    method PreviousItem() returns (moved: bool)
      modifies this
      ensures moved <==> old(currentIndex) > 0
      ensures Snap() == old(Snap()).(currentIndex := if moved then old(currentIndex) - 1 else old(currentIndex))
      ensures old(InRange()) ==> InRange()
    {
      if currentIndex > 0 {
        currentIndex := currentIndex - 1;
        return true;
      }
      return false;
    }

    /** `go_to_item`: jumps to an index of the list, and refuses any other. */
    method GoToItem(index: int) returns (moved: bool)
      modifies this
      ensures moved <==> 0 <= index < |items|
      ensures Snap() == old(Snap()).(currentIndex := if moved then index else old(currentIndex))
      ensures old(InRange()) ==> InRange()
    {
      if 0 <= index < |items| {
        currentIndex := index;
        return true;
      }
      return false;
    }

    /** `get_current_item`. */
    function GetCurrentItem(): (r: Option<Item>)
      reads this
      ensures r.Some? <==> InRange()
      ensures r.Some? ==> r.value == items[currentIndex]
    {
      if 0 <= currentIndex < |items| then Some(items[currentIndex]) else None
    }

    /** `get_progress`. */
    function GetProgress(): Progress
      reads this
    {
      ProgressOf(items, quantities, currentIndex)
    }

    /** `get_category_progress`: one pass over the items, bumping each item's category. */
    method GetCategoryProgress() returns (rows: seq<CategoryProgress>)
      ensures rows == CategoryProgressOf(items, quantities)
    {
      var buckets: seq<Bucket<string>> := [];
      var i := 0;
      while i < |items|
        invariant 0 <= i <= |items|
        invariant buckets == Tally(items[..i], CategoryOf, Unit, EnteredIn(quantities))
      {
        assert items[..i + 1] == items[..i] + [items[i]];
        TallySnoc(items[..i], items[i], CategoryOf, Unit, EnteredIn(quantities));
        var item := items[i];
        buckets := Bump(buckets, item.category, 1, if QuantityIn(quantities, item.id).Some? then 1 else 0);
        i := i + 1;
      }
      assert items[..i] == items;
      rows := seq(|buckets|, j requires 0 <= j < |buckets| => ProgressRow(buckets[j]));
    }

    /** `is_complete`. */
    predicate IsComplete()
      reads this
    {
      AllEntered(quantities)
    }

    /** `get_summary`: every item, in order, with its quantity or `None`. */
    method GetSummary() returns (summary: seq<SummaryEntry>)
      ensures |summary| == |items|
      ensures forall i :: 0 <= i < |items| ==>
        summary[i].item == items[i] && summary[i].quantity == QuantityIn(quantities, items[i].id)
    {
      summary := [];
      for i := 0 to |items|
        invariant |summary| == i
        invariant forall j :: 0 <= j < i ==>
          summary[j].item == items[j] && summary[j].quantity == QuantityIn(quantities, items[j].id)
      {
        summary := summary + [SummaryEntry(items[i], QuantityIn(quantities, items[i].id))];
      }
    }

    /** `get_non_zero_entries`. */
    function GetNonZeroEntries(): Result<seq<CountedEntry>, CompareError>
      reads this
    {
      NonZeroEntries(items, quantities)
    }

    /** `to_dict`. */
    function ToDict(now: string): SavedDict
      reads this
    {
      Saved(Snap(), now)
    }
  }
}
