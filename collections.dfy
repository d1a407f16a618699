/**
 * Sequence building blocks shared by the managers and the forecaster:
 * sums over a list of records, order-preserving filters, Python's stable
 * `sorted`, and group-by in dictionary insertion order (a Python `dict`
 * remembers the order in which keys were first set).
 *
 * The sums and filters recurse on the LAST element, so that a loop that
 * walks a list from the front keeps the invariant `acc == Sum(s[..i], f)`.
 */
module Collections {
  import opened Builtins

  // ---------------------------------------------------------------------
  // Sums
  // ---------------------------------------------------------------------

  function SumInt<T>(s: seq<T>, f: T -> int): int
  {
    if s == [] then 0 else SumInt(s[..|s| - 1], f) + f(s[|s| - 1])
  }

  function SumReal<T>(s: seq<T>, f: T -> real): real
  {
    if s == [] then 0.0 else SumReal(s[..|s| - 1], f) + f(s[|s| - 1])
  }

  lemma {:induction false} SumIntAppend<T>(a: seq<T>, b: seq<T>, f: T -> int)
    ensures SumInt(a + b, f) == SumInt(a, f) + SumInt(b, f)
    decreases |b|
  {
    if b == [] {
      assert a + b == a;
    } else {
      assert (a + b)[..|a + b| - 1] == a + b[..|b| - 1];
      SumIntAppend(a, b[..|b| - 1], f);
    }
  }

  lemma {:induction false} SumRealAppend<T>(a: seq<T>, b: seq<T>, f: T -> real)
    ensures SumReal(a + b, f) == SumReal(a, f) + SumReal(b, f)
    decreases |b|
  {
    if b == [] {
      assert a + b == a;
    } else {
      assert (a + b)[..|a + b| - 1] == a + b[..|b| - 1];
      SumRealAppend(a, b[..|b| - 1], f);
    }
  }

  /** One more element of a prefix adds its term. */
  lemma SumIntPrefix<T>(s: seq<T>, k: int, f: T -> int)
    requires 0 < k <= |s|
    ensures SumInt(s[..k], f) == SumInt(s[..k - 1], f) + f(s[k - 1])
  {
    assert s[..k][..k - 1] == s[..k - 1];
  }

  /** Splitting off the first element, the form head-recursive definitions need. */
  lemma SumIntCons<T>(x: T, s: seq<T>, f: T -> int)
    ensures SumInt([x] + s, f) == f(x) + SumInt(s, f)
  {
    SumIntAppend([x], s, f);
    assert [x][..0] == [];
  }

  lemma SumRealCons<T>(x: T, s: seq<T>, f: T -> real)
    ensures SumReal([x] + s, f) == f(x) + SumReal(s, f)
  {
    SumRealAppend([x], s, f);
    assert [x][..0] == [];
  }

  lemma {:induction false} SumIntNonneg<T>(s: seq<T>, f: T -> int)
    requires forall i :: 0 <= i < |s| ==> f(s[i]) >= 0
    ensures SumInt(s, f) >= 0
  {
    if s != [] {
      SumIntNonneg(s[..|s| - 1], f);
    }
  }

  lemma {:induction false} SumRealNonneg<T>(s: seq<T>, f: T -> real)
    requires forall i :: 0 <= i < |s| ==> f(s[i]) >= 0.0
    ensures SumReal(s, f) >= 0.0
  {
    if s != [] {
      SumRealNonneg(s[..|s| - 1], f);
    }
  }

  /** Sums of two functions that agree on every element are equal. */
  lemma {:induction false} SumIntCongruence<T>(s: seq<T>, f: T -> int, g: T -> int)
    requires forall i :: 0 <= i < |s| ==> f(s[i]) == g(s[i])
    ensures SumInt(s, f) == SumInt(s, g)
  {
    if s != [] {
      SumIntCongruence(s[..|s| - 1], f, g);
    }
  }

  /** Two lists whose elements contribute the same terms, position by position, have the same sum. */
  lemma {:induction false} SumIntPointwise<T>(s: seq<T>, t: seq<T>, f: T -> int)
    requires |s| == |t|
    requires forall i :: 0 <= i < |s| ==> f(s[i]) == f(t[i])
    ensures SumInt(s, f) == SumInt(t, f)
  {
    if s != [] {
      SumIntPointwise(s[..|s| - 1], t[..|t| - 1], f);
    }
  }

  lemma {:induction false} SumIntZero<T>(s: seq<T>, f: T -> int)
    requires forall i :: 0 <= i < |s| ==> f(s[i]) == 0
    ensures SumInt(s, f) == 0
  {
    if s != [] {
      SumIntZero(s[..|s| - 1], f);
    }
  }

  /** Replacing one element changes the sum by the difference of the two terms. */
  lemma {:induction false} SumIntUpdate<T>(s: seq<T>, j: int, x: T, f: T -> int)
    requires 0 <= j < |s|
    ensures SumInt(s[j := x], f) == SumInt(s, f) - f(s[j]) + f(x)
  {
    var n := |s|;
    if j == n - 1 {
      assert s[j := x][..n - 1] == s[..n - 1];
    } else {
      assert s[j := x][..n - 1] == s[..n - 1][j := x];
      SumIntUpdate(s[..n - 1], j, x, f);
    }
  }

  lemma MultisetCancel<T>(m: multiset<T>, n: multiset<T>, x: T)
    requires m + multiset{x} == n + multiset{x}
    ensures m == n
  {
    forall y ensures m[y] == n[y] {
      assert (m + multiset{x})[y] == (n + multiset{x})[y];
    }
  }

  /** Reordering the elements does not change the sum (what a sort preserves). */
  lemma {:induction false} SumIntPermutation<T>(a: seq<T>, b: seq<T>, f: T -> int)
    requires multiset(a) == multiset(b)
    ensures SumInt(a, f) == SumInt(b, f)
    decreases |a|
  {
    if a != [] {
      var init, x := a[..|a| - 1], a[|a| - 1];
      assert a == init + [x];
      assert x in multiset(b);
      var i :| 0 <= i < |b| && b[i] == x;
      var left, right := b[..i], b[i + 1..];
      assert b == left + [x] + right;
      calc {
        multiset(init) + multiset{x};
        multiset(a);
        multiset(b);
        multiset(left) + multiset{x} + multiset(right);
        multiset(left + right) + multiset{x};
      }
      MultisetCancel(multiset(init), multiset(left + right), x);
      SumIntPermutation(init, left + right, f);
      SumIntAppend(left, right, f);
      SumIntAppend(left + [x], right, f);
      SumIntAppend(left, [x], f);
      assert [x][..0] == [];
    }
  }

  // ---------------------------------------------------------------------
  // Filters (list comprehensions with an `if`)
  // ---------------------------------------------------------------------

  function Filter<T(!new)>(s: seq<T>, p: T -> bool): (r: seq<T>)
    ensures |r| <= |s|
  {
    if s == [] then []
    else Filter(s[..|s| - 1], p) + (if p(s[|s| - 1]) then [s[|s| - 1]] else [])
  }

  /** One more element of `s` is kept at the end when it passes. */
  lemma FilterPrefix<T(!new)>(s: seq<T>, p: T -> bool, i: int)
    requires 0 <= i < |s|
    ensures Filter(s[..i + 1], p) == Filter(s[..i], p) + (if p(s[i]) then [s[i]] else [])
  {
    assert s[..i + 1][..i] == s[..i];
  }

  /** The filtered list holds exactly the elements that pass. */
  lemma {:induction false} FilterMembers<T(!new)>(s: seq<T>, p: T -> bool)
    ensures forall x :: x in Filter(s, p) <==> x in s && p(x)
  {
    if s != [] {
      FilterMembers(s[..|s| - 1], p);
      assert s == s[..|s| - 1] + [s[|s| - 1]];
    }
  }

  lemma {:induction false} FilterAppend<T(!new)>(a: seq<T>, b: seq<T>, p: T -> bool)
    ensures Filter(a + b, p) == Filter(a, p) + Filter(b, p)
    decreases |b|
  {
    if b == [] {
      assert a + b == a;
    } else {
      assert (a + b)[..|a + b| - 1] == a + b[..|b| - 1];
      FilterAppend(a, b[..|b| - 1], p);
    }
  }

  /** A filter that every element passes changes nothing. */
  lemma {:induction false} FilterAll<T(!new)>(s: seq<T>, p: T -> bool)
    requires forall i :: 0 <= i < |s| ==> p(s[i])
    ensures Filter(s, p) == s
  {
    if s != [] {
      FilterAll(s[..|s| - 1], p);
      assert s == s[..|s| - 1] + [s[|s| - 1]];
    }
  }

  /** A filter that no element passes leaves nothing. */
  lemma {:induction false} FilterNone<T(!new)>(s: seq<T>, p: T -> bool)
    requires forall i :: 0 <= i < |s| ==> !p(s[i])
    ensures Filter(s, p) == []
  {
    if s != [] {
      FilterNone(s[..|s| - 1], p);
    }
  }

  lemma FilterSnoc<T(!new)>(s: seq<T>, x: T, p: T -> bool)
    ensures Filter(s + [x], p) == Filter(s, p) + (if p(x) then [x] else [])
  {
    assert (s + [x])[..|s|] == s;
  }

  /** Filtering by a weaker test first changes nothing. */
  lemma {:induction false} FilterFilter<T(!new)>(s: seq<T>, p: T -> bool, q: T -> bool)
    requires forall x :: q(x) ==> p(x)
    ensures Filter(Filter(s, p), q) == Filter(s, q)
  {
    if s != [] {
      var init := s[..|s| - 1];
      var x := s[|s| - 1];
      FilterFilter(init, p, q);
      assert [x][..0] == [];
      if p(x) {
        assert Filter(s, p) == Filter(init, p) + [x];
        FilterAppend(Filter(init, p), [x], q);
      } else {
        assert Filter(s, p) == Filter(init, p);
        assert Filter(s, q) == Filter(init, q);
      }
    }
  }

  /** `f` where `p` holds and zero elsewhere. */
  function Masked<T>(p: T -> bool, f: T -> int): T -> int
  {
    (x: T) => if p(x) then f(x) else 0
  }

  function MaskedReal<T>(p: T -> bool, f: T -> real): T -> real
  {
    (x: T) => if p(x) then f(x) else 0.0
  }

  lemma {:induction false} SumRealFilter<T(!new)>(s: seq<T>, p: T -> bool, f: T -> real)
    ensures SumReal(Filter(s, p), f) == SumReal(s, MaskedReal(p, f))
  {
    if s != [] {
      var init := s[..|s| - 1];
      var last := s[|s| - 1];
      SumRealFilter(init, p, f);
      SumRealAppend(Filter(init, p), if p(last) then [last] else [], f);
      if p(last) {
        assert [last][..0] == [];
      }
    }
  }

  lemma {:induction false} SumIntFilter<T(!new)>(s: seq<T>, p: T -> bool, f: T -> int)
    ensures SumInt(Filter(s, p), f) == SumInt(s, Masked(p, f))
  {
    if s != [] {
      var init := s[..|s| - 1];
      var last := s[|s| - 1];
      SumIntFilter(init, p, f);
      SumIntAppend(Filter(init, p), if p(last) then [last] else [], f);
      if p(last) {
        assert [last][..0] == [];
      }
    }
  }

  // ---------------------------------------------------------------------
  // Nested loops appending to one list
  // ---------------------------------------------------------------------

  /** The blocks one after another, as `for b in blocks: out.extend(b)` leaves them. */
  function Concat<T>(blocks: seq<seq<T>>): seq<T>
  {
    if blocks == [] then [] else Concat(blocks[..|blocks| - 1]) + blocks[|blocks| - 1]
  }

  lemma ConcatSnoc<T>(blocks: seq<seq<T>>, b: seq<T>)
    ensures Concat(blocks + [b]) == Concat(blocks) + b
  {
    assert (blocks + [b])[..|blocks|] == blocks;
  }

  /** Blocks of one common length `n` concatenate to `|blocks| * n` elements. */
  lemma {:induction false} ConcatUniformLength<T>(blocks: seq<seq<T>>, n: nat)
    requires forall i :: 0 <= i < |blocks| ==> |blocks[i]| == n
    ensures |Concat(blocks)| == |blocks| * n
  {
    if blocks != [] {
      var m := |blocks| - 1;
      ConcatUniformLength(blocks[..m], n);
      assert (m + 1) * n == m * n + n;
    }
  }

  /** ... and element `k` of block `i` lands at `i * n + k`. */
  lemma {:induction false} ConcatUniformAt<T>(blocks: seq<seq<T>>, n: nat, i: nat, k: nat)
    requires forall j :: 0 <= j < |blocks| ==> |blocks[j]| == n
    requires i < |blocks| && k < n
    ensures |Concat(blocks)| == |blocks| * n
    ensures i * n + k < |blocks| * n
    ensures Concat(blocks)[i * n + k] == blocks[i][k]
  {
    var m := |blocks| - 1;
    var init := blocks[..m];
    ConcatUniformLength(blocks, n);
    ConcatUniformLength(init, n);
    assert (m + 1) * n == m * n + n;
    if i < m {
      ConcatUniformAt(init, n, i, k);
      assert init[i] == blocks[i];
    } else {
      assert i * n + k == m * n + k;
    }
  }

  /** A property of every element of every block holds of every element of the concatenation. */
  lemma {:induction false} ConcatAll<T>(blocks: seq<seq<T>>, q: T -> bool)
    requires forall i, k :: 0 <= i < |blocks| && 0 <= k < |blocks[i]| ==> q(blocks[i][k])
    ensures forall n :: 0 <= n < |Concat(blocks)| ==> q(Concat(blocks)[n])
  {
    if blocks != [] {
      var m := |blocks| - 1;
      ConcatAll(blocks[..m], q);
      forall n | 0 <= n < |Concat(blocks)| ensures q(Concat(blocks)[n]) {
        var c := Concat(blocks[..m]);
        if n >= |c| {
          assert Concat(blocks)[n] == blocks[m][n - |c|];
        } else {
          assert Concat(blocks)[n] == c[n];
        }
      }
    }
  }

  /** `[g(x) for x in s if g(x) is not None]`: the results that are present, in order. */
  function Collect<T, U>(s: seq<T>, g: T -> Option<U>): seq<U>
  {
    if s == [] then []
    else
      var y := g(s[|s| - 1]);
      Collect(s[..|s| - 1], g) + (if y.Some? then [y.value] else [])
  }

  /** One more element of `s` adds its result, if any, at the end. */
  lemma CollectPrefix<T, U>(s: seq<T>, g: T -> Option<U>, i: int)
    requires 0 <= i < |s|
    ensures Collect(s[..i + 1], g) == Collect(s[..i], g) + (if g(s[i]).Some? then [g(s[i]).value] else [])
  {
    assert s[..i + 1][..i] == s[..i];
  }

  /** An element put in front adds its result, if any, in front. */
  lemma {:induction false} CollectCons<T, U>(x: T, s: seq<T>, g: T -> Option<U>)
    ensures Collect([x] + s, g) == (if g(x).Some? then [g(x).value] else []) + Collect(s, g)
    decreases |s|
  {
    if s == [] {
      assert ([x] + s)[..0] == [];
    } else {
      var init := s[..|s| - 1];
      CollectCons(x, init, g);
      assert ([x] + s)[..|s|] == [x] + init;
      assert ([x] + s)[|s|] == s[|s| - 1];
    }
  }

  lemma {:induction false} CollectExact<T, U>(s: seq<T>, g: T -> Option<U>, y: U)
    ensures y in Collect(s, g) <==> exists i :: 0 <= i < |s| && g(s[i]) == Some(y)
  {
    if s != [] {
      var init := s[..|s| - 1];
      CollectExact(init, g, y);
      if exists i :: 0 <= i < |init| && g(init[i]) == Some(y) {
        var i :| 0 <= i < |init| && g(init[i]) == Some(y);
        assert s[i] == init[i];
      }
      if exists i :: 0 <= i < |s| && g(s[i]) == Some(y) {
        var i :| 0 <= i < |s| && g(s[i]) == Some(y);
        if i < |init| {
          assert init[i] == s[i];
        }
      }
    }
  }

  // ---------------------------------------------------------------------
  // Python's stable `sorted(xs, key=…)`
  // ---------------------------------------------------------------------

  /** `le` orders every pair and is transitive: a sort key compared with `<=`. */
  ghost predicate TotalPreorder<T(!new)>(le: (T, T) -> bool)
  {
    (forall a, b :: le(a, b) || le(b, a)) &&
    (forall a, b, c :: le(a, b) && le(b, c) ==> le(a, c))
  }

  ghost predicate SortedBy<T(!new)>(s: seq<T>, le: (T, T) -> bool)
  {
    forall i, j :: 0 <= i < j < |s| ==> le(s[i], s[j])
  }

  /**
   * Puts `x` in front of the first element it does not sort after, so it
   * lands in front of the equal ones already present.
   */
  function Insert<T(!new)>(x: T, s: seq<T>, le: (T, T) -> bool): (r: seq<T>)
    ensures multiset(r) == multiset(s) + multiset{x}
    ensures |r| == |s| + 1
  {
    if s == [] then [x]
    else if le(x, s[0]) then [x] + s
    else
      var rest := Insert(x, s[1..], le);
      assert s == [s[0]] + s[1..];
      [s[0]] + rest
  }

  /**
   * Stable sort: insert the elements from the back, each in front of the
   * equal ones that follow it.  `le` is the ascending test on the key
   * (`>=` for `reverse=True`, which Python also keeps stable).
   */
  function SortBy<T(!new)>(s: seq<T>, le: (T, T) -> bool): (r: seq<T>)
    ensures multiset(r) == multiset(s)
    ensures |r| == |s|
  {
    if s == [] then []
    else
      assert s == [s[0]] + s[1..];
      Insert(s[0], SortBy(s[1..], le), le)
  }

  /** Sorting keeps exactly the elements it was given. */
  lemma SortByMember<T(!new)>(s: seq<T>, le: (T, T) -> bool, x: T)
    ensures x in SortBy(s, le) <==> x in s
  {
    assert x in SortBy(s, le) <==> x in multiset(SortBy(s, le));
  }

  /** The elements whose key equals `x`'s under `le`. */
  function SameKey<T>(le: (T, T) -> bool, x: T): T -> bool
  {
    (y: T) => le(x, y) && le(y, x)
  }

  /** Inserting `y` puts it in front of every element with its key. */
  lemma {:induction false} InsertSameKey<T(!new)>(y: T, s: seq<T>, le: (T, T) -> bool, x: T)
    requires TotalPreorder(le)
    ensures Filter(Insert(y, s, le), SameKey(le, x)) == Filter([y], SameKey(le, x)) + Filter(s, SameKey(le, x))
    decreases |s|
  {
    var e := SameKey(le, x);
    if s == [] {
      assert [y] + s == [y];
    } else if le(y, s[0]) {
      FilterAppend([y], s, e);
    } else {
      InsertSameKey(y, s[1..], le, x);
      FilterAppend([s[0]], Insert(y, s[1..], le), e);
      assert s == [s[0]] + s[1..];
      FilterAppend([s[0]], s[1..], e);
      assert !(e(y) && e(s[0]));
      assert Filter([s[0]], e) + Filter([y], e) == Filter([y], e) + Filter([s[0]], e);
    }
  }

  /**
   * `SortBy` is stable: the elements that share a key come out in the
   * order they went in.
   */
  lemma {:induction false} SortByStable<T(!new)>(s: seq<T>, le: (T, T) -> bool, x: T)
    requires TotalPreorder(le)
    ensures Filter(SortBy(s, le), SameKey(le, x)) == Filter(s, SameKey(le, x))
  {
    if s != [] {
      SortByStable(s[1..], le, x);
      InsertSameKey(s[0], SortBy(s[1..], le), le, x);
      assert s == [s[0]] + s[1..];
      FilterAppend([s[0]], s[1..], SameKey(le, x));
    }
  }

  lemma {:induction false} InsertSorted<T(!new)>(x: T, s: seq<T>, le: (T, T) -> bool)
    requires TotalPreorder(le)
    requires SortedBy(s, le)
    ensures SortedBy(Insert(x, s, le), le)
  {
    if s == [] {
    } else if le(x, s[0]) {
      var r := [x] + s;
      forall i, j | 0 <= i < j < |r| ensures le(r[i], r[j]) {
        if i == 0 && j > 1 {
          assert le(s[0], s[j - 1]);
        }
      }
    } else {
      assert le(s[0], x);
      var rest := Insert(x, s[1..], le);
      InsertSorted(x, s[1..], le);
      var r := [s[0]] + rest;
      forall j | 0 <= j < |rest| ensures le(s[0], rest[j]) {
        assert rest[j] in multiset(rest);
        assert rest[j] in multiset(s[1..]) + multiset{x};
        if rest[j] != x {
          assert rest[j] in s[1..];
          var k :| 0 <= k < |s[1..]| && s[1..][k] == rest[j];
          assert s[k + 1] == rest[j];
        }
      }
      forall i, j | 0 <= i < j < |r| ensures le(r[i], r[j]) {
        if i > 0 {
          assert r[i] == rest[i - 1] && r[j] == rest[j - 1];
        } else {
          assert r[j] == rest[j - 1];
        }
      }
    }
  }

  /** The result of `SortBy` is ordered by `le`; with the multiset ensures, a sorting of `s`. */
  lemma {:induction false} SortBySorted<T(!new)>(s: seq<T>, le: (T, T) -> bool)
    requires TotalPreorder(le)
    ensures SortedBy(SortBy(s, le), le)
  {
    if s != [] {
      SortBySorted(s[1..], le);
      InsertSorted(s[0], SortBy(s[1..], le), le);
    }
  }

  // ---------------------------------------------------------------------
  // Search
  // ---------------------------------------------------------------------

  /** The `for x in s: if p(x): ... return` search: the first index satisfying `p`, if any. */
  function FirstIndex<T(!new)>(s: seq<T>, p: T -> bool): (r: Option<nat>)
    ensures r.Some? ==> r.value < |s| && p(s[r.value])
    ensures r.Some? ==> forall j :: 0 <= j < r.value ==> !p(s[j])
    ensures r.None? <==> forall j :: 0 <= j < |s| ==> !p(s[j])
  {
    if s == [] then None
    else if p(s[0]) then Some(0)
    else
      match FirstIndex(s[1..], p)
      case None => None
      case Some(i) => Some(i + 1)
  }

  // ---------------------------------------------------------------------
  // Group-by into a dict kept in first-insertion order
  // ---------------------------------------------------------------------

  /** One dictionary entry of a group-by: two integer running sums (a count and a total). */
  datatype Bucket<K> = Bucket(key: K, count: int, total: int)

  function Keys<K(==)>(t: seq<Bucket<K>>): (ks: seq<K>)
    ensures |ks| == |t|
    ensures forall i :: 0 <= i < |t| ==> ks[i] == t[i].key
  {
    if t == [] then [] else [t[0].key] + Keys(t[1..])
  }

  predicate UniqueKeys<K(==)>(t: seq<Bucket<K>>)
  {
    forall i, j :: 0 <= i < j < |t| ==> t[i].key != t[j].key
  }

  /** The count filed under `k`, 0 if `k` is absent (`d.get(k, 0)`). */
  function CountOf<K(==)>(t: seq<Bucket<K>>, k: K): int
  {
    if t == [] then 0 else if t[0].key == k then t[0].count else CountOf(t[1..], k)
  }

  function TotalOf<K(==)>(t: seq<Bucket<K>>, k: K): int
  {
    if t == [] then 0 else if t[0].key == k then t[0].total else TotalOf(t[1..], k)
  }

  /** `d[k]["count"] += c; d[k]["total"] += v`, creating `d[k]` at the end when absent. */
  function Bump<K(==)>(t: seq<Bucket<K>>, k: K, c: int, v: int): (r: seq<Bucket<K>>)
    ensures Keys(r) == if k in Keys(t) then Keys(t) else Keys(t) + [k]
  {
    if t == [] then [Bucket(k, c, v)]
    else if t[0].key == k then [Bucket(k, t[0].count + c, t[0].total + v)] + t[1..]
    else
      var rest := Bump(t[1..], k, c, v);
      assert Keys(t) == [t[0].key] + Keys(t[1..]);
      [t[0]] + rest
  }

  lemma {:induction false} BumpLookup<K>(t: seq<Bucket<K>>, k: K, c: int, v: int, j: K)
    ensures CountOf(Bump(t, k, c, v), j) == CountOf(t, j) + (if j == k then c else 0)
    ensures TotalOf(Bump(t, k, c, v), j) == TotalOf(t, j) + (if j == k then v else 0)
  {
    if t != [] && t[0].key != k {
      BumpLookup(t[1..], k, c, v, j);
    }
  }

  lemma BumpUnique<K>(t: seq<Bucket<K>>, k: K, c: int, v: int)
    requires UniqueKeys(t)
    ensures UniqueKeys(Bump(t, k, c, v))
  {
    var r := Bump(t, k, c, v);
    var kr, kt := Keys(r), Keys(t);
    forall i, j | 0 <= i < j < |r| ensures r[i].key != r[j].key {
      assert kr[i] == r[i].key && kr[j] == r[j].key;
      if j < |t| {
        assert kt[i] == t[i].key && kt[j] == t[j].key;
      } else {
        assert k !in kt && kt[i] == t[i].key;
      }
    }
  }

  /** The group-by loop `for x in s: d[key(x)] += (cnt(x), tot(x))`. */
  function Tally<T, K(==)>(s: seq<T>, key: T -> K, cnt: T -> int, tot: T -> int): seq<Bucket<K>>
  {
    if s == [] then []
    else
      var x := s[|s| - 1];
      Bump(Tally(s[..|s| - 1], key, cnt, tot), key(x), cnt(x), tot(x))
  }

  /** One more element bumps its group. */
  lemma TallySnoc<T, K>(s: seq<T>, x: T, key: T -> K, cnt: T -> int, tot: T -> int)
    ensures Tally(s + [x], key, cnt, tot) == Bump(Tally(s, key, cnt, tot), key(x), cnt(x), tot(x))
  {
    assert (s + [x])[..|s|] == s;
  }

  /** Tallying the passing elements of one more element of `s`. */
  lemma TallyFilterPrefix<T(!new), K>(s: seq<T>, p: T -> bool, i: int, key: T -> K, cnt: T -> int, tot: T -> int)
    requires 0 <= i < |s|
    ensures Tally(Filter(s[..i + 1], p), key, cnt, tot) ==
      if p(s[i]) then Bump(Tally(Filter(s[..i], p), key, cnt, tot), key(s[i]), cnt(s[i]), tot(s[i]))
      else Tally(Filter(s[..i], p), key, cnt, tot)
  {
    FilterPrefix(s, p, i);
    if p(s[i]) {
      TallySnoc(Filter(s[..i], p), s[i], key, cnt, tot);
    } else {
      assert Filter(s[..i + 1], p) == Filter(s[..i], p) + [];
      assert Filter(s[..i], p) + [] == Filter(s[..i], p);
    }
  }

  /** The part of `cnt` that belongs to group `k`. */
  function CountIn<T, K(==)>(key: T -> K, cnt: T -> int, k: K): T -> int
  {
    (x: T) => if key(x) == k then cnt(x) else 0
  }

  function TotalIn<T, K(==)>(key: T -> K, tot: T -> int, k: K): T -> int
  {
    (x: T) => if key(x) == k then tot(x) else 0
  }

  /** Every group's entry is the sum over exactly the elements of that group. */
  lemma {:induction false} TallyLookup<T, K>(s: seq<T>, key: T -> K, cnt: T -> int, tot: T -> int, k: K)
    ensures CountOf(Tally(s, key, cnt, tot), k) == SumInt(s, CountIn(key, cnt, k))
    ensures TotalOf(Tally(s, key, cnt, tot), k) == SumInt(s, TotalIn(key, tot, k))
  {
    if s != [] {
      var x := s[|s| - 1];
      TallyLookup(s[..|s| - 1], key, cnt, tot, k);
      BumpLookup(Tally(s[..|s| - 1], key, cnt, tot), key(x), cnt(x), tot(x), k);
    }
  }

  /** Some element of `s` has key `k`. */
  predicate HasKey<T, K(==)>(s: seq<T>, key: T -> K, k: K)
  {
    exists i :: 0 <= i < |s| && key(s[i]) == k
  }

  lemma HasKeySnoc<T, K>(s: seq<T>, key: T -> K, k: K)
    requires s != []
    ensures HasKey(s, key, k) <==> HasKey(s[..|s| - 1], key, k) || key(s[|s| - 1]) == k
  {
    var init := s[..|s| - 1];
    if HasKey(init, key, k) {
      var i :| 0 <= i < |init| && key(init[i]) == k;
      assert key(s[i]) == k;
    }
    if HasKey(s, key, k) {
      var i :| 0 <= i < |s| && key(s[i]) == k;
      if i < |init| {
        assert key(init[i]) == k;
      }
    }
  }

  /** One entry per group: the keys are those of the elements, first occurrence first, without repeats. */
  lemma {:induction false} TallyKeys<T, K>(s: seq<T>, key: T -> K, cnt: T -> int, tot: T -> int)
    ensures UniqueKeys(Tally(s, key, cnt, tot))
    ensures forall k :: k in Keys(Tally(s, key, cnt, tot)) <==> HasKey(s, key, k)
  {
    if s != [] {
      var init := s[..|s| - 1];
      var x := s[|s| - 1];
      var t := Tally(init, key, cnt, tot);
      TallyKeys(init, key, cnt, tot);
      BumpUnique(t, key(x), cnt(x), tot(x));
      assert Keys(Tally(s, key, cnt, tot)) == if key(x) in Keys(t) then Keys(t) else Keys(t) + [key(x)];
      forall k ensures k in Keys(Tally(s, key, cnt, tot)) <==> HasKey(s, key, k) {
        HasKeySnoc(s, key, k);
      }
    }
  }

  function BucketCount<K(==)>(b: Bucket<K>): int { b.count }

  function BucketTotal<K(==)>(b: Bucket<K>): int { b.total }

  lemma {:induction false} BumpCounts<K>(t: seq<Bucket<K>>, k: K, c: int, v: int)
    ensures SumInt(Bump(t, k, c, v), BucketCount) == SumInt(t, BucketCount) + c
  {
    if t == [] {
      assert [Bucket(k, c, v)][..0] == [];
    } else {
      assert t == [t[0]] + t[1..];
      SumIntCons(t[0], t[1..], BucketCount);
      if t[0].key == k {
        SumIntCons(Bucket(k, t[0].count + c, t[0].total + v), t[1..], BucketCount);
      } else {
        BumpCounts(t[1..], k, c, v);
        SumIntCons(t[0], Bump(t[1..], k, c, v), BucketCount);
      }
    }
  }

  lemma {:induction false} BumpTotals<K>(t: seq<Bucket<K>>, k: K, c: int, v: int)
    ensures SumInt(Bump(t, k, c, v), BucketTotal) == SumInt(t, BucketTotal) + v
  {
    if t == [] {
      assert [Bucket(k, c, v)][..0] == [];
    } else {
      assert t == [t[0]] + t[1..];
      SumIntCons(t[0], t[1..], BucketTotal);
      if t[0].key == k {
        SumIntCons(Bucket(k, t[0].count + c, t[0].total + v), t[1..], BucketTotal);
      } else {
        BumpTotals(t[1..], k, c, v);
        SumIntCons(t[0], Bump(t[1..], k, c, v), BucketTotal);
      }
    }
  }

  /** Grouping loses nothing: the group entries add up to the sum over all elements. */
  lemma {:induction false} TallySums<T, K>(s: seq<T>, key: T -> K, cnt: T -> int, tot: T -> int)
    ensures SumInt(Tally(s, key, cnt, tot), BucketCount) == SumInt(s, cnt)
    ensures SumInt(Tally(s, key, cnt, tot), BucketTotal) == SumInt(s, tot)
  {
    if s != [] {
      var x := s[|s| - 1];
      TallySums(s[..|s| - 1], key, cnt, tot);
      BumpCounts(Tally(s[..|s| - 1], key, cnt, tot), key(x), cnt(x), tot(x));
      BumpTotals(Tally(s[..|s| - 1], key, cnt, tot), key(x), cnt(x), tot(x));
    }
  }

  /** Every group's total lies between 0 and its count. */
  predicate Dominated<K>(t: seq<Bucket<K>>)
  {
    forall i :: 0 <= i < |t| ==> 0 <= t[i].total <= t[i].count
  }

  lemma {:induction false} BumpDominated<K>(t: seq<Bucket<K>>, k: K, c: int, v: int)
    requires Dominated(t) && 0 <= v <= c
    ensures Dominated(Bump(t, k, c, v))
  {
    if t != [] && t[0].key != k {
      BumpDominated(t[1..], k, c, v);
      var r := Bump(t, k, c, v);
      forall i | 0 <= i < |r| ensures 0 <= r[i].total <= r[i].count {
        if i > 0 {
          assert r[i] == Bump(t[1..], k, c, v)[i - 1];
        }
      }
    }
  }

  /** When each element's total contribution is between 0 and its count contribution, so is every group's. */
  lemma {:induction false} TallyDominated<T, K>(s: seq<T>, key: T -> K, cnt: T -> int, tot: T -> int)
    requires forall i :: 0 <= i < |s| ==> 0 <= tot(s[i]) <= cnt(s[i])
    ensures Dominated(Tally(s, key, cnt, tot))
  {
    if s != [] {
      var x := s[|s| - 1];
      TallyDominated(s[..|s| - 1], key, cnt, tot);
      BumpDominated(Tally(s[..|s| - 1], key, cnt, tot), key(x), cnt(x), tot(x));
    }
  }

  function Unit<T>(x: T): int { 1 }

  lemma {:induction false} SumIntUnit<T>(s: seq<T>)
    ensures SumInt(s, Unit) == |s|
  {
    if s != [] {
      SumIntUnit(s[..|s| - 1]);
    }
  }
}
