/**
 * Sequence operations that the dashboard code performs with JavaScript's array
 * and Map built-ins: `slice(0, n)`, the stable `Array.prototype.sort`, sums
 * written with `reduce`, and grouping into a `Map` of arrays in encounter order.
 */
module Seqs {

  /** `s.slice(0, n)`: the first `n` elements, or all of them when there are fewer. */
  function Take<T>(s: seq<T>, n: nat): (r: seq<T>)
    ensures |r| == if |s| <= n then |s| else n
    ensures r == s[..|r|]
  {
    if |s| <= n then s else s[..n]
  }

  ghost predicate Distinct<T>(s: seq<T>) {
    forall i, j :: 0 <= i < j < |s| ==> s[i] != s[j]
  }

  ghost predicate DistinctBy<T, K>(s: seq<T>, g: T -> K) {
    forall i, j :: 0 <= i < j < |s| ==> g(s[i]) != g(s[j])
  }

  // ---------------------------------------------------------------------------
  // Stable sorting
  // ---------------------------------------------------------------------------

  ghost predicate SortedBy<T>(s: seq<T>, key: T -> real) {
    forall i, j :: 0 <= i < j < |s| ==> key(s[i]) <= key(s[j])
  }

  /** Inserts `x` after every element whose key is not larger than its own. */
  function Insert<T>(x: T, s: seq<T>, key: T -> real): (r: seq<T>)
    ensures |r| == |s| + 1
    ensures multiset(r) == multiset(s) + multiset{x}
  {
    if s == [] then [x]
    else if key(x) < key(s[0]) then [x] + s
    else
      assert s == [s[0]] + s[1..];
      [s[0]] + Insert(x, s[1..], key)
  }

  /**
   * The stable sort `Array.prototype.sort` performs (stable since ES2019), in
   * ascending order of `key`: elements are inserted one by one, from the front,
   * each after all earlier ones with an equal key. A descending sort is this
   * sort on the negated key.
   */
  function SortBy<T>(s: seq<T>, key: T -> real): (r: seq<T>)
    ensures |r| == |s|
    ensures multiset(r) == multiset(s)
  {
    if s == [] then []
    else
      assert s == s[..|s| - 1] + [s[|s| - 1]];
      Insert(s[|s| - 1], SortBy(s[..|s| - 1], key), key)
  }

  lemma {:induction false} InsertSorted<T>(x: T, s: seq<T>, key: T -> real)
    requires SortedBy(s, key)
    ensures SortedBy(Insert(x, s, key), key)
  {
    if s != [] && key(s[0]) <= key(x) {
      var rest := Insert(x, s[1..], key);
      InsertSorted(x, s[1..], key);
      forall j | 0 <= j < |rest|
        ensures key(s[0]) <= key(rest[j])
      {
        assert rest[j] in multiset(rest);
        if rest[j] != x {
          assert rest[j] in multiset(s[1..]);
          var k :| 0 <= k < |s[1..]| && s[1..][k] == rest[j];
          assert s[k + 1] == rest[j];
        }
      }
    }
  }

  lemma {:induction false} SortBySorted<T>(s: seq<T>, key: T -> real)
    ensures SortedBy(SortBy(s, key), key)
  {
    if s != [] {
      SortBySorted(s[..|s| - 1], key);
      InsertSorted(s[|s| - 1], SortBy(s[..|s| - 1], key), key);
    }
  }

  /** The elements of `s` whose key equals `k`, in their order in `s`. */
  function KeepKey<T>(s: seq<T>, key: T -> real, k: real): seq<T> {
    if s == [] then []
    else (if key(s[0]) == k then [s[0]] else []) + KeepKey(s[1..], key, k)
  }

  lemma SortByElements<T>(s: seq<T>, key: T -> real)
    ensures forall x :: x in SortBy(s, key) <==> x in s
  {
    var r := SortBy(s, key);
    forall x ensures x in r <==> x in s {
      assert x in r <==> x in multiset(r);
      assert x in s <==> x in multiset(s);
    }
  }

  lemma {:induction false} KeepKeyConcat<T>(a: seq<T>, b: seq<T>, key: T -> real, k: real)
    ensures KeepKey(a + b, key, k) == KeepKey(a, key, k) + KeepKey(b, key, k)
  {
    if a == [] {
      assert a + b == b;
    } else {
      var h := if key(a[0]) == k then [a[0]] else [];
      assert (a + b)[1..] == a[1..] + b;
      assert (a + b)[0] == a[0];
      assert KeepKey(a + b, key, k) == h + KeepKey(a[1..] + b, key, k);
      assert KeepKey(a, key, k) == h + KeepKey(a[1..], key, k);
      KeepKeyConcat(a[1..], b, key, k);
      ConcatAssoc(h, KeepKey(a[1..], key, k), KeepKey(b, key, k));
    }
  }

  lemma {:induction false} KeepKeyNone<T>(s: seq<T>, key: T -> real, k: real)
    requires forall i :: 0 <= i < |s| ==> key(s[i]) != k
    ensures KeepKey(s, key, k) == []
  {
    if s != [] {
      KeepKeyNone(s[1..], key, k);
    }
  }

  lemma SortedTail<T>(s: seq<T>, key: T -> real)
    requires s != [] && SortedBy(s, key)
    ensures SortedBy(s[1..], key)
  {
    var tail := s[1..];
    forall i, j | 0 <= i < j < |tail|
      ensures key(tail[i]) <= key(tail[j])
    {
      assert tail[i] == s[i + 1] && tail[j] == s[j + 1];
    }
  }

  /** Inserting in front of every larger key: only `x` may join the elements with key `k`. */
  lemma InsertStableFront<T>(x: T, s: seq<T>, key: T -> real, k: real)
    requires SortedBy(s, key)
    requires s != [] && key(x) < key(s[0])
    ensures KeepKey(Insert(x, s, key), key, k)
         == KeepKey(s, key, k) + (if key(x) == k then [x] else [])
  {
    var fx := if key(x) == k then [x] else [];
    var r := [x] + s;
    assert Insert(x, s, key) == r;
    assert r[1..] == s && r[0] == x;
    assert KeepKey(r, key, k) == fx + KeepKey(s, key, k);
    if key(x) == k {
      forall i | 0 <= i < |s|
        ensures key(s[i]) != k
      {
        assert i == 0 || key(s[0]) <= key(s[i]);
      }
      KeepKeyNone(s, key, k);
    }
  }

  lemma ConcatAssoc<T>(a: seq<T>, b: seq<T>, c: seq<T>)
    ensures a + (b + c) == (a + b) + c
  {
  }

  /** Inserting past the head: the head stays first, given the claim for the tail. */
  lemma InsertStableCons<T>(x: T, s: seq<T>, key: T -> real, k: real)
    requires s != [] && !(key(x) < key(s[0]))
    requires KeepKey(Insert(x, s[1..], key), key, k)
          == KeepKey(s[1..], key, k) + (if key(x) == k then [x] else [])
    ensures KeepKey(Insert(x, s, key), key, k)
         == KeepKey(s, key, k) + (if key(x) == k then [x] else [])
  {
    var s0, tail := s[0], s[1..];
    var f0 := if key(s0) == k then [s0] else [];
    var rest := Insert(x, tail, key);
    var r := [s0] + rest;
    assert Insert(x, s, key) == r;
    assert r[1..] == rest && r[0] == s0;
    assert KeepKey(r, key, k) == f0 + KeepKey(rest, key, k);
    assert KeepKey(s, key, k) == f0 + KeepKey(tail, key, k);
    var fx := if key(x) == k then [x] else [];
    calc {
      KeepKey(Insert(x, s, key), key, k);
      f0 + KeepKey(rest, key, k);
      f0 + (KeepKey(tail, key, k) + fx);
      { ConcatAssoc(f0, KeepKey(tail, key, k), fx); }
      (f0 + KeepKey(tail, key, k)) + fx;
      KeepKey(s, key, k) + fx;
    }
  }

  lemma {:induction false} InsertStable<T>(x: T, s: seq<T>, key: T -> real, k: real)
    requires SortedBy(s, key)
    ensures KeepKey(Insert(x, s, key), key, k)
         == KeepKey(s, key, k) + (if key(x) == k then [x] else [])
  {
    if s == [] {
      assert Insert(x, s, key) == [x];
      assert [x][1..] == [];
    } else if key(x) < key(s[0]) {
      InsertStableFront(x, s, key, k);
    } else {
      SortedTail(s, key);
      InsertStable(x, s[1..], key, k);
      InsertStableCons(x, s, key, k);
    }
  }

  /** The sort is stable: the elements sharing a key keep their relative order. */
  lemma {:induction false} SortByStable<T>(s: seq<T>, key: T -> real, k: real)
    ensures KeepKey(SortBy(s, key), key, k) == KeepKey(s, key, k)
  {
    if s != [] {
      var init, last := s[..|s| - 1], s[|s| - 1];
      assert s == init + [last];
      var sorted := SortBy(init, key);
      assert SortBy(s, key) == Insert(last, sorted, key);
      SortByStable(init, key, k);
      SortBySorted(init, key);
      InsertStable(last, sorted, key, k);
      KeepKeyConcat(init, [last], key, k);
      assert [last][1..] == [];
      assert KeepKey([last], key, k) == (if key(last) == k then [last] else []) + KeepKey([], key, k);
    }
  }

  lemma {:induction false} InsertDistinctBy<T, K>(x: T, s: seq<T>, key: T -> real, g: T -> K)
    requires DistinctBy(s, g)
    requires forall i :: 0 <= i < |s| ==> g(s[i]) != g(x)
    ensures DistinctBy(Insert(x, s, key), g)
  {
    if s != [] && key(s[0]) <= key(x) {
      var rest := Insert(x, s[1..], key);
      InsertDistinctBy(x, s[1..], key, g);
      forall j | 0 <= j < |rest|
        ensures g(s[0]) != g(rest[j])
      {
        assert rest[j] in multiset(rest);
        if rest[j] != x {
          assert rest[j] in multiset(s[1..]);
          var k :| 0 <= k < |s[1..]| && s[1..][k] == rest[j];
          assert s[k + 1] == rest[j];
        }
      }
      assert Insert(x, s, key) == [s[0]] + rest;
    }
  }

  /** Sorting keeps any projection that was distinct distinct. */
  lemma {:induction false} SortByDistinctBy<T, K>(s: seq<T>, key: T -> real, g: T -> K)
    requires DistinctBy(s, g)
    ensures DistinctBy(SortBy(s, key), g)
  {
    if s != [] {
      var init, last := s[..|s| - 1], s[|s| - 1];
      SortByDistinctBy(init, key, g);
      var sorted := SortBy(init, key);
      forall i | 0 <= i < |sorted|
        ensures g(sorted[i]) != g(last)
      {
        assert sorted[i] in multiset(init);
        var k :| 0 <= k < |init| && init[k] == sorted[i];
      }
      InsertDistinctBy(last, sorted, key, g);
    }
  }

  // ---------------------------------------------------------------------------
  // Sums and counts (`reduce((acc, x) => acc + f(x), 0)` and `filter(p).length`)
  // ---------------------------------------------------------------------------

  function Sum<T>(s: seq<T>, f: T -> int): int {
    if s == [] then 0 else Sum(s[..|s| - 1], f) + f(s[|s| - 1])
  }

  function SumReal<T>(s: seq<T>, f: T -> real): real {
    if s == [] then 0.0 else SumReal(s[..|s| - 1], f) + f(s[|s| - 1])
  }

  /** `xs.reduce((a, b) => a + b, 0)` */
  function SumList(xs: seq<real>): real {
    if xs == [] then 0.0 else SumList(xs[..|xs| - 1]) + xs[|xs| - 1]
  }

  function Count<T>(s: seq<T>, p: T -> bool): nat {
    if s == [] then 0 else Count(s[..|s| - 1], p) + (if p(s[|s| - 1]) then 1 else 0)
  }

  /** The arithmetic mean, or 0 for an empty collection (`n > 0 ? total / n : 0`). */
  function Mean(total: real, n: int): real {
    if n > 0 then total / n as real else 0.0
  }

  lemma {:induction false} SumConcat<T>(a: seq<T>, b: seq<T>, f: T -> int)
    ensures Sum(a + b, f) == Sum(a, f) + Sum(b, f)
  {
    if b != [] {
      assert (a + b)[..|a + b| - 1] == a + b[..|b| - 1];
      SumConcat(a, b[..|b| - 1], f);
    } else {
      assert a + b == a;
    }
  }

  lemma {:induction false} SumRealConcat<T>(a: seq<T>, b: seq<T>, f: T -> real)
    ensures SumReal(a + b, f) == SumReal(a, f) + SumReal(b, f)
  {
    if b != [] {
      assert (a + b)[..|a + b| - 1] == a + b[..|b| - 1];
      SumRealConcat(a, b[..|b| - 1], f);
    } else {
      assert a + b == a;
    }
  }

  lemma {:induction false} SumInsert<T>(x: T, s: seq<T>, key: T -> real, f: T -> int)
    ensures Sum(Insert(x, s, key), f) == Sum(s, f) + f(x)
  {
    if s == [] {
      assert [x][..0] == [];
    } else if key(x) < key(s[0]) {
      SumConcat([x], s, f);
      assert [x][..0] == [];
    } else {
      SumInsert(x, s[1..], key, f);
      SumConcat([s[0]], Insert(x, s[1..], key), f);
      SumConcat([s[0]], s[1..], f);
      assert [s[0]] + s[1..] == s;
      assert [s[0]][..0] == [];
    }
  }

  lemma {:induction false} SumRealInsert<T>(x: T, s: seq<T>, key: T -> real, f: T -> real)
    ensures SumReal(Insert(x, s, key), f) == SumReal(s, f) + f(x)
  {
    if s == [] {
      assert [x][..0] == [];
    } else if key(x) < key(s[0]) {
      SumRealConcat([x], s, f);
      assert [x][..0] == [];
    } else {
      SumRealInsert(x, s[1..], key, f);
      SumRealConcat([s[0]], Insert(x, s[1..], key), f);
      SumRealConcat([s[0]], s[1..], f);
      assert [s[0]] + s[1..] == s;
      assert [s[0]][..0] == [];
    }
  }

  /** Sorting does not change a sum over the elements. */
  lemma {:induction false} SumSortBy<T>(s: seq<T>, key: T -> real, f: T -> int)
    ensures Sum(SortBy(s, key), f) == Sum(s, f)
  {
    if s != [] {
      SumSortBy(s[..|s| - 1], key, f);
      SumInsert(s[|s| - 1], SortBy(s[..|s| - 1], key), key, f);
    }
  }

  lemma {:induction false} SumRealSortBy<T>(s: seq<T>, key: T -> real, f: T -> real)
    ensures SumReal(SortBy(s, key), f) == SumReal(s, f)
  {
    if s != [] {
      SumRealSortBy(s[..|s| - 1], key, f);
      SumRealInsert(s[|s| - 1], SortBy(s[..|s| - 1], key), key, f);
    }
  }

  /** The sum of n values that all lie in [lo, hi] lies in [n * lo, n * hi]. */
  lemma {:induction false} SumListBounds(xs: seq<real>, lo: real, hi: real)
    requires forall i :: 0 <= i < |xs| ==> lo <= xs[i] <= hi
    ensures lo * |xs| as real <= SumList(xs) <= hi * |xs| as real
  {
    if xs != [] {
      SumListBounds(xs[..|xs| - 1], lo, hi);
      var m := (|xs| - 1) as real;
      assert m + 1.0 == |xs| as real;
      assert lo * |xs| as real == lo * m + lo;
      assert hi * |xs| as real == hi * m + hi;
    }
  }

  /** A mean of values that all lie in [lo, hi] lies in [lo, hi]. */
  lemma MeanBounds(xs: seq<real>, lo: real, hi: real)
    requires xs != []
    requires forall i :: 0 <= i < |xs| ==> lo <= xs[i] <= hi
    ensures lo <= Mean(SumList(xs), |xs|) <= hi
  {
    SumListBounds(xs, lo, hi);
    var n := |xs| as real;
    var m := SumList(xs) / n;
    assert SumList(xs) == m * n;
    assert (m - lo) * n >= 0.0;
    assert (hi - m) * n >= 0.0;
    PositiveFactor(m - lo, n);
    PositiveFactor(hi - m, n);
  }

  /** A product that is not negative, with a positive factor, has a non-negative other factor. */
  lemma PositiveFactor(x: real, n: real)
    requires n > 0.0 && x * n >= 0.0
    ensures x >= 0.0
  {
  }

  // ---------------------------------------------------------------------------
  // Grouping into a Map of arrays, in encounter order
  // ---------------------------------------------------------------------------

  /** The distinct keys of `s`, in the order a JavaScript `Map` first receives them. */
  function Keys<T>(s: seq<T>, key: T -> int): (ks: seq<int>)
    ensures forall i :: 0 <= i < |s| ==> key(s[i]) in ks
    ensures Distinct(ks)
  {
    if s == [] then []
    else
      var init, last := s[..|s| - 1], s[|s| - 1];
      var ks := Keys(init, key);
      assert forall i :: 0 <= i < |s| - 1 ==> s[i] == init[i];
      if key(last) in ks then ks else ks + [key(last)]
  }

  /** The elements of `s` with key `k`, in encounter order. */
  function Group<T>(s: seq<T>, key: T -> int, k: int): (g: seq<T>)
    ensures |g| <= |s|
    ensures forall i :: 0 <= i < |g| ==> key(g[i]) == k
  {
    if s == [] then []
    else Group(s[..|s| - 1], key, k) + (if key(s[|s| - 1]) == k then [s[|s| - 1]] else [])
  }

  lemma GroupAppend<T>(s: seq<T>, x: T, key: T -> int, k: int)
    ensures Group(s + [x], key, k) == Group(s, key, k) + (if key(x) == k then [x] else [])
  {
    assert (s + [x])[..|s|] == s;
  }

  lemma KeysAppend<T>(s: seq<T>, x: T, key: T -> int)
    ensures Keys(s + [x], key) == if key(x) in Keys(s, key) then Keys(s, key) else Keys(s, key) + [key(x)]
  {
    assert (s + [x])[..|s|] == s;
  }

  lemma {:induction false} GroupEmpty<T>(s: seq<T>, key: T -> int, k: int)
    requires k !in Keys(s, key)
    ensures Group(s, key, k) == []
  {
    if s != [] {
      GroupEmpty(s[..|s| - 1], key, k);
    }
  }

  lemma {:induction false} GroupNonEmpty<T>(s: seq<T>, key: T -> int, k: int)
    requires k in Keys(s, key)
    ensures Group(s, key, k) != []
  {
    var init := s[..|s| - 1];
    if k in Keys(init, key) {
      GroupNonEmpty(init, key, k);
    }
  }

  lemma {:induction false} GroupElements<T>(s: seq<T>, key: T -> int, k: int)
    ensures forall x :: x in Group(s, key, k) ==> x in s
  {
    if s != [] {
      var init := s[..|s| - 1];
      GroupElements(init, key, k);
      assert forall x :: x in init ==> x in s;
    }
  }

  /** Every key that `Keys` lists belongs to some element. */
  lemma {:induction false} KeysSound<T>(s: seq<T>, key: T -> int, k: int)
    requires k in Keys(s, key)
    ensures exists i :: 0 <= i < |s| && key(s[i]) == k
  {
    var init := s[..|s| - 1];
    if k in Keys(init, key) {
      KeysSound(init, key, k);
      var i :| 0 <= i < |init| && key(init[i]) == k;
      assert s[i] == init[i];
    } else {
      assert key(s[|s| - 1]) == k;
    }
  }

  lemma {:induction false} GroupMember<T>(s: seq<T>, key: T -> int, i: nat)
    requires i < |s|
    ensures s[i] in Group(s, key, key(s[i]))
  {
    var init := s[..|s| - 1];
    if i < |s| - 1 {
      GroupMember(init, key, i);
      assert init[i] == s[i];
    }
  }

  /** The sum, over the keys in `order`, of the sizes of their groups. */
  function GroupSizes<T>(s: seq<T>, key: T -> int, order: seq<int>): int {
    if order == [] then 0
    else GroupSizes(s, key, order[..|order| - 1]) + |Group(s, key, order[|order| - 1])|
  }

  /** The sum, over the keys in `order`, of `f` summed over each group. */
  function GroupSums<T>(s: seq<T>, key: T -> int, order: seq<int>, f: T -> real): real {
    if order == [] then 0.0
    else GroupSums(s, key, order[..|order| - 1], f) + SumReal(Group(s, key, order[|order| - 1]), f)
  }

  lemma {:induction false} GroupSizesStep<T>(s: seq<T>, x: T, key: T -> int, order: seq<int>)
    requires Distinct(order)
    ensures GroupSizes(s + [x], key, order)
         == GroupSizes(s, key, order) + (if key(x) in order then 1 else 0)
  {
    assert (s + [x])[..|s|] == s;
    if order != [] {
      var init := order[..|order| - 1];
      assert forall i :: 0 <= i < |init| ==> init[i] == order[i];
      GroupSizesStep(s, x, key, init);
      assert key(x) in order <==> key(x) in init || key(x) == order[|order| - 1];
    }
  }

  lemma {:induction false} GroupSumsStep<T>(s: seq<T>, x: T, key: T -> int, order: seq<int>, f: T -> real)
    requires Distinct(order)
    ensures GroupSums(s + [x], key, order, f)
         == GroupSums(s, key, order, f) + (if key(x) in order then f(x) else 0.0)
  {
    assert (s + [x])[..|s|] == s;
    if order != [] {
      var init := order[..|order| - 1];
      var k := order[|order| - 1];
      assert forall i :: 0 <= i < |init| ==> init[i] == order[i];
      GroupSumsStep(s, x, key, init, f);
      assert key(x) in order <==> key(x) in init || key(x) == k;
      if key(x) == k {
        assert Group(s + [x], key, k) == Group(s, key, k) + [x];
        assert Group(s, key, k) + [x] == Group(s, key, k) + [x];
        assert (Group(s, key, k) + [x])[..|Group(s, key, k)|] == Group(s, key, k);
      } else {
        assert Group(s + [x], key, k) == Group(s, key, k);
      }
    }
  }

  /** Every element lands in exactly one group: the group sizes add up to the whole. */
  lemma {:induction false} GroupSizesCover<T>(s: seq<T>, key: T -> int, order: seq<int>)
    requires Distinct(order)
    requires forall i :: 0 <= i < |s| ==> key(s[i]) in order
    ensures GroupSizes(s, key, order) == |s|
  {
    if s == [] {
      GroupSizesZero(key, order);
    } else {
      var init := s[..|s| - 1];
      assert s == init + [s[|s| - 1]];
      GroupSizesCover(init, key, order);
      GroupSizesStep(init, s[|s| - 1], key, order);
    }
  }

  lemma {:induction false} GroupSizesZero<T>(key: T -> int, order: seq<int>)
    ensures GroupSizes([], key, order) == 0
  {
    if order != [] {
      GroupSizesZero(key, order[..|order| - 1]);
    }
  }

  lemma {:induction false} GroupSumsZero<T>(key: T -> int, order: seq<int>, f: T -> real)
    ensures GroupSums([], key, order, f) == 0.0
  {
    if order != [] {
      GroupSumsZero(key, order[..|order| - 1], f);
    }
  }

  /** A sum over the whole equals the sum of the per-group sums. */
  lemma {:induction false} GroupSumsCover<T>(s: seq<T>, key: T -> int, order: seq<int>, f: T -> real)
    requires Distinct(order)
    requires forall i :: 0 <= i < |s| ==> key(s[i]) in order
    ensures GroupSums(s, key, order, f) == SumReal(s, f)
  {
    if s == [] {
      GroupSumsZero(key, order, f);
    } else {
      var init := s[..|s| - 1];
      assert s == init + [s[|s| - 1]];
      GroupSumsCover(init, key, order, f);
      GroupSumsStep(init, s[|s| - 1], key, order, f);
    }
  }

  ghost predicate Grouped<T>(s: seq<T>, key: T -> int, groups: map<int, seq<T>>, order: seq<int>) {
    && order == Keys(s, key)
    && (forall k :: k in groups <==> k in order)
    && (forall k :: k in groups ==> groups[k] == Group(s, key, k))
  }

  lemma GroupedStep<T>(s: seq<T>, x: T, key: T -> int, groups: map<int, seq<T>>, order: seq<int>)
    requires Grouped(s, key, groups, order)
    ensures var k := key(x);
            Grouped(s + [x], key,
                    groups[k := (if k in groups then groups[k] else []) + [x]],
                    if k in groups then order else order + [k])
  {
    var k := key(x);
    var groups' := groups[k := (if k in groups then groups[k] else []) + [x]];
    var order' := if k in groups then order else order + [k];
    KeysAppend(s, x, key);
    assert order' == Keys(s + [x], key);
    forall k' ensures k' in groups' <==> k' in order' {
    }
    forall k' | k' in groups' ensures groups'[k'] == Group(s + [x], key, k') {
      GroupAppend(s, x, key, k');
      if k' == k && k !in groups {
        GroupEmpty(s, key, k);
      }
    }
  }

  /**
   * The loop `s.forEach(x => { const e = m.get(key(x)) || []; e.push(x); m.set(key(x), e) })`:
   * `groups` is the Map, `order` the order in which its `forEach` visits the keys.
   */
  method GroupBy<T>(s: seq<T>, key: T -> int) returns (groups: map<int, seq<T>>, order: seq<int>)
    ensures order == Keys(s, key)
    ensures forall k :: k in groups <==> k in order
    ensures forall k :: k in groups ==> groups[k] == Group(s, key, k)
  {
    groups, order := map[], [];
    for i := 0 to |s|
      invariant Grouped(s[..i], key, groups, order)
    {
      GroupedStep(s[..i], s[i], key, groups, order);
      var k := key(s[i]);
      var existing := if k in groups then groups[k] else [];
      if k !in groups {
        order := order + [k];
      }
      groups := groups[k := existing + [s[i]]];
      assert s[..i + 1] == s[..i] + [s[i]];
    }
    assert s[..|s|] == s;
  }
}
