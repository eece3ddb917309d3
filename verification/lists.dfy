/** Kotlin's list operations the modelled code leans on: `filter`, and the
    stable `sortedBy` family, stated for an integer sort key (a descending
    sort or a multi-key comparator is an ascending sort on a derived key). */
module Lists {

  /** `filter`: the elements that pass, in their original order. */
  function Filter<T(!new)>(s: seq<T>, p: T -> bool): (r: seq<T>)
    ensures |r| <= |s|
    ensures forall i :: 0 <= i < |r| ==> p(r[i])
  {
    if |s| == 0 then []
    else
      var rest := Filter(s[1..], p);
      assert s == [s[0]] + s[1..];
      if p(s[0]) then [s[0]] + rest else rest
  }

  /** `filter` keeps exactly the passing elements. */
  lemma {:induction false} FilterMembers<T(!new)>(s: seq<T>, p: T -> bool, x: T)
    ensures x in Filter(s, p) <==> x in s && p(x)
  {
    if |s| > 0 {
      FilterMembers(s[1..], p, x);
      assert s == [s[0]] + s[1..];
    }
  }

  /** `filter` keeps every passing element as often as it occurs. */
  lemma {:induction false} FilterCounts<T(!new)>(s: seq<T>, p: T -> bool, x: T)
    ensures multiset(Filter(s, p))[x] == if p(x) then multiset(s)[x] else 0
  {
    if |s| > 0 {
      FilterCounts(s[1..], p, x);
      assert s == [s[0]] + s[1..];
    }
  }

  lemma {:induction false} FilterAppend<T(!new)>(a: seq<T>, b: seq<T>, p: T -> bool)
    ensures Filter(a + b, p) == Filter(a, p) + Filter(b, p)
  {
    if |a| > 0 {
      assert (a + b)[1..] == a[1..] + b;
      FilterAppend(a[1..], b, p);
    } else {
      assert a + b == b;
    }
  }

  predicate SortedBy<T>(s: seq<T>, key: T -> int) {
    forall i, j :: 0 <= i < j < |s| ==> key(s[i]) <= key(s[j])
  }

  /** Where `sortedBy` puts `x`: after every element whose key is not
      larger than its own. */
  function Slot<T>(sorted: seq<T>, x: T, key: T -> int): (k: nat)
    requires SortedBy(sorted, key)
    ensures k <= |sorted|
    ensures forall i :: 0 <= i < k ==> key(sorted[i]) <= key(x)
    ensures forall i :: k <= i < |sorted| ==> key(x) < key(sorted[i])
  {
    if |sorted| == 0 || key(x) < key(sorted[0]) then 0
    else 1 + Slot(sorted[1..], x, key)
  }

  /** Putting `x` between a prefix of keys no larger than its own and a
      suffix of larger keys keeps the sequence sorted. */
  lemma InsertAtSlotSorted<T>(sorted: seq<T>, x: T, key: T -> int, k: nat)
    requires SortedBy(sorted, key) && k <= |sorted|
    requires forall i :: 0 <= i < k ==> key(sorted[i]) <= key(x)
    requires forall i :: k <= i < |sorted| ==> key(x) < key(sorted[i])
    ensures SortedBy(sorted[..k] + [x] + sorted[k..], key)
  {
    var r := sorted[..k] + [x] + sorted[k..];
    assert forall i :: 0 <= i < k ==> r[i] == sorted[i];
    assert r[k] == x;
    assert forall i :: k < i < |r| ==> r[i] == sorted[i - 1];
  }

  function Insert<T>(sorted: seq<T>, x: T, key: T -> int): (r: seq<T>)
    requires SortedBy(sorted, key)
    ensures |r| == |sorted| + 1
    ensures multiset(r) == multiset(sorted) + multiset{x}
    ensures SortedBy(r, key)
  {
    var k := Slot(sorted, x, key);
    assert sorted == sorted[..k] + sorted[k..];
    InsertAtSlotSorted(sorted, x, key, k);
    sorted[..k] + [x] + sorted[k..]
  }

  /** A stable sort by ascending key: an insertion sort that inserts each
      element after its equals. */
  function SortBy<T>(s: seq<T>, key: T -> int): (r: seq<T>)
    ensures |r| == |s|
    ensures multiset(r) == multiset(s)
    ensures SortedBy(r, key)
  {
    if |s| == 0 then []
    else
      assert s == s[..|s| - 1] + [s[|s| - 1]];
      Insert(SortBy(s[..|s| - 1], key), s[|s| - 1], key)
  }

  /** The elements with key `k`, in order. */
  function KeyIs<T>(key: T -> int, k: int): T -> bool {
    (x: T) => key(x) == k
  }

  function WithKey<T(!new)>(s: seq<T>, key: T -> int, k: int): seq<T> {
    Filter(s, KeyIs(key, k))
  }

  lemma FilterNone<T(!new)>(s: seq<T>, p: T -> bool)
    requires forall i :: 0 <= i < |s| ==> !p(s[i])
    ensures Filter(s, p) == []
  {
    if |s| > 0 {
      FilterNone(s[1..], p);
    }
  }

  lemma FilterAroundSlot<T(!new)>(sorted: seq<T>, x: T, key: T -> int, p: T -> bool)
    requires SortedBy(sorted, key)
    ensures var n := Slot(sorted, x, key);
      Filter(Insert(sorted, x, key), p) == Filter(sorted[..n], p) + Filter([x], p) + Filter(sorted[n..], p)
  {
    var n := Slot(sorted, x, key);
    var before, after := sorted[..n], sorted[n..];
    assert Insert(sorted, x, key) == (before + [x]) + after;
    FilterAppend(before + [x], after, p);
    FilterAppend(before, [x], p);
  }

  lemma AfterSlotHasLargerKeys<T>(sorted: seq<T>, x: T, key: T -> int)
    requires SortedBy(sorted, key)
    ensures var after := sorted[Slot(sorted, x, key)..];
      forall i :: 0 <= i < |after| ==> key(x) < key(after[i])
  {
    var n := Slot(sorted, x, key);
    forall i | 0 <= i < |sorted[n..]|
      ensures key(x) < key(sorted[n..][i])
    {
      assert sorted[n..][i] == sorted[n + i];
    }
  }

  lemma NoEqualKeyAfterSlot<T(!new)>(sorted: seq<T>, x: T, key: T -> int)
    requires SortedBy(sorted, key)
    ensures Filter(sorted[Slot(sorted, x, key)..], KeyIs(key, key(x))) == []
  {
    AfterSlotHasLargerKeys(sorted, x, key);
    FilterNone(sorted[Slot(sorted, x, key)..], KeyIs(key, key(x)));
  }

  lemma FilterSingleton<T(!new)>(x: T, p: T -> bool)
    ensures Filter([x], p) == if p(x) then [x] else []
  {
    assert [x][1..] == [];
  }

  lemma FilterSplit<T(!new)>(s: seq<T>, n: nat, p: T -> bool)
    requires n <= |s|
    ensures Filter(s, p) == Filter(s[..n], p) + Filter(s[n..], p)
  {
    assert s == s[..n] + s[n..];
    FilterAppend(s[..n], s[n..], p);
  }

  lemma InsertSameKey<T(!new)>(sorted: seq<T>, x: T, key: T -> int)
    requires SortedBy(sorted, key)
    ensures WithKey(Insert(sorted, x, key), key, key(x)) == WithKey(sorted, key, key(x)) + [x]
  {
    var p := KeyIs(key, key(x));
    var n := Slot(sorted, x, key);
    FilterAroundSlot(sorted, x, key, p);
    FilterSingleton(x, p);
    NoEqualKeyAfterSlot(sorted, x, key);
    FilterSplit(sorted, n, p);
    assert Filter(sorted[n..], p) == [];
    assert Filter(Insert(sorted, x, key), p) == Filter(sorted[..n], p) + [x] + [];
  }

  lemma InsertOtherKey<T(!new)>(sorted: seq<T>, x: T, key: T -> int, k: int)
    requires SortedBy(sorted, key)
    requires key(x) != k
    ensures WithKey(Insert(sorted, x, key), key, k) == WithKey(sorted, key, k)
  {
    var p := KeyIs(key, k);
    var n := Slot(sorted, x, key);
    FilterAroundSlot(sorted, x, key, p);
    FilterSingleton(x, p);
    FilterSplit(sorted, n, p);
    assert Filter(Insert(sorted, x, key), p) == Filter(sorted[..n], p) + [] + Filter(sorted[n..], p);
  }

  /** Stability: elements with equal keys keep their relative order. */
  lemma {:induction false} SortByIsStable<T(!new)>(s: seq<T>, key: T -> int, k: int)
    ensures WithKey(SortBy(s, key), key, k) == WithKey(s, key, k)
  {
    if |s| > 0 {
      var init := s[..|s| - 1];
      SortByIsStable(init, key, k);
      if key(s[|s| - 1]) == k {
        InsertSameKey(SortBy(init, key), s[|s| - 1], key);
      } else {
        InsertOtherKey(SortBy(init, key), s[|s| - 1], key, k);
      }
      assert s == init + [s[|s| - 1]];
      FilterAppend(init, [s[|s| - 1]], KeyIs(key, k));
    }
  }

  /** Kotlin `map`. */
  function Map<A, B>(s: seq<A>, f: A -> B): (r: seq<B>)
    ensures |r| == |s|
    ensures forall i :: 0 <= i < |s| ==> r[i] == f(s[i])
  {
    if |s| == 0 then [] else [f(s[0])] + Map(s[1..], f)
  }
}
