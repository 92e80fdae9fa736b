/** Sorting by a comparator, as the two `sort` calls of the program see it: a strict weak order
    `less`, and either an unstable sort (any ordered rearrangement) or a stable one. */
module Sorting {

  /** `less` is a strict weak order: asymmetric, and "not less" is transitive. */
  ghost predicate StrictWeakOrder<T(!new)>(less: (T, T) -> bool) {
    && (forall a, b :: less(a, b) ==> !less(b, a))
    && (forall a, b, c :: less(a, c) ==> less(a, b) || less(b, c))
  }

  /** Neither comes before the other. */
  predicate Ties<T>(less: (T, T) -> bool, a: T, b: T) {
    !less(a, b) && !less(b, a)
  }

  predicate SortedBy<T>(less: (T, T) -> bool, s: seq<T>) {
    forall i, j :: 0 <= i < j < |s| ==> !less(s[j], s[i])
  }

  /** Puts `x` behind everything it does not come before. */
  function Insert<T>(less: (T, T) -> bool, s: seq<T>, x: T): (r: seq<T>)
    ensures |r| == |s| + 1
  {
    if s == [] || !less(x, s[|s| - 1]) then s + [x]
    else Insert(less, s[..|s| - 1], x) + [s[|s| - 1]]
  }

  /** The stable sort: insertion from the left. */
  function StableSort<T>(less: (T, T) -> bool, s: seq<T>): (r: seq<T>)
    ensures |r| == |s|
  {
    if s == [] then [] else Insert(less, StableSort(less, s[..|s| - 1]), s[|s| - 1])
  }

  function Filter<T>(keep: T -> bool, s: seq<T>): (r: seq<T>)
    ensures forall i :: 0 <= i < |r| ==> r[i] in s && keep(r[i])
    ensures forall i :: 0 <= i < |s| && keep(s[i]) ==> s[i] in r
  {
    if s == [] then []
    else
      var front := Filter(keep, s[..|s| - 1]);
      assert s == s[..|s| - 1] + [s[|s| - 1]];
      if keep(s[|s| - 1]) then front + [s[|s| - 1]] else front
  }

  // ---------- The stable sort is an ordered, stable rearrangement ----------

  lemma {:induction false} InsertKeepsElements<T>(less: (T, T) -> bool, s: seq<T>, x: T)
    ensures multiset(Insert(less, s, x)) == multiset(s) + multiset{x}
  {
    if s != [] && less(x, s[|s| - 1]) {
      InsertKeepsElements(less, s[..|s| - 1], x);
      assert s == s[..|s| - 1] + [s[|s| - 1]];
    }
  }

  lemma {:induction false} SortKeepsElements<T>(less: (T, T) -> bool, s: seq<T>)
    ensures multiset(StableSort(less, s)) == multiset(s)
  {
    if s != [] {
      SortKeepsElements(less, s[..|s| - 1]);
      InsertKeepsElements(less, StableSort(less, s[..|s| - 1]), s[|s| - 1]);
      assert s == s[..|s| - 1] + [s[|s| - 1]];
    }
  }

  lemma SameElements<T>(s: seq<T>, t: seq<T>, x: T)
    requires multiset(s) == multiset(t)
    ensures x in s <==> x in t
  {
    assert x in s <==> x in multiset(s);
    assert x in t <==> x in multiset(t);
  }

  lemma {:induction false} InsertSorts<T(!new)>(less: (T, T) -> bool, s: seq<T>, x: T)
    requires StrictWeakOrder(less) && SortedBy(less, s)
    ensures SortedBy(less, Insert(less, s, x))
  {
    if s != [] && less(x, s[|s| - 1]) {
      var front, last := s[..|s| - 1], s[|s| - 1];
      InsertSorts(less, front, x);
      var r := Insert(less, front, x);
      InsertKeepsElements(less, front, x);
      forall i | 0 <= i < |r| ensures !less(last, r[i]) {
        assert r[i] in multiset(r);
        assert r[i] == x || r[i] in front;
      }
    } else if s != [] {
      var last := s[|s| - 1];
      forall y | y in s ensures !less(x, y) {
        assert !less(last, y) && !less(x, last);
      }
    }
  }

  lemma {:induction false} SortSorts<T(!new)>(less: (T, T) -> bool, s: seq<T>)
    requires StrictWeakOrder(less)
    ensures SortedBy(less, StableSort(less, s))
  {
    if s != [] {
      SortSorts(less, s[..|s| - 1]);
      InsertSorts(less, StableSort(less, s[..|s| - 1]), s[|s| - 1]);
    }
  }

  lemma FilterSnoc<T>(keep: T -> bool, s: seq<T>, x: T)
    ensures Filter(keep, s + [x]) == Filter(keep, s) + (if keep(x) then [x] else [])
  {
    assert (s + [x])[..|s|] == s;
  }

  lemma {:induction false} InsertIsStable<T(!new)>(less: (T, T) -> bool, s: seq<T>, x: T, keep: T -> bool)
    requires forall a, b :: keep(a) && keep(b) ==> Ties(less, a, b)
    ensures Filter(keep, Insert(less, s, x)) == Filter(keep, s + [x])
  {
    FilterSnoc(keep, s, x);
    if s != [] && less(x, s[|s| - 1]) {
      var front, last := s[..|s| - 1], s[|s| - 1];
      assert !(keep(x) && keep(last));
      InsertIsStable(less, front, x, keep);
      FilterSnoc(keep, front, x);
      FilterSnoc(keep, front, last);
      FilterSnoc(keep, Insert(less, front, x), last);
      assert s == front + [last];
    }
  }

  /** Stability: elements that tie keep their order, for every class of tying elements. */
  lemma {:induction false} SortIsStable<T(!new)>(less: (T, T) -> bool, s: seq<T>, keep: T -> bool)
    requires forall a, b :: keep(a) && keep(b) ==> Ties(less, a, b)
    ensures Filter(keep, StableSort(less, s)) == Filter(keep, s)
  {
    if s != [] {
      var front, last := s[..|s| - 1], s[|s| - 1];
      SortIsStable(less, front, keep);
      InsertIsStable(less, StableSort(less, front), last, keep);
      FilterSnoc(keep, StableSort(less, front), last);
    }
  }

  /** Sorting what is already in order changes nothing. */
  lemma {:induction false} SortOfSorted<T>(less: (T, T) -> bool, s: seq<T>)
    requires SortedBy(less, s)
    ensures StableSort(less, s) == s
  {
    if s != [] {
      SortOfSorted(less, s[..|s| - 1]);
      assert s == s[..|s| - 1] + [s[|s| - 1]];
    }
  }

  // ---------- Uniqueness ----------

  lemma HeadIsLeast<T>(less: (T, T) -> bool, s: seq<T>, x: T)
    requires SortedBy(less, s) && x in s
    ensures x == s[0] || !less(x, s[0])
  {
  }

  lemma TailKeeps<T>(s: seq<T>)
    requires s != []
    ensures s == [s[0]] + s[1..] && multiset(s[1..]) == multiset(s) - multiset{s[0]}
  {
    assert s == [s[0]] + s[1..];
  }

  /** Without ties between different elements, there is only one order. */
  lemma {:induction false} SortedIsUnique<T>(less: (T, T) -> bool, s: seq<T>, t: seq<T>)
    requires SortedBy(less, s) && SortedBy(less, t)
    requires multiset(s) == multiset(t)
    requires forall x, y :: x in s && y in s && x != y ==> less(x, y) || less(y, x)
    ensures s == t
  {
    assert |s| == |multiset(s)| == |multiset(t)| == |t|;
    if s != [] {
      var a, b := s[0], t[0];
      SameElements(s, t, a);
      SameElements(s, t, b);
      HeadIsLeast(less, t, a);
      HeadIsLeast(less, s, b);
      assert a == b;
      TailKeeps(s);
      TailKeeps(t);
      SortedIsUnique(less, s[1..], t[1..]);
    }
  }

  // ---------- What any stable sort returns ----------

  /** The elements that tie with `x`. */
  function TiesWith<T>(less: (T, T) -> bool, x: T): T -> bool {
    y => Ties(less, x, y)
  }

  /** `r` and `s` have the same elements, and those that tie come in the same order. */
  ghost predicate SameClasses<T(!new)>(less: (T, T) -> bool, s: seq<T>, r: seq<T>) {
    forall x: T :: Filter(TiesWith(less, x), r) == Filter(TiesWith(less, x), s)
  }

  /** `r` is a stable sort of `s`, whatever the algorithm. */
  ghost predicate IsStableSort<T(!new)>(less: (T, T) -> bool, s: seq<T>, r: seq<T>) {
    SortedBy(less, r) && SameClasses(less, s, r)
  }

  lemma SameClassesSameElements<T(!new)>(less: (T, T) -> bool, s: seq<T>, r: seq<T>)
    requires StrictWeakOrder(less) && SameClasses(less, s, r)
    ensures multiset(s) == multiset(r)
  {
    forall x: T ensures multiset(s)[x] == multiset(r)[x] {
      FilterCounts(TiesWith(less, x), s, x);
      FilterCounts(TiesWith(less, x), r, x);
      assert Filter(TiesWith(less, x), r) == Filter(TiesWith(less, x), s);
    }
  }

  /** The last of a sorted list comes before none of its elements. */
  lemma LastIsGreatest<T(!new)>(less: (T, T) -> bool, s: seq<T>, x: T)
    requires StrictWeakOrder(less) && SortedBy(less, s) && x in s
    ensures !less(s[|s| - 1], x)
  {
  }

  lemma LastsAgree<T(!new)>(less: (T, T) -> bool, s: seq<T>, r: seq<T>)
    requires StrictWeakOrder(less) && SortedBy(less, s) && SortedBy(less, r) && SameClasses(less, s, r)
    requires s != [] && r != []
    ensures s[|s| - 1] == r[|r| - 1]
  {
    var a, b := s[|s| - 1], r[|r| - 1];
    SameClassesSameElements(less, s, r);
    SameElements(s, r, a);
    SameElements(s, r, b);
    LastIsGreatest(less, s, b);
    LastIsGreatest(less, r, a);
    LastIsKept(TiesWith(less, a), s);
    LastIsKept(TiesWith(less, a), r);
    assert Filter(TiesWith(less, a), r) == Filter(TiesWith(less, a), s);
  }

  lemma LastIsKept<T>(keep: T -> bool, s: seq<T>)
    requires s != [] && keep(s[|s| - 1])
    ensures Filter(keep, s) != [] && Filter(keep, s)[|Filter(keep, s)| - 1] == s[|s| - 1]
  {
    FilterSnoc(keep, s[..|s| - 1], s[|s| - 1]);
    assert s == s[..|s| - 1] + [s[|s| - 1]];
  }

  lemma FrontsAgree<T(!new)>(less: (T, T) -> bool, s: seq<T>, r: seq<T>, a: T)
    requires SameClasses(less, s + [a], r + [a])
    ensures SameClasses(less, s, r)
  {
    forall x: T ensures Filter(TiesWith(less, x), r) == Filter(TiesWith(less, x), s) {
      var keep := TiesWith(less, x);
      FilterSnoc(keep, s, a);
      FilterSnoc(keep, r, a);
      assert Filter(keep, r + [a]) == Filter(keep, s + [a]);
      if keep(a) {
        assert Filter(keep, r) == (Filter(keep, r) + [a])[..|Filter(keep, r)|];
      }
    }
  }

  /** Two orderings of the same elements that treat ties alike are the same. */
  lemma {:induction false} SortedClassesAgree<T(!new)>(less: (T, T) -> bool, s: seq<T>, r: seq<T>)
    requires StrictWeakOrder(less) && SortedBy(less, s) && SortedBy(less, r) && SameClasses(less, s, r)
    ensures s == r
  {
    SameClassesSameElements(less, s, r);
    assert |s| == |multiset(s)| == |multiset(r)| == |r|;
    if s != [] {
      var a, front, front' := s[|s| - 1], s[..|s| - 1], r[..|r| - 1];
      LastsAgree(less, s, r);
      assert s == front + [a] && r == front' + [a];
      FrontsAgree(less, front, front', a);
      SortedClassesAgree(less, front, front');
    }
  }

  lemma StableSortIsOne<T(!new)>(less: (T, T) -> bool, s: seq<T>)
    requires StrictWeakOrder(less)
    ensures IsStableSort(less, s, StableSort(less, s))
  {
    SortSorts(less, s);
    forall x: T ensures Filter(TiesWith(less, x), StableSort(less, s)) == Filter(TiesWith(less, x), s) {
      SortIsStable(less, s, TiesWith(less, x));
    }
  }

  /** There is exactly one stable sort: insertion from the left, or any other. */
  lemma {:induction false} StableSortIsUnique<T(!new)>(less: (T, T) -> bool, s: seq<T>, r: seq<T>)
    requires StrictWeakOrder(less)
    ensures IsStableSort(less, s, r) <==> r == StableSort(less, s)
  {
    StableSortIsOne(less, s);
    if IsStableSort(less, s, r) {
      forall x: T ensures Filter(TiesWith(less, x), StableSort(less, s)) == Filter(TiesWith(less, x), r) {
        assert Filter(TiesWith(less, x), r) == Filter(TiesWith(less, x), s);
        assert Filter(TiesWith(less, x), StableSort(less, s)) == Filter(TiesWith(less, x), s);
      }
      SortedClassesAgree(less, r, StableSort(less, s));
    }
  }

  /** Filtering commutes with rearranging. */
  lemma {:induction false} FilterCounts<T>(keep: T -> bool, s: seq<T>, x: T)
    ensures multiset(Filter(keep, s))[x] == if keep(x) then multiset(s)[x] else 0
  {
    if s != [] {
      assert s == s[..|s| - 1] + [s[|s| - 1]];
      FilterCounts(keep, s[..|s| - 1], x);
    }
  }

  lemma FilterKeepsRearrangement<T>(keep: T -> bool, s: seq<T>, t: seq<T>)
    requires multiset(s) == multiset(t)
    ensures multiset(Filter(keep, s)) == multiset(Filter(keep, t))
  {
    forall x: T ensures multiset(Filter(keep, s))[x] == multiset(Filter(keep, t))[x] {
      FilterCounts(keep, s, x);
      FilterCounts(keep, t, x);
    }
  }

  lemma {:induction false} FilterKeepsOrder<T>(less: (T, T) -> bool, keep: T -> bool, s: seq<T>)
    requires SortedBy(less, s)
    ensures SortedBy(less, Filter(keep, s))
  {
    if s != [] {
      var front, last := s[..|s| - 1], s[|s| - 1];
      FilterKeepsOrder(less, keep, front);
      forall x | x in Filter(keep, front) ensures !less(last, x) {
        assert x in front;
      }
    }
  }

  function Map<T, K>(f: T -> K, s: seq<T>): (r: seq<K>)
    ensures |r| == |s| && forall i :: 0 <= i < |s| ==> r[i] == f(s[i])
  {
    seq(|s|, i requires 0 <= i < |s| => f(s[i]))
  }

  lemma MapAppend<T, K>(f: T -> K, s: seq<T>, t: seq<T>)
    ensures Map(f, s + t) == Map(f, s) + Map(f, t)
  {
  }

  lemma MapWithout<T, K>(f: T -> K, before: seq<T>, x: T, after: seq<T>)
    ensures multiset(Map(f, before + [x] + after)) == multiset(Map(f, before + after)) + multiset{f(x)}
  {
    MapAppend(f, before + [x], after);
    MapAppend(f, before, [x]);
    MapAppend(f, before, after);
    assert Map(f, [x]) == [f(x)];
  }

  /** Takes one occurrence of `x` out of `t`. */
  lemma TakeOut<T>(t: seq<T>, x: T) returns (before: seq<T>, after: seq<T>)
    requires x in t
    ensures t == before + [x] + after
    ensures multiset(before + after) == multiset(t) - multiset{x}
  {
    var i :| 0 <= i < |t| && t[i] == x;
    before, after := t[..i], t[i + 1..];
    assert t == before + [x] + after;
  }

  lemma HeadTaken<T, K>(f: T -> K, s: seq<T>)
    requires s != []
    ensures multiset(s[1..]) == multiset(s) - multiset{s[0]}
    ensures multiset(Map(f, s)) == multiset(Map(f, s[1..])) + multiset{f(s[0])}
  {
    assert s == [s[0]] + s[1..];
    assert Map(f, s) == [f(s[0])] + Map(f, s[1..]);
  }

  lemma {:induction false} MapKeepsRearrangement<T, K>(f: T -> K, s: seq<T>, t: seq<T>)
    requires multiset(s) == multiset(t)
    ensures multiset(Map(f, s)) == multiset(Map(f, t))
    decreases |s|
  {
    if s == [] {
      assert |t| == |multiset(t)| == 0;
    } else {
      HeadTaken(f, s);
      SameElements(s, t, s[0]);
      var before, after := TakeOut(t, s[0]);
      MapKeepsRearrangement(f, s[1..], before + after);
      MapWithout(f, before, s[0], after);
    }
  }

  lemma {:induction false} ReversedKeepsElements<T>(s: seq<T>)
    ensures multiset(Reversed(s)) == multiset(s)
  {
    if s != [] {
      ReversedKeepsElements(s[..|s| - 1]);
      assert s == s[..|s| - 1] + [s[|s| - 1]];
    }
  }

  function Reversed<T>(s: seq<T>): (r: seq<T>)
    ensures |r| == |s| && forall i :: 0 <= i < |s| ==> r[i] == s[|s| - 1 - i]
  {
    if s == [] then [] else [s[|s| - 1]] + Reversed(s[..|s| - 1])
  }

  // ---------- The sort itself, in place ----------

  lemma {:induction false} InsertAt<T>(less: (T, T) -> bool, s: seq<T>, x: T, j: nat)
    requires j <= |s|
    requires forall k :: j <= k < |s| ==> less(x, s[k])
    requires j == 0 || !less(x, s[j - 1])
    ensures Insert(less, s, x) == s[..j] + [x] + s[j..]
  {
    if j < |s| {
      var front := s[..|s| - 1];
      InsertAt(less, front, x, j);
      assert s[..j] == front[..j] && s[j..] == front[j..] + [s[|s| - 1]];
    } else {
      assert s[..j] == s && s[j..] == [];
    }
  }

  /** Moves `a[i]` left past everything it comes before. */
  method InsertInPlace<T>(a: array<T>, i: nat, less: (T, T) -> bool)
    requires i < a.Length
    modifies a
    ensures a[..i + 1] == Insert(less, old(a[..i]), old(a[i]))
    ensures a[i + 1..] == old(a[i + 1..])
  {
    ghost var sorted, x := a[..i], a[i];
    var j := i;
    while j > 0 && less(a[j], a[j - 1])
      invariant 0 <= j <= i
      invariant a[j] == x
      invariant forall k :: 0 <= k < j ==> a[k] == sorted[k]
      invariant forall k :: j < k <= i ==> a[k] == sorted[k - 1]
      invariant forall k :: j <= k < i ==> less(x, sorted[k])
      invariant forall k :: i < k < a.Length ==> a[k] == old(a[k])
    {
      a[j], a[j - 1] := a[j - 1], a[j];
      j := j - 1;
    }
    InsertAt(less, sorted, x, j);
    assert a[..i + 1] == sorted[..j] + [x] + sorted[j..];
    forall k | i < k < a.Length ensures a[k] == old(a[k]) {}
    assert a[i + 1..] == old(a[i + 1..]);
  }

  /** Insertion sort over an array, exchanging neighbours, computes the stable sort. */
  method SortInPlace<T>(a: array<T>, less: (T, T) -> bool)
    modifies a
    ensures a[..] == StableSort(less, old(a[..]))
  {
    ghost var was := a[..];
    for i := 0 to a.Length
      invariant a[..i] == StableSort(less, was[..i])
      invariant a[i..] == was[i..]
    {
      assert was[..i + 1][..i] == was[..i];
      assert a[i] == a[i..][0] == was[i];
      assert a[i + 1..] == a[i..][1..] == was[i + 1..];
      InsertInPlace(a, i, less);
    }
    assert a[..] == a[..a.Length] && was == was[..a.Length];
  }
}
