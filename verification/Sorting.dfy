// Stable sorting by a total preorder, filtering, and the order on strings that
// the helper's `sorted` calls use.
module Sorting {
  ghost predicate TotalPreorder<T(!new)>(le: (T, T) -> bool) {
    && (forall a, b :: le(a, b) || le(b, a))
    && (forall a, b, c :: le(a, b) && le(b, c) ==> le(a, c))
  }

  ghost predicate Sorted<T>(xs: seq<T>, le: (T, T) -> bool) {
    forall i, j :: 0 <= i < j < |xs| ==> le(xs[i], xs[j])
  }

  function Insert<T>(x: T, xs: seq<T>, le: (T, T) -> bool): (r: seq<T>)
    ensures |r| == |xs| + 1
  {
    if xs == [] || le(x, xs[0]) then [x] + xs else [xs[0]] + Insert(x, xs[1..], le)
  }

  function Sort<T>(xs: seq<T>, le: (T, T) -> bool): (r: seq<T>)
    ensures |r| == |xs|
  {
    if xs == [] then [] else Insert(xs[0], Sort(xs[1..], le), le)
  }

  function Filter<T(!new)>(p: T -> bool, xs: seq<T>): (r: seq<T>)
    ensures |r| <= |xs|
    ensures forall x :: x in r <==> x in xs && p(x)
  {
    if xs == [] then []
    else if p(xs[0]) then [xs[0]] + Filter(p, xs[1..])
    else Filter(p, xs[1..])
  }

  function Map<T, U>(f: T -> U, xs: seq<T>): (r: seq<U>)
    ensures |r| == |xs|
    ensures forall i :: 0 <= i < |xs| ==> r[i] == f(xs[i])
  {
    seq(|xs|, i requires 0 <= i < |xs| => f(xs[i]))
  }

  ghost predicate Distinct<T>(xs: seq<T>) {
    forall i, j :: 0 <= i < j < |xs| ==> xs[i] != xs[j]
  }

  lemma {:induction false} InsertMultiset<T>(x: T, xs: seq<T>, le: (T, T) -> bool)
    ensures multiset(Insert(x, xs, le)) == multiset{x} + multiset(xs)
  {
    if xs != [] && !le(x, xs[0]) {
      InsertMultiset(x, xs[1..], le);
      assert xs == [xs[0]] + xs[1..];
    }
  }

  lemma {:induction false} SortMultiset<T>(xs: seq<T>, le: (T, T) -> bool)
    ensures multiset(Sort(xs, le)) == multiset(xs)
  {
    if xs != [] {
      SortMultiset(xs[1..], le);
      InsertMultiset(xs[0], Sort(xs[1..], le), le);
      assert xs == [xs[0]] + xs[1..];
    }
  }

  lemma SortMembers<T(!new)>(xs: seq<T>, le: (T, T) -> bool)
    ensures forall x :: x in Sort(xs, le) <==> x in xs
  {
    SortMultiset(xs, le);
    forall x
      ensures x in Sort(xs, le) <==> x in xs
    {
      assert x in Sort(xs, le) <==> x in multiset(Sort(xs, le));
      assert x in xs <==> x in multiset(xs);
    }
  }

  lemma {:induction false} InsertSorted<T(!new)>(x: T, xs: seq<T>, le: (T, T) -> bool)
    requires TotalPreorder(le) && Sorted(xs, le)
    ensures Sorted(Insert(x, xs, le), le)
  {
    if xs != [] && !le(x, xs[0]) {
      InsertSorted(x, xs[1..], le);
      InsertMultiset(x, xs[1..], le);
      var r := Insert(x, xs[1..], le);
      forall j | 0 <= j < |r|
        ensures le(xs[0], r[j])
      {
        assert r[j] in multiset(r);
        assert r[j] == x || r[j] in xs[1..];
      }
    }
  }

  lemma {:induction false} SortSorted<T(!new)>(xs: seq<T>, le: (T, T) -> bool)
    requires TotalPreorder(le)
    ensures Sorted(Sort(xs, le), le)
  {
    if xs != [] {
      SortSorted(xs[1..], le);
      InsertSorted(xs[0], Sort(xs[1..], le), le);
    }
  }

  lemma {:induction false} SortOfSorted<T(!new)>(xs: seq<T>, le: (T, T) -> bool)
    requires TotalPreorder(le) && Sorted(xs, le)
    ensures Sort(xs, le) == xs
  {
    if xs != [] {
      SortOfSorted(xs[1..], le);
    }
  }

  lemma {:induction false} FilterConcat<T(!new)>(p: T -> bool, xs: seq<T>, ys: seq<T>)
    ensures Filter(p, xs + ys) == Filter(p, xs) + Filter(p, ys)
  {
    if xs == [] {
      assert xs + ys == ys;
    } else {
      assert (xs + ys)[1..] == xs[1..] + ys;
      FilterConcat(p, xs[1..], ys);
    }
  }

  lemma {:induction false} FilterAll<T(!new)>(p: T -> bool, xs: seq<T>)
    requires forall x :: x in xs ==> p(x)
    ensures Filter(p, xs) == xs
  {
    if xs != [] {
      FilterAll(p, xs[1..]);
    }
  }

  lemma {:induction false} FilterNone<T(!new)>(p: T -> bool, xs: seq<T>)
    requires forall x :: x in xs ==> !p(x)
    ensures Filter(p, xs) == []
  {
    if xs != [] {
      FilterNone(p, xs[1..]);
    }
  }

  // Filtering twice keeps what the stronger of two nested tests keeps.
  lemma {:induction false} FilterFilter<T(!new)>(p: T -> bool, q: T -> bool, xs: seq<T>)
    requires forall x :: p(x) ==> q(x)
    ensures Filter(p, Filter(q, xs)) == Filter(p, xs)
  {
    if xs != [] {
      FilterFilter(p, q, xs[1..]);
    }
  }

  lemma {:induction false} FilterSame<T(!new)>(p: T -> bool, q: T -> bool, xs: seq<T>)
    requires forall x :: x in xs ==> p(x) == q(x)
    ensures Filter(p, xs) == Filter(q, xs)
  {
    if xs != [] {
      FilterSame(p, q, xs[1..]);
    }
  }

  lemma {:induction false} FilterSorted<T(!new)>(p: T -> bool, xs: seq<T>, le: (T, T) -> bool)
    requires Sorted(xs, le)
    ensures Sorted(Filter(p, xs), le)
  {
    if xs != [] {
      FilterSorted(p, xs[1..], le);
      var rest := Filter(p, xs[1..]);
      forall j | 0 <= j < |rest|
        ensures le(xs[0], rest[j])
      {
        assert rest[j] in rest;
        assert rest[j] in xs[1..];
      }
    }
  }

  lemma {:induction false} InsertFront<T(!new)>(x: T, xs: seq<T>, le: (T, T) -> bool)
    requires forall y :: y in xs ==> le(x, y)
    ensures Insert(x, xs, le) == [x] + xs
  {
  }

  lemma {:induction false} FilterInsert<T(!new)>(p: T -> bool, x: T, xs: seq<T>, le: (T, T) -> bool)
    requires TotalPreorder(le) && Sorted(xs, le)
    ensures Filter(p, Insert(x, xs, le)) ==
            if p(x) then Insert(x, Filter(p, xs), le) else Filter(p, xs)
  {
    if xs == [] {
      assert Insert(x, xs, le) == [x];
    } else if le(x, xs[0]) {
      assert ([x] + xs)[1..] == xs;
      forall y | y in Filter(p, xs)
        ensures le(x, y)
      {
        assert y in xs;
        var i :| 0 <= i < |xs| && xs[i] == y;
        assert i == 0 || le(xs[0], xs[i]);
      }
      InsertFront(x, Filter(p, xs), le);
    } else {
      var r := Insert(x, xs[1..], le);
      assert ([xs[0]] + r)[1..] == r;
      FilterInsert(p, x, xs[1..], le);
      if p(xs[0]) {
        var rest := Filter(p, xs[1..]);
        assert Filter(p, xs) == [xs[0]] + rest;
        assert ([xs[0]] + rest)[1..] == rest;
      }
    }
  }

  // Sorting commutes with filtering.
  lemma {:induction false} FilterSort<T(!new)>(p: T -> bool, xs: seq<T>, le: (T, T) -> bool)
    requires TotalPreorder(le)
    ensures Filter(p, Sort(xs, le)) == Sort(Filter(p, xs), le)
  {
    if xs != [] {
      FilterSort(p, xs[1..], le);
      SortSorted(xs[1..], le);
      FilterInsert(p, xs[0], Sort(xs[1..], le), le);
      if p(xs[0]) {
        var rest := Filter(p, xs[1..]);
        assert Filter(p, xs) == [xs[0]] + rest;
        assert ([xs[0]] + rest)[1..] == rest;
      }
    }
  }

  // A test that, once it holds, holds of everything earlier selects a prefix of a sorted sequence.
  lemma {:induction false} FilterPrefix<T(!new)>(p: T -> bool, xs: seq<T>, le: (T, T) -> bool)
    requires Sorted(xs, le)
    requires forall x, y :: p(y) && le(x, y) ==> p(x)
    ensures Filter(p, xs) == xs[..|Filter(p, xs)|]
  {
    if xs != [] {
      FilterPrefix(p, xs[1..], le);
      if !p(xs[0]) {
        forall x | x in xs
          ensures !p(x)
        {
          var i :| 0 <= i < |xs| && xs[i] == x;
          assert i == 0 || le(xs[0], xs[i]);
        }
        FilterNone(p, xs);
      }
    }
  }

  lemma {:induction false} FilterSplit<T(!new)>(p: T -> bool, xs: seq<T>, k: nat)
    requires k <= |xs|
    requires forall i :: 0 <= i < |xs| ==> p(xs[i]) == (i < k)
    ensures Filter(p, xs) == xs[..k]
  {
    if xs != [] {
      FilterSplit(p, xs[1..], if k == 0 then 0 else k - 1);
    }
  }

  // When a test selects a prefix, cutting first or testing first is the same.
  lemma FilterOfPrefix<T(!new)>(p: T -> bool, xs: seq<T>, n: nat)
    requires n <= |xs| && Filter(p, xs) == xs[..|Filter(p, xs)|]
    ensures Filter(p, xs[..n]) == Filter(p, xs)[..if n < |Filter(p, xs)| then n else |Filter(p, xs)|]
  {
    var k := |Filter(p, xs)|;
    var m := if n < k then n else k;
    PrefixSelects(p, xs, k);
    SelectsInPrefix(p, xs, n, k);
    FilterSplit(p, xs[..n], m);
    assert xs[..n][..m] == xs[..m] == xs[..k][..m];
  }

  lemma SelectsInPrefix<T(!new)>(p: T -> bool, xs: seq<T>, n: nat, k: nat)
    requires n <= |xs| && forall i :: 0 <= i < |xs| ==> p(xs[i]) == (i < k)
    ensures forall i :: 0 <= i < n ==> p(xs[..n][i]) == (i < if n < k then n else k)
  {
    assert forall i :: 0 <= i < n ==> xs[..n][i] == xs[i];
  }

  lemma PrefixSelects<T(!new)>(p: T -> bool, xs: seq<T>, k: nat)
    requires k <= |xs| && Filter(p, xs) == xs[..k]
    ensures forall i :: 0 <= i < |xs| ==> p(xs[i]) == (i < k)
  {
    assert xs == xs[..k] + xs[k..];
    FilterConcat(p, xs[..k], xs[k..]);
    forall i | 0 <= i < k
      ensures p(xs[i])
    {
      assert xs[..k][i] in Filter(p, xs);
    }
    FilterAll(p, xs[..k]);
    assert Filter(p, xs[k..]) == [];
    forall i | k <= i < |xs|
      ensures !p(xs[i])
    {
      assert xs[k..][i - k] !in Filter(p, xs[k..]);
    }
  }

  lemma {:induction false} FilterDistinct<T(!new)>(p: T -> bool, xs: seq<T>)
    requires Distinct(xs)
    ensures Distinct(Filter(p, xs))
  {
    if xs != [] {
      FilterDistinct(p, xs[1..]);
      assert xs[0] !in xs[1..];
    }
  }

  lemma {:induction false} DistinctMultiset<T(!new)>(xs: seq<T>)
    ensures Distinct(xs) <==> forall x :: multiset(xs)[x] <= 1
  {
    if xs != [] {
      var t := xs[1..];
      assert xs == [xs[0]] + t;
      DistinctMultiset(t);
      assert Distinct(xs) ==> Distinct(t) && xs[0] !in t;
      assert multiset(xs)[xs[0]] == 1 + multiset(t)[xs[0]];
      if forall x :: multiset(xs)[x] <= 1 {
        assert forall x :: multiset(t)[x] <= multiset(xs)[x];
        assert xs[0] !in multiset(t);
        assert xs[0] !in t;
      }
    }
  }

  lemma SortDistinct<T(!new)>(xs: seq<T>, le: (T, T) -> bool)
    ensures Distinct(Sort(xs, le)) <==> Distinct(xs)
  {
    SortMultiset(xs, le);
    DistinctMultiset(xs);
    DistinctMultiset(Sort(xs, le));
  }

  lemma {:induction false} FilterMap<T(!new), U(!new)>(p: T -> bool, q: U -> bool, f: T -> U, xs: seq<T>)
    requires forall x :: q(f(x)) == p(x)
    ensures Filter(q, Map(f, xs)) == Map(f, Filter(p, xs))
  {
    if xs != [] {
      FilterMap(p, q, f, xs[1..]);
      assert Map(f, xs)[1..] == Map(f, xs[1..]);
      var rest := Filter(p, xs[1..]);
      assert Map(f, [xs[0]] + rest) == [f(xs[0])] + Map(f, rest);
    }
  }

  lemma {:induction false} FilterSwap<T(!new)>(p: T -> bool, q: T -> bool, xs: seq<T>)
    ensures Filter(p, Filter(q, xs)) == Filter(q, Filter(p, xs))
  {
    if xs != [] {
      FilterSwap(p, q, xs[1..]);
      var ps, qs := Filter(p, xs[1..]), Filter(q, xs[1..]);
      assert ([xs[0]] + ps)[1..] == ps && ([xs[0]] + qs)[1..] == qs;
    }
  }

  lemma {:induction false} InsertMap<T(!new), U(!new)>(f: T -> U, x: T, xs: seq<T>, le: (T, T) -> bool, leU: (U,
                                       U) -> bool)
    requires forall a, b :: leU(f(a), f(b)) == le(a, b)
    ensures Insert(f(x), Map(f, xs), leU) == Map(f, Insert(x, xs, le))
  {
    if xs != [] && !le(x, xs[0]) {
      InsertMap(f, x, xs[1..], le, leU);
      assert Map(f, xs)[1..] == Map(f, xs[1..]);
      var rest := Insert(x, xs[1..], le);
      assert Map(f, [xs[0]] + rest) == [f(xs[0])] + Map(f, rest);
    } else {
      assert Map(f, [x] + xs) == [f(x)] + Map(f, xs);
    }
  }

  // Sorting commutes with a map that keeps the order.
  lemma {:induction false} SortMap<T(!new), U(!new)>(f: T -> U, xs: seq<T>, le: (T, T) -> bool, leU: (U, U) -> bool)
    requires forall a, b :: leU(f(a), f(b)) == le(a, b)
    ensures Sort(Map(f, xs), leU) == Map(f, Sort(xs, le))
  {
    if xs != [] {
      SortMap(f, xs[1..], le, leU);
      assert Map(f, xs)[1..] == Map(f, xs[1..]);
      InsertMap(f, xs[0], Sort(xs[1..], le), le, leU);
    }
  }

  // Lexicographic order on strings by code point.
  predicate StringLe(a: string, b: string) {
    a == [] || (b != [] && (a[0] < b[0] || (a[0] == b[0] && StringLe(a[1..], b[1..]))))
  }

  lemma {:induction false} StringLeTotal(a: string, b: string)
    ensures StringLe(a, b) || StringLe(b, a)
  {
    if a != [] && b != [] && a[0] == b[0] {
      StringLeTotal(a[1..], b[1..]);
    }
  }

  lemma {:induction false} StringLeTransitive(a: string, b: string, c: string)
    requires StringLe(a, b) && StringLe(b, c)
    ensures StringLe(a, c)
  {
    if a != [] && a[0] == b[0] && b[0] == c[0] {
      StringLeTransitive(a[1..], b[1..], c[1..]);
    }
  }

  lemma {:induction false} StringLeAntisymmetric(a: string, b: string)
    requires StringLe(a, b) && StringLe(b, a)
    ensures a == b
  {
    if a != [] {
      StringLeAntisymmetric(a[1..], b[1..]);
      assert a == [a[0]] + a[1..];
      assert b == [b[0]] + b[1..];
    }
  }
}
