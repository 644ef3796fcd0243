/** Python's stable `sorted` and its order on strings. */
module Sorting {

  ghost predicate TotalPreorder<T(!new)>(le: (T, T) -> bool) {
    && (forall x, y :: le(x, y) || le(y, x))
    && (forall x, y, z :: le(x, y) && le(y, z) ==> le(x, z))
  }

  function Insert<T>(sorted: seq<T>, x: T, le: (T, T) -> bool): seq<T> {
    if sorted == [] || le(sorted[|sorted| - 1], x) then sorted + [x]
    else Insert(sorted[..|sorted| - 1], x, le) + [sorted[|sorted| - 1]]
  }

  /** `sorted`: later elements go after earlier ones with an equal key. */
  function Sorted<T>(xs: seq<T>, le: (T, T) -> bool): seq<T> {
    if xs == [] then [] else Insert(Sorted(xs[..|xs| - 1], le), xs[|xs| - 1], le)
  }

  ghost predicate InOrder<T>(xs: seq<T>, le: (T, T) -> bool) {
    forall i, j :: 0 <= i < j < |xs| ==> le(xs[i], xs[j])
  }

  lemma {:induction false} InsertIsPermutation<T>(sorted: seq<T>, x: T, le: (T, T) -> bool)
    ensures multiset(Insert(sorted, x, le)) == multiset(sorted) + multiset{x}
  {
    if sorted != [] && !le(sorted[|sorted| - 1], x) {
      var front, last := sorted[..|sorted| - 1], sorted[|sorted| - 1];
      assert sorted == front + [last];
      InsertIsPermutation(front, x, le);
    }
  }

  lemma {:induction false} InsertKeepsOrder<T(!new)>(sorted: seq<T>, x: T, le: (T, T) -> bool)
    requires TotalPreorder(le) && InOrder(sorted, le)
    ensures InOrder(Insert(sorted, x, le), le)
  {
    if sorted == [] || le(sorted[|sorted| - 1], x) {
      forall i | 0 <= i < |sorted| ensures le(sorted[i], x) { assert le(sorted[i], sorted[|sorted| - 1]); }
    } else {
      var front, last := sorted[..|sorted| - 1], sorted[|sorted| - 1];
      assert sorted == front + [last];
      InsertKeepsOrder(front, x, le);
      InsertIsPermutation(front, x, le);
      var r := Insert(front, x, le);
      forall i | 0 <= i < |r| ensures le(r[i], last) {
        assert r[i] in multiset(front) + multiset{x};
      }
    }
  }

  /** The result is a permutation in order. */
  lemma {:induction false} SortedIsSorted<T(!new)>(xs: seq<T>, le: (T, T) -> bool)
    requires TotalPreorder(le)
    ensures InOrder(Sorted(xs, le), le)
    ensures multiset(Sorted(xs, le)) == multiset(xs)
    ensures |Sorted(xs, le)| == |xs|
  {
    if xs != [] {
      var front, last := xs[..|xs| - 1], xs[|xs| - 1];
      assert xs == front + [last];
      SortedIsSorted(front, le);
      InsertKeepsOrder(Sorted(front, le), last, le);
      InsertIsPermutation(Sorted(front, le), last, le);
      assert |multiset(Sorted(xs, le))| == |multiset(xs)|;
    }
  }

  function Filter<T>(xs: seq<T>, p: T -> bool): seq<T> {
    if xs == [] then []
    else Filter(xs[..|xs| - 1], p) + (if p(xs[|xs| - 1]) then [xs[|xs| - 1]] else [])
  }

  lemma FilterMore<T>(xs: seq<T>, x: T, p: T -> bool)
    ensures Filter(xs + [x], p) == Filter(xs, p) + (if p(x) then [x] else [])
  {
    assert (xs + [x])[..|xs|] == xs;
  }

  /** The first element of a filtered list is the first one that passes. */
  lemma {:induction false} FilterFirst<T>(xs: seq<T>, p: T -> bool, i: nat)
    requires i < |xs| && p(xs[i]) && forall k :: 0 <= k < i ==> !p(xs[k])
    ensures Filter(xs, p) != [] && Filter(xs, p)[0] == xs[i]
  {
    if i == |xs| - 1 {
      FilterNone(xs[..i], p);
    } else {
      FilterFirst(xs[..|xs| - 1], p, i);
    }
  }

  lemma {:induction false} FilterNone<T>(xs: seq<T>, p: T -> bool)
    requires forall k :: 0 <= k < |xs| ==> !p(xs[k])
    ensures Filter(xs, p) == []
  {
    if xs != [] { FilterNone(xs[..|xs| - 1], p); }
  }

  lemma {:induction false} FirstOfFilter<T>(xs: seq<T>, p: T -> bool) returns (i: nat)
    requires Filter(xs, p) != []
    ensures i < |xs| && xs[i] == Filter(xs, p)[0] && p(xs[i]) && forall k :: 0 <= k < i ==> !p(xs[k])
  {
    if Filter(xs[..|xs| - 1], p) != [] {
      i := FirstOfFilter(xs[..|xs| - 1], p);
    } else {
      i := |xs| - 1;
      forall k | 0 <= k < i ensures !p(xs[k]) {
        if p(xs[k]) { FilterSome(xs[..i], p, k); }
      }
    }
  }

  lemma {:induction false} FilterSome<T>(xs: seq<T>, p: T -> bool, k: nat)
    requires k < |xs| && p(xs[k])
    ensures Filter(xs, p) != []
  {
    if k < |xs| - 1 { FilterSome(xs[..|xs| - 1], p, k); }
  }

  lemma {:induction false} FilterPasses<T>(xs: seq<T>, p: T -> bool, x: T)
    ensures x in Filter(xs, p) <==> x in xs && p(x)
  {
    if xs != [] {
      FilterPasses(xs[..|xs| - 1], p, x);
      assert xs == xs[..|xs| - 1] + [xs[|xs| - 1]];
    }
  }

  lemma {:induction false} LastOfFilter<T>(xs: seq<T>, p: T -> bool) returns (i: nat)
    requires Filter(xs, p) != []
    ensures i < |xs| && p(xs[i]) && xs[i] == Filter(xs, p)[|Filter(xs, p)| - 1]
    ensures forall k :: i < k < |xs| ==> !p(xs[k])
  {
    if p(xs[|xs| - 1]) {
      i := |xs| - 1;
    } else {
      i := LastOfFilter(xs[..|xs| - 1], p);
    }
  }

  lemma FilterLast<T>(xs: seq<T>, p: T -> bool)
    requires xs != [] && p(xs[|xs| - 1])
    ensures Filter(xs, p) != [] && Filter(xs, p)[|Filter(xs, p)| - 1] == xs[|xs| - 1]
  {
  }

  lemma {:induction false} InsertIsStable<T(!new)>(sorted: seq<T>, x: T, le: (T, T) -> bool, p: T -> bool)
    requires forall y, z :: p(y) && p(z) ==> le(y, z)
    ensures Filter(Insert(sorted, x, le), p) == Filter(sorted, p) + (if p(x) then [x] else [])
  {
    if sorted == [] || le(sorted[|sorted| - 1], x) {
      FilterMore(sorted, x, p);
    } else {
      var front, last := sorted[..|sorted| - 1], sorted[|sorted| - 1];
      InsertIsStable(front, x, le, p);
      FilterMore(Insert(front, x, le), last, p);
    }
  }

  /** Elements with equal keys keep the order in which they came. */
  lemma {:induction false} SortedIsStable<T(!new)>(xs: seq<T>, le: (T, T) -> bool, p: T -> bool)
    requires forall y, z :: p(y) && p(z) ==> le(y, z)
    ensures Filter(Sorted(xs, le), p) == Filter(xs, p)
  {
    if xs != [] {
      SortedIsStable(xs[..|xs| - 1], le, p);
      InsertIsStable(Sorted(xs[..|xs| - 1], le), xs[|xs| - 1], le, p);
    }
  }

  /** A list without repetitions stays one. */
  lemma SortedKeepsDistinct<T(!new)>(xs: seq<T>, le: (T, T) -> bool, i: nat, j: nat)
    requires TotalPreorder(le) && Distinct(xs) && i < j < |Sorted(xs, le)|
    ensures Sorted(xs, le)[i] != Sorted(xs, le)[j]
  {
    var s := Sorted(xs, le);
    SortedIsSorted(xs, le);
    OnceInMultiset(xs, s[i]);
    if s[i] == s[j] { TwiceInMultiset(s, i, j); }
  }

  lemma TwiceInMultiset<T(!new)>(xs: seq<T>, i: nat, j: nat)
    requires i < j < |xs| && xs[i] == xs[j]
    ensures multiset(xs)[xs[i]] >= 2
  {
    assert xs == xs[..j] + xs[j..];
    assert xs[i] in xs[..j] && xs[i] in xs[j..];
  }

  ghost predicate Distinct<T(!new)>(xs: seq<T>) {
    forall i, j :: 0 <= i < j < |xs| ==> xs[i] != xs[j]
  }

  lemma {:induction false} OnceInMultiset<T(!new)>(xs: seq<T>, x: T)
    requires Distinct(xs)
    ensures multiset(xs)[x] <= 1
  {
    if xs != [] {
      var front := xs[..|xs| - 1];
      assert xs == front + [xs[|xs| - 1]];
      OnceInMultiset(front, x);
      if x == xs[|xs| - 1] { assert x !in front; }
    }
  }

  /** Python compares strings by code points, a prefix before what it begins. */
  predicate StringLe(a: string, b: string) {
    if a == [] then true
    else if b == [] then false
    else if a[0] != b[0] then a[0] < b[0]
    else StringLe(a[1..], b[1..])
  }

  predicate StringLt(a: string, b: string) {
    StringLe(a, b) && a != b
  }

  lemma {:induction false} StringLeTotal(a: string, b: string)
    ensures StringLe(a, b) || StringLe(b, a)
    ensures StringLe(a, b) && StringLe(b, a) ==> a == b
  {
    if a != [] && b != [] && a[0] == b[0] {
      StringLeTotal(a[1..], b[1..]);
      assert a == [a[0]] + a[1..] && b == [b[0]] + b[1..];
    }
  }

  lemma {:induction false} StringLeTransitive(a: string, b: string, c: string)
    requires StringLe(a, b) && StringLe(b, c)
    ensures StringLe(a, c)
  {
    if a != [] && b != [] && c != [] && a[0] == b[0] == c[0] {
      StringLeTransitive(a[1..], b[1..], c[1..]);
    }
  }

  lemma {:induction false} StringLeReflexive(a: string)
    ensures StringLe(a, a)
  {
    if a != [] { StringLeReflexive(a[1..]); }
  }

  lemma StringOrder()
    ensures TotalPreorder(StringLe)
    ensures forall a, b :: StringLe(a, b) && StringLe(b, a) ==> a == b
  {
    forall a, b ensures (StringLe(a, b) || StringLe(b, a)) && (StringLe(a, b) && StringLe(b, a) ==> a == b) {
      StringLeTotal(a, b);
    }
    forall a, b, c | StringLe(a, b) && StringLe(b, c) ensures StringLe(a, c) { StringLeTransitive(a, b, c); }
  }
}
