/** Ordering by an integer key: the declarative `$sort` / `Array.prototype.sort` results
    as functions, and the in-place `array.sort(...)` that the browser pages run on
    freshly loaded arrays as a method. */
module Sorting {

  predicate SortedBy<T>(s: seq<T>, key: T -> int) {
    forall i, j :: 0 <= i < j < |s| ==> key(s[i]) <= key(s[j])
  }

  predicate SortedDescBy<T>(s: seq<T>, key: T -> int) {
    forall i, j :: 0 <= i < j < |s| ==> key(s[i]) >= key(s[j])
  }

  /** Insert `x` in front of the first element whose key is not smaller. */
  function Insert<T(==)>(x: T, s: seq<T>, key: T -> int): (r: seq<T>)
    requires SortedBy(s, key)
    ensures SortedBy(r, key)
    ensures multiset(r) == multiset(s) + multiset{x}
    ensures |r| == |s| + 1
    ensures key(r[0]) == if s != [] && key(s[0]) < key(x) then key(s[0]) else key(x)
  {
    if s == [] then [x]
    else if key(x) <= key(s[0]) then [x] + s
    else
      var t := Insert(x, s[1..], key);
      assert s == [s[0]] + s[1..];
      [s[0]] + t
  }

  /** Ascending by key, equal keys in input order (insertion sort). */
  function SortBy<T(==)>(s: seq<T>, key: T -> int): (r: seq<T>)
    ensures SortedBy(r, key)
    ensures multiset(r) == multiset(s)
    ensures |r| == |s|
  {
    if s == [] then []
    else
      assert s == [s[0]] + s[1..];
      Insert(s[0], SortBy(s[1..], key), key)
  }

  /** Descending by key: ascending by the negated key. */
  function SortDescBy<T(==)>(s: seq<T>, key: T -> int): (r: seq<T>)
    ensures SortedDescBy(r, key)
    ensures multiset(r) == multiset(s)
    ensures |r| == |s|
  {
    var neg := (x: T) => -key(x);
    var r := SortBy(s, neg);
    assert forall i :: 0 <= i < |r| ==> neg(r[i]) == -key(r[i]);
    r
  }

  /** Elements of a permutation are the elements of the original. */
  lemma PermutationMembers<T>(r: seq<T>, s: seq<T>)
    requires multiset(r) == multiset(s)
    ensures forall x :: x in r <==> x in s
  {
    forall x ensures x in r <==> x in s {
      assert x in r <==> x in multiset(r);
      assert x in s <==> x in multiset(s);
    }
  }

  method Swap<T>(a: array<T>, i: int, j: int)
    requires 0 <= i < j < a.Length
    modifies a
    ensures a[..] == old(a[..])[i := old(a[j])][j := old(a[i])]
    ensures multiset(a[..]) == old(multiset(a[..]))
  {
    a[i], a[j] := a[j], a[i];
  }

  /** Move `a[i]` left past every smaller element, so that `a[..i + 1]` is sorted. */
  method SiftLeft<T>(a: array<T>, i: int, key: T -> int)
    requires 0 <= i < a.Length
    requires SortedDescBy(a[..i], key)
    modifies a
    ensures SortedDescBy(a[..i + 1], key)
    ensures multiset(a[..]) == old(multiset(a[..]))
  {
    var j := i;
    while j > 0 && key(a[j - 1]) < key(a[j])
      invariant 0 <= j <= i
      invariant forall p, q :: 0 <= p < q <= i && p != j && q != j ==> key(a[p]) >= key(a[q])
      invariant forall q :: j < q <= i ==> key(a[j]) > key(a[q])
      invariant multiset(a[..]) == old(multiset(a[..]))
    {
      Swap(a, j - 1, j);
      j := j - 1;
    }
  }

  /** `a.sort((x, y) => key(y) - key(x))` in place, by insertion with adjacent swaps. */
  method SortDescInPlace<T>(a: array<T>, key: T -> int)
    modifies a
    ensures SortedDescBy(a[..], key)
    ensures multiset(a[..]) == old(multiset(a[..]))
  {
    var i := 0;
    while i < a.Length
      invariant 0 <= i <= a.Length
      invariant SortedDescBy(a[..i], key)
      invariant multiset(a[..]) == old(multiset(a[..]))
    {
      SiftLeft(a, i, key);
      i := i + 1;
    }
    assert a[..a.Length] == a[..];
  }

  /** Copy a loaded list into an array, sort it in place, and read it back. */
  method LoadSortedDesc<T>(s: seq<T>, key: T -> int) returns (r: seq<T>)
    ensures SortedDescBy(r, key)
    ensures multiset(r) == multiset(s)
  {
    var a := new T[|s|](i requires 0 <= i < |s| => s[i]);
    assert a[..] == s;
    SortDescInPlace(a, key);
    r := a[..];
  }

  /** With no two positions sharing a key, no element occurs twice. */
  lemma {:induction false} OccursAtMostOnce<T, K>(s: seq<T>, key: T -> K, x: T)
    requires forall i, j :: 0 <= i < j < |s| ==> key(s[i]) != key(s[j])
    ensures multiset(s)[x] <= 1
  {
    if s != [] {
      var p := s[..|s| - 1];
      var y := s[|s| - 1];
      assert s == p + [y];
      OccursAtMostOnce(p, key, x);
    }
  }

  /** Reordering a sequence whose keys are all different keeps them all different. */
  lemma DistinctKeysPermutation<T, K>(a: seq<T>, b: seq<T>, key: T -> K)
    requires multiset(a) == multiset(b)
    requires forall i, j :: 0 <= i < j < |a| ==> key(a[i]) != key(a[j])
    ensures forall i, j :: 0 <= i < j < |b| ==> key(b[i]) != key(b[j])
  {
    PermutationMembers(a, b);
    forall i, j | 0 <= i < j < |b| ensures key(b[i]) != key(b[j]) {
      if b[i] == b[j] {
        var x := b[i];
        assert b == b[..j] + [b[j]] + b[j + 1..];
        assert x in b[..j];
        assert multiset(b)[x] >= 2;
        OccursAtMostOnce(a, key, x);
      } else {
        assert b[i] in b && b[j] in b;
        var p :| 0 <= p < |a| && a[p] == b[i];
        var q :| 0 <= q < |a| && a[q] == b[j];
        if p < q {
          assert key(a[p]) != key(a[q]);
        } else {
          assert key(a[q]) != key(a[p]);
        }
      }
    }
  }

  /** Sorted with all keys different means strictly increasing. */
  lemma StrictlySorted<T>(s: seq<T>, key: T -> int)
    requires SortedBy(s, key)
    requires forall i, j :: 0 <= i < j < |s| ==> key(s[i]) != key(s[j])
    ensures forall i, j :: 0 <= i < j < |s| ==> key(s[i]) < key(s[j])
  {
  }

  /** Whatever a descending sort leaves after its first `k` elements is no larger than
      any of them. */
  lemma RestNoLarger<T>(sorted: seq<T>, k: nat, key: T -> int)
    requires SortedDescBy(sorted, key) && k <= |sorted|
    ensures forall t :: t in multiset(sorted) - multiset(sorted[..k]) ==>
              forall i :: 0 <= i < k ==> key(t) <= key(sorted[i])
  {
    var rest := sorted[k..];
    assert sorted == sorted[..k] + rest;
    assert multiset(sorted) == multiset(sorted[..k]) + multiset(rest);
    forall t | t in multiset(sorted) - multiset(sorted[..k])
      ensures forall i :: 0 <= i < k ==> key(t) <= key(sorted[i])
    {
      assert t in multiset(rest);
      assert t in rest;
      var j :| 0 <= j < |rest| && rest[j] == t;
      assert sorted[k + j] == t;
    }
  }
}
