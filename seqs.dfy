/** Sequence operations behind the table queries: filtering (`find({...})`,
    `Array.prototype.filter`), first match (`findOne`, `Array.prototype.find`), removal
    at an index (`findOneAndDelete`) and the id-uniqueness of a table. */
module Seqs {
  import opened Common

  /** `s.filter(p)`: the elements satisfying `p`, in their original order. */
  function Filter<T>(s: seq<T>, p: T -> bool): (r: seq<T>)
    ensures |r| <= |s|
    ensures forall i :: 0 <= i < |r| ==> p(r[i])
  {
    if s == [] then []
    else if p(s[|s| - 1]) then Filter(s[..|s| - 1], p) + [s[|s| - 1]]
    else Filter(s[..|s| - 1], p)
  }

  lemma {:induction false} FilterMembers<T>(s: seq<T>, p: T -> bool)
    ensures forall x :: x in Filter(s, p) <==> x in s && p(x)
  {
    if s != [] {
      FilterMembers(s[..|s| - 1], p);
      assert s == s[..|s| - 1] + [s[|s| - 1]];
    }
  }

  lemma {:induction false} FilterAll<T>(s: seq<T>, p: T -> bool)
    requires forall i :: 0 <= i < |s| ==> p(s[i])
    ensures Filter(s, p) == s
  {
    if s != [] {
      FilterAll(s[..|s| - 1], p);
      assert s == s[..|s| - 1] + [s[|s| - 1]];
    }
  }

  lemma {:induction false} FilterAppend<T>(s: seq<T>, t: seq<T>, p: T -> bool)
    ensures Filter(s + t, p) == Filter(s, p) + Filter(t, p)
    decreases |t|
  {
    if t == [] {
      assert s + t == s;
    } else {
      var t' := t[..|t| - 1];
      assert (s + t)[..|s + t| - 1] == s + t';
      FilterAppend(s, t', p);
    }
  }

  /** Filtering two orderings of the same records yields two orderings of the same result. */
  lemma {:induction false} FilterPermutation<T>(a: seq<T>, b: seq<T>, p: T -> bool)
    requires multiset(a) == multiset(b)
    ensures multiset(Filter(a, p)) == multiset(Filter(b, p))
    decreases |a|
  {
    if a != [] {
      var a' := a[..|a| - 1];
      var x := a[|a| - 1];
      var l, r := Cut(b, x, a, a');
      FilterPermutation(a', l + r, p);
      FilterAppend(a', [x], p);
      FilterAppend(l + [x], r, p);
      FilterAppend(l, [x], p);
      FilterAppend(l, r, p);
      var fl, fr, fx := Filter(l, p), Filter(r, p), Filter([x], p);
      assert multiset(fl + fx + fr) == multiset(fl) + multiset(fx) + multiset(fr);
      assert multiset(Filter(l + r, p)) == multiset(fl) + multiset(fr);
      assert multiset(Filter(a, p)) == multiset(Filter(a', p)) + multiset(fx);
    }
  }

  /** When `b` reorders `a' + [x]`, it is `l + [x] + r` with `l + r` reordering `a'`. */
  lemma Cut<T>(b: seq<T>, x: T, a: seq<T>, a': seq<T>) returns (l: seq<T>, r: seq<T>)
    requires a == a' + [x] && multiset(a) == multiset(b)
    ensures b == l + [x] + r
    ensures multiset(a') == multiset(l + r)
  {
    assert x in multiset(b);
    var j :| 0 <= j < |b| && b[j] == x;
    l, r := b[..j], b[j + 1..];
    assert b == l + [x] + r;
    assert multiset(b) == multiset(l + r) + multiset{x};
    assert multiset(a') == multiset(a) - multiset{x} == multiset(l + r);
  }

  /** Index of the first element satisfying `p`, or |s| when there is none. */
  function FirstWhere<T>(s: seq<T>, p: T -> bool): (r: nat)
    ensures r <= |s|
    ensures r < |s| ==> p(s[r])
    ensures forall i :: 0 <= i < r ==> !p(s[i])
  {
    if s == [] then 0
    else if p(s[0]) then 0
    else 1 + FirstWhere(s[1..], p)
  }

  function RemoveAt<T>(s: seq<T>, i: nat): (r: seq<T>)
    requires i < |s|
    ensures |r| == |s| - 1
    ensures forall j :: 0 <= j < i ==> r[j] == s[j]
    ensures forall j :: i <= j < |r| ==> r[j] == s[j + 1]
  {
    s[..i] + s[i + 1..]
  }

  // ---------------------------------------------------------------------------
  // Tables whose records carry distinct ids below a bound

  predicate UniqueBy<T>(s: seq<T>, id: T -> Id) {
    forall i, j :: 0 <= i < j < |s| ==> id(s[i]) != id(s[j])
  }

  predicate TableOk<T>(s: seq<T>, id: T -> Id, bound: nat) {
    UniqueBy(s, id) && forall i :: 0 <= i < |s| ==> id(s[i]) < bound
  }

  lemma AppendOk<T>(s: seq<T>, x: T, id: T -> Id, bound: nat)
    requires TableOk(s, id, bound) && id(x) == bound
    ensures TableOk(s + [x], id, bound + 1)
  {
  }

  lemma RemoveOk<T>(s: seq<T>, i: nat, id: T -> Id, bound: nat)
    requires TableOk(s, id, bound) && i < |s|
    ensures TableOk(RemoveAt(s, i), id, bound)
  {
    var r := RemoveAt(s, i);
    forall a, b | 0 <= a < b < |r| ensures id(r[a]) != id(r[b]) {
      var a' := if a < i then a else a + 1;
      var b' := if b < i then b else b + 1;
      assert r[a] == s[a'] && r[b] == s[b'];
    }
  }

  lemma ReplaceOk<T>(s: seq<T>, i: nat, x: T, id: T -> Id, bound: nat)
    requires TableOk(s, id, bound) && i < |s| && id(x) == id(s[i])
    ensures TableOk(s[i := x], id, bound)
  {
  }

  lemma GrowOk<T>(s: seq<T>, id: T -> Id, bound: nat, bound': nat)
    requires TableOk(s, id, bound) && bound <= bound'
    ensures TableOk(s, id, bound')
  {
  }

  /** In a table with distinct ids, the record with a given id is the only one. */
  lemma UniqueIndex<T>(s: seq<T>, id: T -> Id, i: nat, j: nat)
    requires UniqueBy(s, id) && i < |s| && j < |s| && id(s[i]) == id(s[j])
    ensures i == j
  {
  }

  /** After removing the record at `i`, no record carries its id. */
  lemma RemovedIdGone<T>(s: seq<T>, i: nat, id: T -> Id)
    requires UniqueBy(s, id) && i < |s|
    ensures forall j :: 0 <= j < |RemoveAt(s, i)| ==> id(RemoveAt(s, i)[j]) != id(s[i])
  {
    var r := RemoveAt(s, i);
    forall j | 0 <= j < |r| ensures id(r[j]) != id(s[i]) {
      if j < i { assert r[j] == s[j]; } else { assert r[j] == s[j + 1]; }
    }
  }
}
