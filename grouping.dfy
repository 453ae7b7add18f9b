/** Group-by-and-sum over (key, amount) pairs: the `$group` stage with `$sum` of the
    backend queries and the `acc[key] = (acc[key] || 0) + amount` dictionaries of the
    browser code. Groups appear in the order their keys first occur. */
module Grouping {
  import opened Seqs

  /** The sum of all amounts, added left to right. */
  function Total<K>(ps: seq<(K, int)>): int {
    if ps == [] then 0 else Total(ps[..|ps| - 1]) + ps[|ps| - 1].1
  }

  /** The sum of the amounts whose key is `k`. */
  function SumFor<K(==,!new)>(ps: seq<(K, int)>, k: K): int {
    if ps == [] then 0
    else SumFor(ps[..|ps| - 1], k) + (if ps[|ps| - 1].0 == k then ps[|ps| - 1].1 else 0)
  }

  function KeysOf<K>(ps: seq<(K, int)>): (r: seq<K>)
    ensures |r| == |ps| && forall i :: 0 <= i < |ps| ==> r[i] == ps[i].0
  {
    seq(|ps|, i requires 0 <= i < |ps| => ps[i].0)
  }

  predicate NoDup<K(==,!new)>(ks: seq<K>) {
    forall i, j :: 0 <= i < j < |ks| ==> ks[i] != ks[j]
  }

  /** The keys of `ks` without repetition, in order of first occurrence. */
  function Distinct<K(==,!new)>(ks: seq<K>): (r: seq<K>)
    ensures NoDup(r)
    ensures forall k :: k in r <==> k in ks
    ensures |r| <= |ks|
  {
    if ks == [] then []
    else
      var d := Distinct(ks[..|ks| - 1]);
      assert forall k :: k in ks <==> k in ks[..|ks| - 1] || k == ks[|ks| - 1];
      if ks[|ks| - 1] in d then d else d + [ks[|ks| - 1]]
  }

  /** One (key, sum) entry per key of `ds`. */
  function Tabulate<K(==,!new)>(ds: seq<K>, ps: seq<(K, int)>): (r: seq<(K, int)>)
    ensures |r| == |ds| && forall i :: 0 <= i < |ds| ==> r[i] == (ds[i], SumFor(ps, ds[i]))
  {
    seq(|ds|, i requires 0 <= i < |ds| => (ds[i], SumFor(ps, ds[i])))
  }

  /** The grouped sums: one entry per distinct key, in order of first occurrence. */
  function Grouped<K(==,!new)>(ps: seq<(K, int)>): (r: seq<(K, int)>)
    ensures NoDup(KeysOf(r))
    ensures forall k :: k in KeysOf(r) <==> k in KeysOf(ps)
    ensures forall i :: 0 <= i < |r| ==> r[i].1 == SumFor(ps, r[i].0)
  {
    var r := Tabulate(Distinct(KeysOf(ps)), ps);
    assert KeysOf(r) == Distinct(KeysOf(ps));
    r
  }

  /** Index of the entry with key `k` in `acc`, or |acc| when there is none. */
  function IndexOfKey<K(==,!new)>(acc: seq<(K, int)>, k: K): (r: nat)
    ensures r <= |acc|
    ensures r < |acc| ==> acc[r].0 == k
    ensures forall i :: 0 <= i < r ==> acc[i].0 != k
  {
    if acc == [] then 0
    else if acc[0].0 == k then 0
    else 1 + IndexOfKey(acc[1..], k)
  }

  /** `acc[k] = (acc[k] || 0) + a` on a dictionary kept in insertion order. */
  function AddTo<K(==,!new)>(acc: seq<(K, int)>, k: K, a: int): (r: seq<(K, int)>)
  {
    var j := IndexOfKey(acc, k);
    if j < |acc| then acc[j := (k, acc[j].1 + a)] else acc + [(k, a)]
  }

  // ---------------------------------------------------------------------------
  // Lemmas

  lemma {:induction false} SumForAbsent<K(!new)>(ps: seq<(K, int)>, k: K)
    requires k !in KeysOf(ps)
    ensures SumFor(ps, k) == 0
  {
    if ps != [] {
      var p := ps[..|ps| - 1];
      assert KeysOf(p) == KeysOf(ps)[..|ps| - 1];
      SumForAbsent(p, k);
    }
  }

  lemma KeysOfSnoc<K(!new)>(p: seq<(K, int)>, x: (K, int))
    ensures KeysOf(p + [x]) == KeysOf(p) + [x.0]
  {
  }

  /** Adding one pair to the input adds it to exactly one group, or opens a new one. */
  lemma GroupedSnoc<K(!new)>(p: seq<(K, int)>, k: K, a: int)
    ensures Grouped(p + [(k, a)]) == AddTo(Grouped(p), k, a)
  {
    var ps := p + [(k, a)];
    var d := Distinct(KeysOf(p));
    KeysOfSnoc(p, (k, a));
    DistinctSnoc(KeysOf(p), k);
    var g := Grouped(p);
    assert g == Tabulate(d, p);
    var j := IndexOfKey(g, k);
    if j < |g| {
      assert k in d;
      TabulatePresent(d, p, k, a, j);
      calc {
        Grouped(ps);
        Tabulate(d, ps);
        g[j := (k, g[j].1 + a)];
      }
    } else {
      assert KeysOf(g) == d;
      SumForAbsent(p, k);
      TabulateAbsent(d, p, k, a);
      calc {
        Grouped(ps);
        Tabulate(d + [k], ps);
        g + [(k, a)];
      }
    }
  }

  lemma TabulatePresent<K(!new)>(d: seq<K>, p: seq<(K, int)>, k: K, a: int, j: nat)
    requires NoDup(d) && j < |d| && d[j] == k
    ensures Tabulate(d, p + [(k, a)]) == Tabulate(d, p)[j := (k, Tabulate(d, p)[j].1 + a)]
  {
    SumsAfterSnoc(d, p, k, a);
  }

  lemma TabulateAbsent<K(!new)>(d: seq<K>, p: seq<(K, int)>, k: K, a: int)
    requires k !in d && SumFor(p, k) == 0
    ensures Tabulate(d + [k], p + [(k, a)]) == Tabulate(d, p) + [(k, a)]
  {
    SumsAfterSnoc(d + [k], p, k, a);
  }

  lemma DistinctSnoc<K(!new)>(ks: seq<K>, k: K)
    ensures Distinct(ks + [k]) == if k in Distinct(ks) then Distinct(ks) else Distinct(ks) + [k]
  {
    assert (ks + [k])[..|ks|] == ks;
  }

  /** The per-key sums after one more pair: only the entry of its key grows. */
  lemma SumsAfterSnoc<K(!new)>(ds: seq<K>, p: seq<(K, int)>, k: K, a: int)
    ensures forall i :: 0 <= i < |ds| ==>
              Tabulate(ds, p + [(k, a)])[i] == (ds[i], SumFor(p, ds[i]) + (if ds[i] == k then a else 0))
  {
    forall i | 0 <= i < |ds|
      ensures Tabulate(ds, p + [(k, a)])[i] == (ds[i], SumFor(p, ds[i]) + (if ds[i] == k then a else 0))
    {
      SumForSnoc(p, (k, a), ds[i]);
    }
  }

  /** The sum over a duplicate-free key list of the per-key sums, after one more pair. */
  lemma {:induction false} SumForAllSnoc<K(!new)>(ds: seq<K>, p: seq<(K, int)>, k: K, a: int)
    requires NoDup(ds)
    ensures Total(Tabulate(ds, p + [(k, a)])) == Total(Tabulate(ds, p)) + (if k in ds then a else 0)
  {
    var ps := p + [(k, a)];
    assert ps[..|ps| - 1] == p;
    if ds != [] {
      var ds' := ds[..|ds| - 1];
      var last := ds[|ds| - 1];
      assert Tabulate(ds, ps)[..|ds| - 1] == Tabulate(ds', ps);
      assert Tabulate(ds, p)[..|ds| - 1] == Tabulate(ds', p);
      SumForAllSnoc(ds', p, k, a);
      assert k in ds <==> k in ds' || k == last;
    }
  }

  /** The grouped sums add up to the total of the input. */
  lemma {:induction false} GroupedTotal<K(!new)>(ps: seq<(K, int)>)
    ensures Total(Grouped(ps)) == Total(ps)
  {
    if ps != [] {
      var p := ps[..|ps| - 1];
      var x := ps[|ps| - 1];
      assert ps == p + [x];
      GroupedTotal(p);
      KeysOfSnoc(p, x);
      var ks := KeysOf(ps);
      assert ks[..|ks| - 1] == KeysOf(p);
      var d := Distinct(KeysOf(p));
      SumForAllSnoc(d, p, x.0, x.1);
      if x.0 !in d {
        assert Distinct(ks) == d + [x.0];
        var t := Tabulate(d + [x.0], ps);
        assert t[..|t| - 1] == Tabulate(d, ps);
        SumForAbsent(p, x.0);
      }
    }
  }

  /** Filling a dictionary pair by pair yields the grouped sums. */
  lemma {:induction false} FoldAddTo<K(!new)>(ps: seq<(K, int)>, i: nat)
    requires i < |ps|
    ensures Grouped(ps[..i + 1]) == AddTo(Grouped(ps[..i]), ps[i].0, ps[i].1)
  {
    assert ps[..i + 1] == ps[..i] + [(ps[i].0, ps[i].1)];
    GroupedSnoc(ps[..i], ps[i].0, ps[i].1);
  }

  lemma {:induction false} TotalSnoc<K(!new)>(p: seq<(K, int)>, x: (K, int))
    ensures Total(p + [x]) == Total(p) + x.1
  {
    assert (p + [x])[..|p|] == p;
  }

  lemma {:induction false} SumForSnoc<K(!new)>(p: seq<(K, int)>, x: (K, int), k: K)
    ensures SumFor(p + [x], k) == SumFor(p, k) + (if x.0 == k then x.1 else 0)
  {
    assert (p + [x])[..|p|] == p;
  }

  // ---------------------------------------------------------------------------
  // Sums do not depend on the order of the records they are taken over

  /** The (key, amount) pair of every record. */
  function PairsOf<T, K>(s: seq<T>, f: T -> (K, int)): (r: seq<(K, int)>)
    ensures |r| == |s|
  {
    seq(|s|, i requires 0 <= i < |s| => f(s[i]))
  }

  lemma {:induction false} SumForAppend<K(!new)>(a: seq<(K, int)>, b: seq<(K, int)>, k: K)
    ensures SumFor(a + b, k) == SumFor(a, k) + SumFor(b, k)
    decreases |b|
  {
    if b == [] {
      assert a + b == a;
    } else {
      var b' := b[..|b| - 1];
      assert a + b == (a + b') + [b[|b| - 1]];
      SumForSnoc(a + b', b[|b| - 1], k);
      SumForSnoc(b', b[|b| - 1], k);
      assert b == b' + [b[|b| - 1]];
      SumForAppend(a, b', k);
    }
  }

  lemma {:induction false} TotalAppend<K(!new)>(a: seq<(K, int)>, b: seq<(K, int)>)
    ensures Total(a + b) == Total(a) + Total(b)
    decreases |b|
  {
    if b == [] {
      assert a + b == a;
    } else {
      var b' := b[..|b| - 1];
      assert a + b == (a + b') + [b[|b| - 1]];
      TotalSnoc(a + b', b[|b| - 1]);
      TotalSnoc(b', b[|b| - 1]);
      assert b == b' + [b[|b| - 1]];
      TotalAppend(a, b');
    }
  }

  lemma PairsOfAppend<T, K>(a: seq<T>, b: seq<T>, f: T -> (K, int))
    ensures PairsOf(a + b, f) == PairsOf(a, f) + PairsOf(b, f)
  {
  }

  /** Reordering the records reorders their pairs. */
  lemma {:induction false} PairsOfPermutation<T, K>(a: seq<T>, b: seq<T>, f: T -> (K, int))
    requires multiset(a) == multiset(b)
    ensures multiset(PairsOf(a, f)) == multiset(PairsOf(b, f))
    decreases |a|
  {
    if a != [] {
      var a' := a[..|a| - 1];
      var x := a[|a| - 1];
      var l, r := Cut(b, x, a, a');
      PairsOfPermutation(a', l + r, f);
      var pl, pr, px := PairsOf(l, f), PairsOf(r, f), PairsOf([x], f);
      assert px == [f(x)];
      PairsOfAppend(a', [x], f);
      PairsOfAppend(l + [x], r, f);
      PairsOfAppend(l, [x], f);
      PairsOfAppend(l, r, f);
      assert PairsOf(b, f) == pl + px + pr;
      assert multiset(pl + px + pr) == multiset(pl) + multiset(px) + multiset(pr);
      assert multiset(PairsOf(l + r, f)) == multiset(pl) + multiset(pr);
      assert multiset(PairsOf(a, f)) == multiset(PairsOf(a', f)) + multiset(px);
    }
  }

  /** Reordering the pairs leaves every per-key sum as it is. */
  lemma {:induction false} SumForPairsPermutation<K(!new)>(a: seq<(K, int)>, b: seq<(K, int)>, k: K)
    requires multiset(a) == multiset(b)
    ensures SumFor(a, k) == SumFor(b, k)
    decreases |a|
  {
    if a != [] {
      var a' := a[..|a| - 1];
      var x := a[|a| - 1];
      var l, r := Cut(b, x, a, a');
      SumForPairsPermutation(a', l + r, k);
      SumForSnoc(a', x, k);
      SumForAppend(l + [x], r, k);
      SumForSnoc(l, x, k);
      SumForAppend(l, r, k);
    }
  }

  /** Reordering the records leaves every per-key sum as it is. */
  lemma SumForPermutation<T, K(!new)>(a: seq<T>, b: seq<T>, f: T -> (K, int), k: K)
    requires multiset(a) == multiset(b)
    ensures SumFor(PairsOf(a, f), k) == SumFor(PairsOf(b, f), k)
  {
    PairsOfPermutation(a, b, f);
    SumForPairsPermutation(PairsOf(a, f), PairsOf(b, f), k);
  }

  /** Reordering the pairs leaves the total as it is. */
  lemma {:induction false} TotalPermutation<K(!new)>(a: seq<(K, int)>, b: seq<(K, int)>)
    requires multiset(a) == multiset(b)
    ensures Total(a) == Total(b)
    decreases |a|
  {
    if a != [] {
      var a' := a[..|a| - 1];
      var x := a[|a| - 1];
      var l, r := Cut(b, x, a, a');
      TotalPermutation(a', l + r);
      TotalSnoc(a', x);
      TotalAppend(l + [x], r);
      TotalSnoc(l, x);
      TotalAppend(l, r);
    }
  }

  // ---------------------------------------------------------------------------
  // Keys

  /** The keys of the pairs of some records are the keys of those records. */
  lemma PairsKeys<T, K(!new)>(s: seq<T>, f: T -> (K, int))
    ensures forall k :: k in KeysOf(PairsOf(s, f)) <==> exists t :: t in s && f(t).0 == k
  {
    var ps := PairsOf(s, f);
    forall k | k in KeysOf(ps) ensures exists t :: t in s && f(t).0 == k {
      var i :| 0 <= i < |ps| && KeysOf(ps)[i] == k;
      assert s[i] in s && f(s[i]).0 == k;
    }
    forall k | exists t :: t in s && f(t).0 == k ensures k in KeysOf(ps) {
      var t :| t in s && f(t).0 == k;
      var i :| 0 <= i < |s| && s[i] == t;
      assert KeysOf(ps)[i] == k;
    }
  }

  /** Reordering entries keeps their keys. */
  lemma PermutationKeys<K(!new)>(a: seq<(K, int)>, b: seq<(K, int)>)
    requires multiset(a) == multiset(b)
    ensures forall k :: k in KeysOf(a) <==> k in KeysOf(b)
  {
    forall k | k in KeysOf(a) ensures k in KeysOf(b) {
      var i :| 0 <= i < |a| && KeysOf(a)[i] == k;
      assert a[i] in multiset(b);
      var j :| 0 <= j < |b| && b[j] == a[i];
      assert KeysOf(b)[j] == k;
    }
    forall k | k in KeysOf(b) ensures k in KeysOf(a) {
      var j :| 0 <= j < |b| && KeysOf(b)[j] == k;
      assert b[j] in multiset(a);
      var i :| 0 <= i < |a| && a[i] == b[j];
      assert KeysOf(a)[i] == k;
    }
  }

  // ---------------------------------------------------------------------------
  // One record more: the steps of the loops that fill totals and dictionaries

  lemma PairsOfStep<T, K>(s: seq<T>, i: nat, f: T -> (K, int))
    requires i < |s|
    ensures PairsOf(s[..i + 1], f) == PairsOf(s[..i], f) + [f(s[i])]
  {
  }

  lemma SumForStep<T, K(!new)>(s: seq<T>, i: nat, f: T -> (K, int), k: K)
    requires i < |s|
    ensures SumFor(PairsOf(s[..i + 1], f), k) == SumFor(PairsOf(s[..i], f), k) + (if f(s[i]).0 == k then f(s[i]).1 else 0)
  {
    PairsOfStep(s, i, f);
    SumForSnoc(PairsOf(s[..i], f), f(s[i]), k);
  }

  lemma GroupedStep<T, K(!new)>(s: seq<T>, i: nat, f: T -> (K, int))
    requires i < |s|
    ensures Grouped(PairsOf(s[..i + 1], f)) == AddTo(Grouped(PairsOf(s[..i], f)), f(s[i]).0, f(s[i]).1)
  {
    PairsOfStep(s, i, f);
    GroupedSnoc(PairsOf(s[..i], f), f(s[i]).0, f(s[i]).1);
  }

  /** A record that fails the filter leaves the dictionary as it is; one that passes it
      is added to its key's entry. */
  lemma FilteredGroupedStep<T, K(!new)>(s: seq<T>, i: nat, p: T -> bool, f: T -> (K, int))
    requires i < |s|
    ensures Grouped(PairsOf(Filter(s[..i + 1], p), f)) ==
              if p(s[i]) then AddTo(Grouped(PairsOf(Filter(s[..i], p), f)), f(s[i]).0, f(s[i]).1)
              else Grouped(PairsOf(Filter(s[..i], p), f))
  {
    assert s[..i + 1] == s[..i] + [s[i]];
    FilterAppend(s[..i], [s[i]], p);
    if p(s[i]) {
      assert Filter(s[..i + 1], p) == Filter(s[..i], p) + [s[i]];
      PairsOfAppend(Filter(s[..i], p), [s[i]], f);
      assert PairsOf([s[i]], f) == [f(s[i])];
      GroupedSnoc(PairsOf(Filter(s[..i], p), f), f(s[i]).0, f(s[i]).1);
    } else {
      assert Filter(s[..i + 1], p) == Filter(s[..i], p);
    }
  }

  lemma GroupedEmpty<T, K(!new)>(s: seq<T>, f: T -> (K, int))
    ensures Grouped(PairsOf(s[..0], f)) == []
  {
    assert PairsOf(s[..0], f) == [];
  }

  lemma FilteredGroupedEmpty<T, K(!new)>(s: seq<T>, p: T -> bool, f: T -> (K, int))
    ensures Grouped(PairsOf(Filter(s[..0], p), f)) == []
  {
    assert Filter(s[..0], p) == [];
    assert PairsOf(Filter(s[..0], p), f) == [];
  }

  /** Re-keying the pairs leaves their total as it is. */
  lemma {:induction false} TotalRekeyed<T, K, L>(s: seq<T>, f: T -> (K, int), g: T -> (L, int))
    requires forall i :: 0 <= i < |s| ==> f(s[i]).1 == g(s[i]).1
    ensures Total(PairsOf(s, f)) == Total(PairsOf(s, g))
  {
    if s != [] {
      var p := s[..|s| - 1];
      TotalRekeyed(p, f, g);
      assert PairsOf(s, f)[..|s| - 1] == PairsOf(p, f);
      assert PairsOf(s, g)[..|s| - 1] == PairsOf(p, g);
    }
  }
}
