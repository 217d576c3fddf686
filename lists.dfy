/**
 * List shapes the analysis core builds in loops: the results of the elements that
 * pass a test (`[f(x) for x in xs if keep(x)]`), and sets of strings kept in the
 * order of first appearance.
 */
module Lists {

  /** `[f(x) for x in xs]` */
  function MapAll<S, T>(xs: seq<S>, f: S -> T): (r: seq<T>)
    ensures |r| == |xs| && forall i :: 0 <= i < |xs| ==> r[i] == f(xs[i])
  {
    seq(|xs|, i requires 0 <= i < |xs| => f(xs[i]))
  }

  /** `f(x)` for each `x` that passes `keep`, in input order. */
  function Kept<S, T>(xs: seq<S>, keep: S -> bool, f: S -> T): (r: seq<T>)
    ensures |r| == |xs| - Failing(xs, keep)
  {
    if xs == [] then []
    else
      var last := xs[|xs| - 1];
      Kept(xs[..|xs| - 1], keep, f) + (if keep(last) then [f(last)] else [])
  }

  /** The number of elements that do not pass `keep`. */
  function Failing<S>(xs: seq<S>, keep: S -> bool): (n: nat)
    ensures n <= |xs|
  {
    if xs == [] then 0
    else Failing(xs[..|xs| - 1], keep) + (if keep(xs[|xs| - 1]) then 0 else 1)
  }

  /** An element that passes `keep` lands right after the kept elements before it. */
  lemma {:induction false} KeptAt<S, T>(xs: seq<S>, keep: S -> bool, f: S -> T, i: nat)
    requires i < |xs| && keep(xs[i])
    ensures i - Failing(xs[..i], keep) < |Kept(xs, keep, f)|
    ensures Kept(xs, keep, f)[i - Failing(xs[..i], keep)] == f(xs[i])
    decreases |xs|
  {
    var n := |xs|;
    var init := xs[..n - 1];
    if i < n - 1 {
      assert init[..i] == xs[..i];
      assert init[i] == xs[i];
      KeptAt(init, keep, f, i);
    } else {
      assert init == xs[..i];
    }
  }

  /** Looking at one more element keeps its image if it passes. */
  lemma KeptSnoc<S, T>(xs: seq<S>, i: nat, keep: S -> bool, f: S -> T)
    requires i < |xs|
    ensures Kept(xs[..i + 1], keep, f) == Kept(xs[..i], keep, f) + (if keep(xs[i]) then [f(xs[i])] else [])
  {
    assert xs[..i + 1][..i] == xs[..i];
  }

  /** Everything kept is the image of an element that passes `keep`. */
  lemma {:induction false} KeptFrom<S, T>(xs: seq<S>, keep: S -> bool, f: S -> T, k: nat)
    requires k < |Kept(xs, keep, f)|
    ensures exists i :: 0 <= i < |xs| && keep(xs[i]) && Kept(xs, keep, f)[k] == f(xs[i])
    decreases |xs|
  {
    var n := |xs|;
    var init := xs[..n - 1];
    if k < |Kept(init, keep, f)| {
      KeptFrom(init, keep, f, k);
      var i :| 0 <= i < |init| && keep(init[i]) && Kept(init, keep, f)[k] == f(init[i]);
      assert xs[i] == init[i];
    } else {
      assert Kept(xs, keep, f)[k] == f(xs[n - 1]);
    }
  }

  /** When every element passes, nothing is dropped. */
  lemma {:induction false} KeptAll<S, T>(xs: seq<S>, keep: S -> bool, f: S -> T)
    requires forall i :: 0 <= i < |xs| ==> keep(xs[i])
    ensures Failing(xs, keep) == 0
    decreases |xs|
  {
    if xs != [] {
      KeptAll(xs[..|xs| - 1], keep, f);
    }
  }

  /** The element itself, for comprehensions that keep the elements that pass (`[x for x in xs if keep(x)]`). */
  function Same<T>(x: T): T { x }

  /** The elements kept by `[x for x in xs if keep(x)]` all pass `keep`. */
  lemma KeptSamePass<T>(xs: seq<T>, keep: T -> bool)
    ensures forall m :: 0 <= m < |Kept(xs, keep, Same)| ==> keep(Kept(xs, keep, Same)[m])
  {
    forall m | 0 <= m < |Kept(xs, keep, Same)| ensures keep(Kept(xs, keep, Same)[m]) {
      KeptFrom(xs, keep, Same, m);
    }
  }

  /** Something is kept exactly when some element passes. */
  lemma KeptNonEmpty<S, T>(xs: seq<S>, keep: S -> bool, f: S -> T)
    ensures Kept(xs, keep, f) != [] <==> exists i :: 0 <= i < |xs| && keep(xs[i])
  {
    if exists i :: 0 <= i < |xs| && keep(xs[i]) {
      var i :| 0 <= i < |xs| && keep(xs[i]);
      KeptAt(xs, keep, f, i);
    }
    if Kept(xs, keep, f) != [] {
      KeptFrom(xs, keep, f, 0);
    }
  }

  /** Some element passes exactly when one before the last does or the last does. */
  lemma ExistsSnoc<T>(s: seq<T>, init: seq<T>, p: T -> bool)
    requires s != [] && init == s[..|s| - 1]
    ensures (exists k :: 0 <= k < |s| && p(s[k])) <==> (exists k :: 0 <= k < |init| && p(init[k])) || p(s[|s| - 1])
  {
    if exists k :: 0 <= k < |s| && p(s[k]) {
      var k :| 0 <= k < |s| && p(s[k]);
      if k < |init| {
        assert p(init[k]);
      }
    }
  }

  /** Two sequences with the same elements have an element with property `p` alike. */
  lemma PermutedExists<T>(a: seq<T>, b: seq<T>, p: T -> bool)
    requires multiset(a) == multiset(b)
    ensures (exists k :: 0 <= k < |a| && p(a[k])) <==> (exists k :: 0 <= k < |b| && p(b[k]))
  {
    if exists k :: 0 <= k < |a| && p(a[k]) {
      var k :| 0 <= k < |a| && p(a[k]);
      assert a[k] in multiset(b);
      var m :| 0 <= m < |b| && b[m] == a[k];
    }
    if exists k :: 0 <= k < |b| && p(b[k]) {
      var k :| 0 <= k < |b| && p(b[k]);
      assert b[k] in multiset(a);
      var m :| 0 <= m < |a| && a[m] == b[k];
    }
  }

  predicate Distinct<T(==)>(s: seq<T>)
  {
    forall i, j :: 0 <= i < j < |s| ==> s[i] != s[j]
  }

  /** A property of the head and of every element of the tail holds of every element. */
  lemma AllCons<T>(x: T, s: seq<T>, p: T -> bool)
    requires p(x) && forall k :: 0 <= k < |s| ==> p(s[k])
    ensures forall k :: 0 <= k < |[x] + s| ==> p(([x] + s)[k])
  {
    forall k | 0 <= k < |[x] + s| ensures p(([x] + s)[k]) {
      if k > 0 {
        assert ([x] + s)[k] == s[k - 1];
      }
    }
  }

  /** Mapping one more element extends the mapped prefix by its image. */
  lemma MapAllSnoc<S, T>(xs: seq<S>, i: nat, f: S -> T)
    requires i < |xs|
    ensures MapAll(xs[..i + 1], f) == MapAll(xs[..i], f) + [f(xs[i])]
  {
    assert xs[..i + 1][i] == xs[i];
  }

  /** Elements with pairwise different keys are pairwise different. */
  lemma DistinctByKey<T, K>(s: seq<T>, key: T -> K)
    requires Distinct(MapAll(s, key))
    ensures Distinct(s)
  {
    var ks := MapAll(s, key);
    forall i, j | 0 <= i < j < |s| ensures s[i] != s[j] {
      assert ks[i] != ks[j];
    }
  }

  lemma DistinctSnoc<T>(s: seq<T>, x: T)
    requires x !in s && Distinct(s)
    ensures Distinct(s + [x])
  {
    var t := s + [x];
    forall i, j | 0 <= i < j < |t| ensures t[i] != t[j] {
      assert t[i] == s[i];
      if j < |s| {
        assert t[j] == s[j];
      }
    }
  }

  lemma DistinctCons<T>(x: T, s: seq<T>)
    requires x !in s && Distinct(s)
    ensures Distinct([x] + s)
  {
    var t := [x] + s;
    forall i, j | 0 <= i < j < |t| ensures t[i] != t[j] {
      assert t[j] == s[j - 1];
      if i > 0 {
        assert t[i] == s[i - 1];
      }
    }
  }

  /** A set built with `add` and then iterated: each element once, in the order it was first added. */
  function Dedup<T(==,!new)>(s: seq<T>): (r: seq<T>)
    ensures Distinct(r)
    ensures |r| <= |s|
    ensures forall x :: x in r <==> x in s
  {
    if s == [] then []
    else
      var init := Dedup(s[..|s| - 1]);
      var last := s[|s| - 1];
      assert forall x :: x in s <==> x in s[..|s| - 1] || x == last by {
        assert s == s[..|s| - 1] + [last];
      }
      if last in init then init else init + [last]
  }

  /** Every element of `Dedup(s)` has a property that every element of `s` has. */
  lemma DedupKeeps<T(!new)>(s: seq<T>, p: T -> bool)
    requires forall k :: 0 <= k < |s| ==> p(s[k])
    ensures forall k :: 0 <= k < |Dedup(s)| ==> p(Dedup(s)[k])
  {
    var r := Dedup(s);
    forall k | 0 <= k < |r| ensures p(r[k]) {
      assert r[k] in s;
    }
  }

  /** `[x for x in xs if p(x)]` */
  function Filter<T(==,!new)>(xs: seq<T>, p: T -> bool): (r: seq<T>)
    ensures |r| <= |xs|
    ensures forall x :: x in r <==> x in xs && p(x)
    ensures Distinct(xs) ==> Distinct(r)
  {
    if xs == [] then []
    else
      var init := xs[..|xs| - 1];
      var last := xs[|xs| - 1];
      assert xs == init + [last];
      var r := Filter(init, p) + (if p(last) then [last] else []);
      assert Distinct(xs) ==> Distinct(r) by {
        if Distinct(xs) {
          assert Distinct(init) && last !in init;
        }
      }
      r
  }

  /** Filtering one more element appends it when it passes. */
  lemma FilterSnoc<T(!new)>(xs: seq<T>, i: nat, p: T -> bool)
    requires i < |xs|
    ensures Filter(xs[..i + 1], p) == Filter(xs[..i], p) + if p(xs[i]) then [xs[i]] else []
  {
    assert xs[..i + 1][..i] == xs[..i];
  }

  /** The number of times `x` occurs in `s` (`s.count(x)`). */
  function Occurrences<T(==)>(s: seq<T>, x: T): (n: nat)
    ensures n <= |s|
    ensures n == 0 <==> x !in s
  {
    if s == [] then 0
    else
      assert s == s[..|s| - 1] + [s[|s| - 1]];
      Occurrences(s[..|s| - 1], x) + (if s[|s| - 1] == x then 1 else 0)
  }

  /** The number of elements satisfying `p`. */
  function CountWhere<T>(s: seq<T>, p: T -> bool): (n: nat)
    ensures n <= |s|
  {
    if s == [] then 0 else CountWhere(s[..|s| - 1], p) + (if p(s[|s| - 1]) then 1 else 0)
  }
}
