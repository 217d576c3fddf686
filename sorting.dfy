/**
 * The two orderings the analysis core uses: Python's stable `sorted(..., reverse=True)`
 * on a numeric key, and `sorted()` on strings (code-point lexicographic order).
 */
module Sorting {

  /** `s` is in non-increasing order of `key`. */
  predicate SortedDesc<T>(s: seq<T>, key: T -> real)
  {
    forall i, j :: 0 <= i < j < |s| ==> key(s[i]) >= key(s[j])
  }

  /**
   * Inserts `x` in front of the first element whose key is not larger than its own,
   * so that `x` stays ahead of equal-keyed elements that came after it in the input.
   */
  function InsertDesc<T>(x: T, s: seq<T>, key: T -> real): (r: seq<T>)
    requires SortedDesc(s, key)
    ensures |r| == |s| + 1
    ensures multiset(r) == multiset(s) + multiset{x}
    ensures SortedDesc(r, key)
    ensures r[0] == x || (s != [] && r[0] == s[0])
  {
    if s == [] || key(s[0]) <= key(x) then
      SortedDescCons(x, s, key);
      [x] + s
    else
      var t := InsertDesc(x, s[1..], key);
      assert key(t[0]) <= key(s[0]) by {
        if t[0] != x {
          assert key(s[1..][0]) <= key(s[0]);
        }
      }
      SortedDescCons(s[0], t, key);
      InsertedMultiset(s, t, x);
      [s[0]] + t
  }

  lemma InsertedMultiset<T>(s: seq<T>, t: seq<T>, x: T)
    requires s != [] && multiset(t) == multiset(s[1..]) + multiset{x}
    ensures multiset([s[0]] + t) == multiset(s) + multiset{x}
  {
    assert s == [s[0]] + s[1..];
  }

  /** An element whose key is at least the head's extends a sorted sequence at the front. */
  lemma SortedDescCons<T>(y: T, t: seq<T>, key: T -> real)
    requires SortedDesc(t, key) && (t == [] || key(t[0]) <= key(y))
    ensures SortedDesc([y] + t, key)
  {
    var r := [y] + t;
    forall i, j | 0 <= i < j < |r| ensures key(r[i]) >= key(r[j]) {
      assert r[j] == t[j - 1];
      if i == 0 {
        assert key(t[0]) >= key(t[j - 1]) || j - 1 == 0;
      } else {
        assert r[i] == t[i - 1];
      }
    }
  }

  /** `sorted(s, key=key, reverse=True)`: a stable sort into non-increasing key order. */
  function SortDesc<T>(s: seq<T>, key: T -> real): (r: seq<T>)
    ensures |r| == |s|
    ensures multiset(r) == multiset(s)
    ensures SortedDesc(r, key)
  {
    if s == [] then []
    else
      assert s == [s[0]] + s[1..];
      InsertDesc(s[0], SortDesc(s[1..], key), key)
  }

  /** The sort is stable: the elements of each key keep their order in `s`. */
  lemma {:induction false} SortDescStable<T>(s: seq<T>, key: T -> real)
    ensures forall v :: WithKey(SortDesc(s, key), key, v) == WithKey(s, key, v)
    decreases |s|
  {
    if s != [] {
      var t := SortDesc(s[1..], key);
      SortDescStable(s[1..], key);
      InsertStable(s[0], t, key);
      forall v ensures WithKey([s[0]] + t, key, v) == WithKey(s, key, v) {
        assert ([s[0]] + t)[1..] == t;
      }
    }
  }

  /** The elements of `s` whose key is `v`, in their order in `s`. */
  function WithKey<T>(s: seq<T>, key: T -> real, v: real): seq<T>
  {
    if s == [] then [] else (if key(s[0]) == v then [s[0]] else []) + WithKey(s[1..], key, v)
  }

  /**
   * Insertion puts `x` after every element with a larger key and before every element
   * with the same key, so among equal keys it stays first, as it was in `[x] + s`.
   */
  lemma {:induction false} InsertStable<T>(x: T, s: seq<T>, key: T -> real)
    requires SortedDesc(s, key)
    ensures forall v :: WithKey(InsertDesc(x, s, key), key, v) == WithKey([x] + s, key, v)
    decreases |s|
  {
    if !(s == [] || key(s[0]) <= key(x)) {
      var t := InsertDesc(x, s[1..], key);
      assert SortedDesc(s[1..], key);
      InsertStable(x, s[1..], key);
      assert InsertDesc(x, s, key) == [s[0]] + t;
      forall v ensures WithKey([s[0]] + t, key, v) == WithKey([x] + s, key, v) {
        assert ([s[0]] + t)[1..] == t;
        assert ([x] + s)[1..] == s;
        assert ([x] + s[1..])[1..] == s[1..];
      }
    }
  }

  /** Taking a prefix keeps a prefix of the elements of each key. */
  lemma {:induction false} WithKeyPrefix<T>(a: seq<T>, b: seq<T>, key: T -> real, v: real)
    requires a <= b
    ensures WithKey(a, key, v) <= WithKey(b, key, v)
    decreases |a|
  {
    if a != [] {
      assert a[1..] <= b[1..];
      WithKeyPrefix(a[1..], b[1..], key, v);
    }
  }

  /**
   * `sorted(s, key=key, reverse=True)[:n]` keeps, among the elements of any one key, the
   * ones that came first in `s`.
   */
  lemma TopStable<T>(s: seq<T>, key: T -> real, n: nat, v: real)
    ensures WithKey(Take(SortDesc(s, key), n), key, v) <= WithKey(s, key, v)
  {
    SortDescStable(s, key);
    WithKeyPrefix(Take(SortDesc(s, key), n), SortDesc(s, key), key, v);
  }

  /** The first `n` elements (`s[:n]`). */
  function Take<T>(s: seq<T>, n: nat): (r: seq<T>)
    ensures |r| == if |s| < n then |s| else n
    ensures r <= s
  {
    if |s| <= n then s else s[..n]
  }

  /** Python's `a <= b` on strings: code-point lexicographic order. */
  predicate StrLe(a: string, b: string)
    decreases |a|
  {
    a == [] || (b != [] && (a[0] < b[0] || (a[0] == b[0] && StrLe(a[1..], b[1..]))))
  }

  /**
   * The first `n` of a descending sort: sorted, and any element of the input they leave
   * out has a key no larger than any of theirs.
   */
  lemma TopOrBelow<T>(s: seq<T>, key: T -> real, n: nat, x: T)
    requires x in s
    ensures SortedDesc(Take(SortDesc(s, key), n), key)
    ensures x in Take(SortDesc(s, key), n) || forall i :: 0 <= i < |Take(SortDesc(s, key), n)| ==> key(Take(SortDesc(s, key), n)[i]) >= key(x)
  {
    var sorted := SortDesc(s, key);
    var top := Take(sorted, n);
    assert x in multiset(sorted);
    var m :| 0 <= m < |sorted| && sorted[m] == x;
    if m < |top| {
      assert top[m] == x;
    } else {
      forall i | 0 <= i < |top| ensures key(top[i]) >= key(x) {
        assert top[i] == sorted[i];
      }
    }
  }

  lemma {:induction false} StrLeTotal(a: string, b: string)
    ensures StrLe(a, b) || StrLe(b, a)
    decreases |a|
  {
    if a != [] && b != [] && a[0] == b[0] {
      StrLeTotal(a[1..], b[1..]);
    }
  }

  lemma {:induction false} StrLeAntisymmetric(a: string, b: string)
    requires StrLe(a, b) && StrLe(b, a)
    ensures a == b
    decreases |a|
  {
    if a != [] {
      StrLeAntisymmetric(a[1..], b[1..]);
      assert a == [a[0]] + a[1..] && b == [b[0]] + b[1..];
    }
  }

  lemma {:induction false} StrLeReflexive(a: string)
    ensures StrLe(a, a)
    decreases |a|
  {
    if a != [] {
      StrLeReflexive(a[1..]);
    }
  }

  lemma {:induction false} StrLeTransitive(a: string, b: string, c: string)
    requires StrLe(a, b) && StrLe(b, c)
    ensures StrLe(a, c)
    decreases |a|
  {
    if a != [] && a[0] == b[0] && b[0] == c[0] {
      StrLeTransitive(a[1..], b[1..], c[1..]);
    }
  }

  predicate SortedStrings(s: seq<string>)
  {
    forall i, j :: 0 <= i < j < |s| ==> StrLe(s[i], s[j])
  }

  /** What holds `x` and the tail of `s` stays at or above the head of `s`, when `x` does. */
  lemma AllAbove(x: string, s: seq<string>, t: seq<string>)
    requires s != [] && SortedStrings(s) && StrLe(s[0], x)
    requires multiset(t) == multiset(s[1..]) + multiset{x}
    ensures forall k :: 0 <= k < |t| ==> StrLe(s[0], t[k])
  {
    forall k | 0 <= k < |t| ensures StrLe(s[0], t[k]) {
      assert t[k] in multiset(t);
      if t[k] != x {
        assert t[k] in multiset(s[1..]);
        var m :| 0 <= m < |s[1..]| && s[1..][m] == t[k];
        assert s[m + 1] == t[k];
      }
    }
  }

  function InsertString(x: string, s: seq<string>): (r: seq<string>)
    requires SortedStrings(s)
    ensures |r| == |s| + 1
    ensures multiset(r) == multiset(s) + multiset{x}
    ensures SortedStrings(r)
  {
    if s == [] || StrLe(x, s[0]) then
      SortedStringsCons(x, s);
      [x] + s
    else
      StrLeTotal(x, s[0]);
      var t := InsertString(x, s[1..]);
      AllAbove(x, s, t);
      SortedStringsBelow(s[0], t);
      assert s == [s[0]] + s[1..];
      [s[0]] + t
  }

  /** A string at most the head of a sorted sequence extends it at the front. */
  lemma SortedStringsCons(x: string, s: seq<string>)
    requires SortedStrings(s) && (s == [] || StrLe(x, s[0]))
    ensures SortedStrings([x] + s)
  {
    forall k | 0 <= k < |s| ensures StrLe(x, s[k]) {
      StrLeReflexive(s[0]);
      StrLeTransitive(x, s[0], s[k]);
    }
    SortedStringsBelow(x, s);
  }

  /** A string at most every element of a sorted sequence extends it at the front. */
  lemma SortedStringsBelow(x: string, s: seq<string>)
    requires SortedStrings(s) && forall k :: 0 <= k < |s| ==> StrLe(x, s[k])
    ensures SortedStrings([x] + s)
  {
    var r := [x] + s;
    forall i, j | 0 <= i < j < |r| ensures StrLe(r[i], r[j]) {
      assert r[j] == s[j - 1];
      if i > 0 {
        assert r[i] == s[i - 1];
      }
    }
  }

  /** `sorted(s)` for a sequence of strings. */
  function SortStrings(s: seq<string>): (r: seq<string>)
    ensures |r| == |s|
    ensures multiset(r) == multiset(s)
    ensures SortedStrings(r)
  {
    if s == [] then []
    else
      assert s == [s[0]] + s[1..];
      InsertString(s[0], SortStrings(s[1..]))
  }

  /** The head of a sorted sequence is at most each of its elements. */
  lemma SortedHead(a: seq<string>, y: string)
    requires SortedStrings(a) && y in a
    ensures StrLe(a[0], y)
  {
    var i :| 0 <= i < |a| && a[i] == y;
    if i == 0 {
      StrLeReflexive(y);
    }
  }

  lemma SortedTail(a: seq<string>)
    requires SortedStrings(a) && a != []
    ensures SortedStrings(a[1..])
  {
    forall i, j | 0 <= i < j < |a| - 1 ensures StrLe(a[1..][i], a[1..][j]) {
      assert StrLe(a[i + 1], a[j + 1]);
    }
  }

  /** Two sorted sequences holding the same strings are equal. */
  lemma {:induction false} SortedUnique(a: seq<string>, b: seq<string>)
    requires SortedStrings(a) && SortedStrings(b)
    requires multiset(a) == multiset(b)
    ensures a == b
    decreases |a|
  {
    assert |a| == |multiset(a)| && |b| == |multiset(b)|;
    if a != [] {
      assert a[0] in multiset(a) && b[0] in multiset(b);
      SortedHead(b, a[0]);
      SortedHead(a, b[0]);
      StrLeAntisymmetric(a[0], b[0]);
      SameTails(a, b);
      SortedTail(a);
      SortedTail(b);
      SortedUnique(a[1..], b[1..]);
      assert a == [a[0]] + a[1..] && b == [b[0]] + b[1..];
    }
  }

  /** Removing equal heads from sequences with the same elements leaves tails with the same elements. */
  lemma SameTails<T>(a: seq<T>, b: seq<T>)
    requires a != [] && b != [] && a[0] == b[0] && multiset(a) == multiset(b)
    ensures multiset(a[1..]) == multiset(b[1..])
  {
    HeadTail(a);
    HeadTail(b);
  }

  lemma HeadTail<T>(a: seq<T>)
    requires a != []
    ensures multiset(a[1..]) == multiset(a) - multiset{a[0]}
  {
    assert a == [a[0]] + a[1..];
    assert multiset(a) == multiset{a[0]} + multiset(a[1..]);
  }

  /**
   * Sorting is a canonical form: two sequences sort to the same result exactly when
   * they hold the same strings with the same multiplicities.
   */
  lemma SortStringsCanonical(a: seq<string>, b: seq<string>)
    ensures SortStrings(a) == SortStrings(b) <==> multiset(a) == multiset(b)
  {
    if multiset(a) == multiset(b) {
      SortedUnique(SortStrings(a), SortStrings(b));
    }
  }
}
