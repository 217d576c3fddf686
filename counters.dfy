/**
 * Counters keyed by strings, as the source builds them with `d[k] = d.get(k, 0) + w`,
 * `defaultdict(int)` and `Counter`: an association list that keeps the keys in the
 * order they were first inserted, as a Python dict does.
 */
module Counters {
  import opened Lists
  import opened Sorting

  type Counts<K> = seq<(K, int)>

  /** The keys in insertion order (`list(c)`). */
  function Keys<K>(c: Counts<K>): (r: seq<K>)
    ensures |r| == |c|
    ensures forall i :: 0 <= i < |c| ==> r[i] == c[i].0
  {
    if c == [] then [] else [c[0].0] + Keys(c[1..])
  }

  /** `c.get(k, 0)` */
  function Get<K(==,!new)>(c: Counts<K>, k: K): int
  {
    if c == [] then 0 else if c[0].0 == k then c[0].1 else Get(c[1..], k)
  }

  /** The sum of all counts (`sum(c.values())`). */
  function Total<K>(c: Counts<K>): int
  {
    if c == [] then 0 else c[0].1 + Total(c[1..])
  }

  /** `c[k] = c.get(k, 0) + w`: updates the entry of `k` where it stands, or appends it. */
  function Bump<K(==,!new)>(c: Counts<K>, k: K, w: int): (r: Counts<K>)
    ensures Get(r, k) == Get(c, k) + w
    ensures forall k' :: k' != k ==> Get(r, k') == Get(c, k')
    ensures Total(r) == Total(c) + w
    ensures Keys(r) == if k in Keys(c) then Keys(c) else Keys(c) + [k]
  {
    if c == [] then [(k, w)]
    else if c[0].0 == k then [(k, c[0].1 + w)] + c[1..]
    else
      var r := [c[0]] + Bump(c[1..], k, w);
      assert Keys(c) == [c[0].0] + Keys(c[1..]);
      r
  }

  /**
   * Counting a sequence of (key, weight) events from an empty counter, one `Bump`
   * per event.
   */
  function CountAll<K(==,!new)>(events: seq<(K, int)>): (r: Counts<K>)
  {
    if events == [] then [] else Bump(CountAll(events[..|events| - 1]), events[|events| - 1].0, events[|events| - 1].1)
  }

  /** The sum of all weights of events for the key `k`. */
  function WeightOf<K(==,!new)>(events: seq<(K, int)>, k: K): int
  {
    if events == [] then 0
    else WeightOf(events[..|events| - 1], k) + (if events[|events| - 1].0 == k then events[|events| - 1].1 else 0)
  }

  /** The sum of all weights. */
  function SumWeights<K>(events: seq<(K, int)>): int
  {
    if events == [] then 0 else SumWeights(events[..|events| - 1]) + events[|events| - 1].1
  }

  /**
   * Each count is the total weight of the events for its key, the counts add up to
   * the total weight, and the keys are the event keys without repeats, in the order
   * of their first event.
   */
  lemma CountAllSound<K(!new)>(events: seq<(K, int)>)
    ensures Distinct(Keys(CountAll(events)))
    ensures Total(CountAll(events)) == SumWeights(events)
    ensures forall k :: Get(CountAll(events), k) == WeightOf(events, k)
    ensures forall k :: k in Keys(CountAll(events)) <==> exists i :: 0 <= i < |events| && events[i].0 == k
  {
    CountAllKeys(events);
    CountAllWeights(events);
  }

  lemma {:induction false} CountAllWeights<K(!new)>(events: seq<(K, int)>)
    ensures Total(CountAll(events)) == SumWeights(events)
    ensures forall k :: Get(CountAll(events), k) == WeightOf(events, k)
  {
    if events != [] {
      CountAllWeights(events[..|events| - 1]);
    }
  }

  lemma {:induction false} CountAllKeys<K(!new)>(events: seq<(K, int)>)
    ensures Distinct(Keys(CountAll(events)))
    ensures forall k :: k in Keys(CountAll(events)) <==> exists i :: 0 <= i < |events| && events[i].0 == k
  {
    if events != [] {
      var init := events[..|events| - 1];
      var last := events[|events| - 1];
      CountAllKeys(init);
      var before := Keys(CountAll(init));
      var after := Keys(CountAll(events));
      assert after == if last.0 in before then before else before + [last.0];
      if last.0 !in before {
        DistinctSnoc(before, last.0);
      }
      forall k ensures k in after <==> exists i :: 0 <= i < |events| && events[i].0 == k {
        KeyOfEvents(events, k);
        KeyOfPrefix(events, init, k);
      }
    }
  }

  /** A key occurs in the events but the last exactly when it occurs before the last index. */
  lemma KeyOfPrefix<K>(events: seq<(K, int)>, init: seq<(K, int)>, k: K)
    requires events != [] && init == events[..|events| - 1]
    ensures (exists i :: 0 <= i < |init| && init[i].0 == k)
      <==> (exists i :: 0 <= i < |events| - 1 && events[i].0 == k)
  {
    if exists i :: 0 <= i < |init| && init[i].0 == k {
      var i :| 0 <= i < |init| && init[i].0 == k;
      assert events[i].0 == k;
    }
    if exists i :: 0 <= i < |events| - 1 && events[i].0 == k {
      var i :| 0 <= i < |events| - 1 && events[i].0 == k;
      assert init[i].0 == k;
    }
  }

  /** A key occurs among the events exactly when it occurs before the last one or is the last one's. */
  lemma KeyOfEvents<K>(events: seq<(K, int)>, k: K)
    requires events != []
    ensures (exists i :: 0 <= i < |events| && events[i].0 == k)
      <==> (exists i :: 0 <= i < |events| - 1 && events[i].0 == k) || events[|events| - 1].0 == k
  {
    if exists i :: 0 <= i < |events| && events[i].0 == k {
      var i :| 0 <= i < |events| && events[i].0 == k;
      if i < |events| - 1 {
        assert events[i].0 == k;
      }
    }
  }

  /** Every key listed at the front of the events gets an entry, whatever follows. */
  lemma LeadingKeysCounted<K(!new)>(items: seq<K>, w: int, rest: seq<(K, int)>, c: K)
    requires c in items
    ensures c in Keys(CountAll(Weighted(items, w) + rest))
  {
    var events := Weighted(items, w) + rest;
    CountAllKeys(events);
    var i :| 0 <= i < |items| && items[i] == c;
    assert events[i].0 == c;
  }

  lemma {:induction false} SumWeightsAppend<K>(a: seq<(K, int)>, b: seq<(K, int)>)
    ensures SumWeights(a + b) == SumWeights(a) + SumWeights(b)
    decreases |b|
  {
    if b != [] {
      SumWeightsAppend(a, b[..|b| - 1]);
      assert (a + b)[..|a + b| - 1] == a + b[..|b| - 1];
    } else {
      assert a + b == a;
    }
  }

  lemma {:induction false} WeightOfAppend<K(!new)>(a: seq<(K, int)>, b: seq<(K, int)>, k: K)
    ensures WeightOf(a + b, k) == WeightOf(a, k) + WeightOf(b, k)
    decreases |b|
  {
    if b != [] {
      WeightOfAppend(a, b[..|b| - 1], k);
      assert (a + b)[..|a + b| - 1] == a + b[..|b| - 1];
    } else {
      assert a + b == a;
    }
  }

  /** Counting one more event is one more `Bump`. */
  lemma CountAllSnoc<K(!new)>(events: seq<(K, int)>, e: (K, int))
    ensures CountAll(events + [e]) == Bump(CountAll(events), e.0, e.1)
  {
    assert (events + [e])[..|events|] == events;
  }

  /** `for x in items: c[x] += w` */
  method BumpAll(counts0: Counts<string>, items: seq<string>, w: int, ghost before: seq<(string, int)>) returns (counts: Counts<string>)
    requires counts0 == CountAll(before)
    ensures counts == CountAll(before + Weighted(items, w))
  {
    counts := counts0;
    assert before + Weighted(items[..0], w) == before;
    for j := 0 to |items|
      invariant counts == CountAll(before + Weighted(items[..j], w))
    {
      WeightedSnoc(items, j, w, before);
      CountAllSnoc(before + Weighted(items[..j], w), (items[j], w));
      counts := Bump(counts, items[j], w);
    }
    assert items[..|items|] == items;
  }

  lemma WeightedSnoc<K>(items: seq<K>, j: nat, w: int, before: seq<(K, int)>)
    requires j < |items|
    ensures before + Weighted(items[..j + 1], w) == (before + Weighted(items[..j], w)) + [(items[j], w)]
  {
    assert items[..j + 1][..j] == items[..j];
  }

  /** One event of weight `w` per item. */
  function Weighted<K>(items: seq<K>, w: int): (r: seq<(K, int)>)
    ensures |r| == |items|
    ensures forall i :: 0 <= i < |items| ==> r[i] == (items[i], w)
  {
    if items == [] then [] else Weighted(items[..|items| - 1], w) + [(items[|items| - 1], w)]
  }

  /** Items without repeats give their weight once to each of their keys. */
  lemma {:induction false} WeightedOnce<K(!new)>(items: seq<K>, w: int, k: K)
    requires Distinct(items)
    ensures WeightOf(Weighted(items, w), k) == if k in items then w else 0
    decreases |items|
  {
    if items != [] {
      var init := items[..|items| - 1];
      WeightedOnce(init, w, k);
      assert Weighted(items, w)[..|items| - 1] == Weighted(init, w);
      assert items == init + [items[|items| - 1]];
    }
  }

  lemma {:induction false} SumWeighted<K>(items: seq<K>, w: int)
    ensures SumWeights(Weighted(items, w)) == |items| * w
    decreases |items|
  {
    if items != [] {
      SumWeighted(items[..|items| - 1], w);
      assert Weighted(items, w)[..|items| - 1] == Weighted(items[..|items| - 1], w);
    }
  }

  /** Each item of weight `w` adds `w` to its key: a key gets `w` times its number of occurrences. */
  lemma {:induction false} WeightedCount<K(!new)>(items: seq<K>, w: int, k: K)
    ensures WeightOf(Weighted(items, w), k) == w * Occurrences(items, k)
    decreases |items|
  {
    if items != [] {
      var init := items[..|items| - 1];
      WeightedCount(init, w, k);
      var ws := Weighted(items, w);
      assert ws[..|items| - 1] == Weighted(init, w);
      var n0 := Occurrences(init, k);
      var d := if items[|items| - 1] == k then 1 else 0;
      assert Occurrences(items, k) == n0 + d;
      assert WeightOf(ws, k) == w * n0 + w * d;
      Distribute(w, n0, d);
    }
  }

  lemma Distribute(w: int, a: int, b: int)
    ensures w * (a + b) == w * a + w * b
  {
  }

  /** The events of each element of `xs`, one element after the other. */
  function FlatEvents<T, K>(xs: seq<T>, f: T -> seq<(K, int)>): seq<(K, int)>
  {
    if xs == [] then [] else FlatEvents(xs[..|xs| - 1], f) + f(xs[|xs| - 1])
  }

  /** Every event of every element is among the flattened events. */
  lemma {:induction false} FlatEventsHas<T, K>(xs: seq<T>, f: T -> seq<(K, int)>, j: nat, m: nat)
    requires j < |xs| && m < |f(xs[j])|
    ensures f(xs[j])[m] in FlatEvents(xs, f)
    decreases |xs|
  {
    var init := xs[..|xs| - 1];
    if j < |xs| - 1 {
      assert init[j] == xs[j];
      FlatEventsHas(init, f, j, m);
    }
  }

  /** No event is flattened exactly when every element has none. */
  lemma {:induction false} FlatEventsNone<T, K>(xs: seq<T>, f: T -> seq<(K, int)>)
    ensures FlatEvents(xs, f) == [] <==> forall k :: 0 <= k < |xs| ==> f(xs[k]) == []
    decreases |xs|
  {
    if xs != [] {
      var init := xs[..|xs| - 1];
      FlatEventsNone(init, f);
      assert forall k :: 0 <= k < |init| ==> init[k] == xs[k];
    }
  }

  /** A counter is empty exactly when no event was counted. */
  lemma CountAllEmpty<K(!new)>(events: seq<(K, int)>)
    ensures CountAll(events) == [] <==> events == []
  {
    if events != [] {
      var c := CountAll(events[..|events| - 1]);
      assert |Keys(Bump(c, events[|events| - 1].0, events[|events| - 1].1))| > 0;
    }
  }

  /** Adds the events of element `xs[i]` to the counts of the elements before it. */
  method BumpFor<T>(counts0: Counts<string>, xs: seq<T>, i: nat, f: T -> seq<(string, int)>, items: seq<string>, w: int)
    returns (counts: Counts<string>)
    requires i < |xs| && counts0 == CountAll(FlatEvents(xs[..i], f))
    requires f(xs[i]) == Weighted(items, w)
    ensures counts == CountAll(FlatEvents(xs[..i + 1], f))
  {
    FlatEventsSnoc(xs, i, f);
    counts := BumpAll(counts0, items, w, FlatEvents(xs[..i], f));
  }

  lemma FlatEventsSnoc<T, K>(xs: seq<T>, i: nat, f: T -> seq<(K, int)>)
    requires i < |xs|
    ensures FlatEvents(xs[..i + 1], f) == FlatEvents(xs[..i], f) + f(xs[i])
  {
    assert xs[..i + 1][..i] == xs[..i];
  }

  /** Every event of a batch is an event of one of its elements. */
  lemma {:induction false} FlatEventsFrom<T, K>(xs: seq<T>, f: T -> seq<(K, int)>, n: nat)
    requires n < |FlatEvents(xs, f)|
    ensures exists j, m :: 0 <= j < |xs| && 0 <= m < |f(xs[j])| && f(xs[j])[m] == FlatEvents(xs, f)[n]
    decreases |xs|
  {
    var init := xs[..|xs| - 1];
    var before := FlatEvents(init, f);
    var last := f(xs[|xs| - 1]);
    assert FlatEvents(xs, f) == before + last;
    if n < |before| {
      FlatEventsFrom(init, f, n);
      var j, m :| 0 <= j < |init| && 0 <= m < |f(init[j])| && f(init[j])[m] == before[n];
      assert xs[j] == init[j];
    } else {
      assert last[n - |before|] == FlatEvents(xs, f)[n];
    }
  }

  /** The weight a key gets from a batch of elements is the sum of what each element gives it. */
  lemma {:induction false} FlatEventsWeight<T, K(!new)>(xs: seq<T>, f: T -> seq<(K, int)>, k: K, g: T -> int)
    requires forall i :: 0 <= i < |xs| ==> WeightOf(f(xs[i]), k) == g(xs[i])
    ensures WeightOf(FlatEvents(xs, f), k) == SumOf(xs, g)
    decreases |xs|
  {
    if xs != [] {
      var init := xs[..|xs| - 1];
      FlatEventsWeight(init, f, k, g);
      WeightOfAppend(FlatEvents(init, f), f(xs[|xs| - 1]), k);
    }
  }

  /** A batch in which no element takes weight from `k` gives `k` a weight of at least zero. */
  lemma {:induction false} FlatEventsWeightNonneg<T, K(!new)>(xs: seq<T>, f: T -> seq<(K, int)>, k: K)
    requires forall j :: 0 <= j < |xs| ==> WeightOf(f(xs[j]), k) >= 0
    ensures WeightOf(FlatEvents(xs, f), k) >= 0
    decreases |xs|
  {
    if xs != [] {
      var init := xs[..|xs| - 1];
      FlatEventsWeightNonneg(init, f, k);
      WeightOfAppend(FlatEvents(init, f), f(xs[|xs| - 1]), k);
    }
  }

  /** With no negative contribution, a batch gives a key at least what any one of its elements gives it. */
  lemma {:induction false} FlatEventsWeightAtLeast<T, K(!new)>(xs: seq<T>, f: T -> seq<(K, int)>, k: K, i: nat)
    requires i < |xs|
    requires forall j :: 0 <= j < |xs| ==> WeightOf(f(xs[j]), k) >= 0
    ensures WeightOf(FlatEvents(xs, f), k) >= WeightOf(f(xs[i]), k)
    decreases |xs|
  {
    var init := xs[..|xs| - 1];
    WeightOfAppend(FlatEvents(init, f), f(xs[|xs| - 1]), k);
    if i < |xs| - 1 {
      FlatEventsWeightAtLeast(init, f, k, i);
    } else {
      FlatEventsWeightNonneg(init, f, k);
    }
  }

  /** The count of a counter entry, as the sort key of `sorted(c.items(), key=lambda x: x[1])`. */
  function EntryWeight<K>(e: (K, int)): real { e.1 as real }

  /** `Counter.most_common(n)`: the `n` heaviest entries, ties kept in insertion order. */
  function MostCommon<K>(c: Counts<K>, n: nat): (r: Counts<K>)
    ensures |r| == if |c| < n then |c| else n
    ensures SortedDesc(r, EntryWeight)
    ensures multiset(r) <= multiset(c)
  {
    var sorted := SortDesc(c, EntryWeight);
    assert sorted == Take(sorted, n) + sorted[|Take(sorted, n)|..];
    Take(sorted, n)
  }

  /**
   * Among entries with equal counts, `most_common(n)` keeps the ones inserted first, in
   * insertion order: the entries it lists with any one count are a prefix of the counter's.
   */
  lemma MostCommonStable<K>(c: Counts<K>, n: nat, v: real)
    ensures WithKey(MostCommon(c, n), EntryWeight, v) <= WithKey(c, EntryWeight, v)
  {
    TopStable(c, EntryWeight, n, v);
  }

  /** In a counter without repeated keys, the count of an entry's key is that entry's count. */
  lemma {:induction false} GetEntry<K(!new)>(c: Counts<K>, i: nat)
    requires i < |c| && Distinct(Keys(c))
    ensures Get(c, c[i].0) == c[i].1
    decreases |c|
  {
    if i > 0 {
      assert Keys(c)[0] != Keys(c)[i];
      assert Keys(c[1..]) == Keys(c)[1..];
      GetEntry(c[1..], i - 1);
    }
  }

  /** Every entry of `most_common` is an entry of the counter, with the key's count. */
  lemma MostCommonEntry<K(!new)>(c: Counts<K>, n: nat, i: nat)
    requires Distinct(Keys(c)) && i < |MostCommon(c, n)|
    ensures MostCommon(c, n)[i] in c
    ensures Get(c, MostCommon(c, n)[i].0) == MostCommon(c, n)[i].1
  {
    var e := MostCommon(c, n)[i];
    assert e in multiset(MostCommon(c, n));
    var j :| 0 <= j < |c| && c[j] == e;
    GetEntry(c, j);
  }

  /**
   * A key that `most_common(n)` leaves out is not heavier than any entry it lists, and
   * it is left out only when `n` entries are listed.
   */
  lemma MostCommonComplete<K>(c: Counts<K>, n: nat, j: nat)
    requires j < |c| && c[j].0 !in Keys(MostCommon(c, n))
    ensures |MostCommon(c, n)| == n
    ensures forall i :: 0 <= i < n ==> MostCommon(c, n)[i].1 >= c[j].1
  {
    var sorted := SortDesc(c, EntryWeight);
    assert c[j] in multiset(sorted);
    var m :| 0 <= m < |sorted| && sorted[m] == c[j];
    UnlistedBeyond(sorted, n, m);
    forall i | 0 <= i < n ensures MostCommon(c, n)[i].1 >= c[j].1 {
      assert EntryWeight(sorted[i]) >= EntryWeight(sorted[m]);
    }
  }

  /** A key with an event that the top `n` of the counted events leaves out is outranked by all `n` listed. */
  lemma CountedTopComplete<K(!new)>(events: seq<(K, int)>, e: (K, int), n: nat)
    requires e in events && e.0 !in Keys(MostCommon(CountAll(events), n))
    ensures |MostCommon(CountAll(events), n)| == n
    ensures forall i :: 0 <= i < n ==> MostCommon(CountAll(events), n)[i].1 >= Get(CountAll(events), e.0)
  {
    var c := CountAll(events);
    CountAllSound(events);
    var i :| 0 <= i < |events| && events[i] == e;
    assert e.0 in Keys(c);
    var j :| 0 <= j < |c| && Keys(c)[j] == e.0;
    assert c[j].0 == e.0;
    GetEntry(c, j);
    assert Get(c, e.0) == c[j].1;
    MostCommonComplete(c, n, j);
  }

  /** `most_common(1)[0]`: the key's own count, and no entry has more. */
  lemma MostCommonFirst<K(!new)>(c: Counts<K>)
    requires c != [] && Distinct(Keys(c))
    ensures Get(c, MostCommon(c, 1)[0].0) == MostCommon(c, 1)[0].1
    ensures forall i :: 0 <= i < |c| ==> c[i].1 <= MostCommon(c, 1)[0].1
  {
    var best := MostCommon(c, 1)[0];
    MostCommonEntry(c, 1, 0);
    forall i | 0 <= i < |c| ensures c[i].1 <= best.1 {
      if c[i].0 == best.0 {
        GetEntry(c, i);
      } else {
        assert Keys(MostCommon(c, 1)) == [best.0];
        MostCommonComplete(c, 1, i);
      }
    }
  }

  /** An entry whose key the first `n` entries do not list sits at position `n` or later. */
  lemma UnlistedBeyond<K>(s: Counts<K>, n: nat, m: nat)
    requires m < |s| && s[m].0 !in Keys(Take(s, n))
    ensures n <= m
  {
  }


  /** A sum of terms that are each at least `c` is at least `c` times their number. */
  lemma {:induction false} SumOfAtLeast<T>(xs: seq<T>, g: T -> int, c: int)
    requires forall i :: 0 <= i < |xs| ==> g(xs[i]) >= c
    ensures SumOf(xs, g) >= c * |xs|
    decreases |xs|
  {
    if xs != [] {
      SumOfAtLeast(xs[..|xs| - 1], g, c);
    }
  }

  /** `sum(g(x) for x in xs)` */
  function SumOf<T>(xs: seq<T>, g: T -> int): int
  {
    if xs == [] then 0 else SumOf(xs[..|xs| - 1], g) + g(xs[|xs| - 1])
  }

  lemma SumOfSnoc<T>(xs: seq<T>, i: nat, g: T -> int)
    requires i < |xs|
    ensures SumOf(xs[..i + 1], g) == SumOf(xs[..i], g) + g(xs[i])
  {
    assert xs[..i + 1][..i] == xs[..i];
  }

  /** A sum of terms that are each at most `c` times smaller than the matching terms of another is too. */
  lemma {:induction false} SumOfScaled<T>(xs: seq<T>, g: T -> int, h: T -> int, c: int)
    requires forall i :: 0 <= i < |xs| ==> c * g(xs[i]) <= h(xs[i])
    ensures c * SumOf(xs, g) <= SumOf(xs, h)
    decreases |xs|
  {
    if xs != [] {
      var init := xs[..|xs| - 1];
      SumOfScaled(init, g, h, c);
      Distribute(c, SumOf(init, g), g(xs[|xs| - 1]));
    }
  }

  /** A sum of zeros is zero. */
  lemma {:induction false} SumOfZero<T>(xs: seq<T>, g: T -> int)
    requires forall i :: 0 <= i < |xs| ==> g(xs[i]) == 0
    ensures SumOf(xs, g) == 0
    decreases |xs|
  {
    if xs != [] {
      SumOfZero(xs[..|xs| - 1], g);
    }
  }

  /** A positive sum of terms has a positive term. */
  lemma {:induction false} SumOfPositive<T>(xs: seq<T>, g: T -> int)
    requires SumOf(xs, g) > 0
    ensures exists i :: 0 <= i < |xs| && g(xs[i]) > 0
    decreases |xs|
  {
    var init := xs[..|xs| - 1];
    if g(xs[|xs| - 1]) <= 0 {
      SumOfPositive(init, g);
      var i :| 0 <= i < |init| && g(init[i]) > 0;
      assert xs[i] == init[i];
    }
  }

  /** The events `(key(x), weight(x))` for every element, in order. */
  function Events<T, K>(xs: seq<T>, key: T -> K, weight: T -> int): (r: seq<(K, int)>)
    ensures |r| == |xs|
    ensures forall i :: 0 <= i < |xs| ==> r[i] == (key(xs[i]), weight(xs[i]))
  {
    if xs == [] then [] else Events(xs[..|xs| - 1], key, weight) + [(key(xs[|xs| - 1]), weight(xs[|xs| - 1]))]
  }
}
