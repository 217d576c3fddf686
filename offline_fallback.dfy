/**
 * The offline fallback analyzer, used when no database is reachable: one pass over the
 * workload counts table usage and join keys weighted by run quantity, totals the runs
 * and the database time and detects two anti-patterns; the queries are then ranked by
 * total time, and a Markdown report is assembled from the result.
 */
module OfflineFallback {
  import opened Wrappers
  import opened Text
  import opened Lists
  import opened Counters
  import opened Sorting
  import opened Scan

  /** A workload record: `queryid`, `query`, and the optional `runquantity` and `executiontime`. */
  datatype WorkloadQuery = WorkloadQuery(queryId: string, query: string, runQuantity: Option<int>, executionTime: Option<real>)

  /** `q.get('runquantity', 1)` */
  function RunsOf(q: WorkloadQuery): int
  {
    match q.runQuantity
    case Some(n) => n
    case None => 1
  }

  /** `q.get('executiontime', 0)` */
  function TimeOf(q: WorkloadQuery): real
  {
    match q.executionTime
    case Some(t) => t
    case None => 0.0
  }

  /** `run_quantity * execution_time` */
  function TotalTime(q: WorkloadQuery): real
  {
    (RunsOf(q) as real) * TimeOf(q)
  }

  // ---------------------------------------------------------------- anti-patterns

  const RandomDetails := "Uses `ORDER BY random()`, which is very inefficient and requires a full data scan and sort. Consider using `TABLESAMPLE` or fetching random IDs separately."
  const CrossJoinDetails := "Uses `CROSS JOIN`, which can create a massive number of rows. Ensure this is intentional and not a mistake."

  /** The two anti-patterns the fallback detects. */
  datatype Problem = RandomOrdering | CrossJoin
  {
    function Type(): string
    {
      match this
      case RandomOrdering => "Performance Anti-Pattern"
      case CrossJoin => "Potential Inefficiency"
    }

    function Details(): string
    {
      match this
      case RandomOrdering => RandomDetails
      case CrossJoin => CrossJoinDetails
    }
  }

  /** The problems of a query text, random ordering first. */
  function ProblemsOf(text: string): (r: seq<Problem>)
    ensures |r| <= 2 && Distinct(r)
    ensures RandomOrdering in r <==> Contains(Lower(text), "order by random()") || Contains(Lower(text), "order by rand()")
    ensures CrossJoin in r <==> Contains(Lower(text), "cross join")
    ensures r != [] && r[0] == CrossJoin ==> r == [CrossJoin]
  {
    var low := Lower(text);
    (if Contains(low, "order by random()") || Contains(low, "order by rand()") then [RandomOrdering] else [])
    + (if Contains(low, "cross join") then [CrossJoin] else [])
  }

  /** The two details texts differ, so a details text names its problem. */
  lemma DetailsNameProblem(a: Problem, b: Problem)
    ensures a.Details() == b.Details() <==> a == b
  {
    if a != b {
      assert |RandomDetails| != |CrossJoinDetails|;
    }
  }

  // ---------------------------------------------------------------- tables and join keys

  /** `t.strip('`"')` */
  function StripQuotes(t: string): string
  {
    StripChars(t, {'`', '"'})
  }

  /** `tables_found`: every FROM/JOIN reference, stripped of quotes, in text order. */
  function TablesFound(text: string): seq<string>
  {
    MapAll(RefsFrom(text, FallbackRefs, 0), StripQuotes)
  }

  /** What a query adds to `table_counter`: its runs, once for each distinct table. */
  function TableEvents(q: WorkloadQuery): seq<(string, int)>
  {
    Weighted(Dedup(TablesFound(q.query)), RunsOf(q))
  }

  /** Both operands of each ON-clause pair, left then right. */
  function Operands(pairs: seq<(string, string)>): (r: seq<string>)
    ensures |r| == 2 * |pairs|
    ensures forall k :: 0 <= k < |pairs| ==> r[2 * k] == pairs[k].0 && r[2 * k + 1] == pairs[k].1
  {
    if pairs == [] then []
    else
      var init := Operands(pairs[..|pairs| - 1]);
      init + [pairs[|pairs| - 1].0, pairs[|pairs| - 1].1]
  }

  /** The join keys of a query: both sides of every `ON a.b = c.d`, stripped of quotes. */
  function JoinKeysOf(text: string): seq<string>
  {
    MapAll(Operands(OnPairsFrom(text, 0)), StripQuotes)
  }

  /** What a query adds to `join_key_counter`: its runs, once per side of every ON clause. */
  function JoinKeyEvents(q: WorkloadQuery): seq<(string, int)>
  {
    Weighted(JoinKeysOf(q.query), RunsOf(q))
  }

  /** `SUM(total_time)` over the queries. */
  function SumTime(qs: seq<WorkloadQuery>): real
  {
    if qs == [] then 0.0 else SumTime(qs[..|qs| - 1]) + TotalTime(qs[|qs| - 1])
  }

  // ---------------------------------------------------------------- the analysis

  /** A processed query: the record with its total time and its problems. */
  datatype Processed = Processed(query: WorkloadQuery, totalTime: real, problems: seq<Problem>)

  function ProcessedOf(q: WorkloadQuery): Processed
  {
    Processed(q, TotalTime(q), ProblemsOf(q.query))
  }

  function TotalTimeKey(p: Processed): real { p.totalTime }

  /** `most_expensive_queries` before truncation: every query, by total time, highest first. */
  function ExpensiveOrder(qs: seq<WorkloadQuery>): seq<Processed>
  {
    SortDesc(MapAll(qs, ProcessedOf), TotalTimeKey)
  }

  /** `set(table_pattern.findall(q['query']))`, in first-appearance order; quotes are kept here. */
  function RawTables(p: Processed): seq<string>
  {
    Dedup(RefsFrom(p.query.query, FallbackRefs, 0))
  }

  /** `most_expensive_queries[:5]` */
  function MostExpensive(qs: seq<WorkloadQuery>): seq<Processed>
  {
    Take(ExpensiveOrder(qs), 5)
  }

  /** `table_counter.most_common(5)` */
  function MostUsedTables(qs: seq<WorkloadQuery>): Counts<string>
  {
    MostCommon(CountAll(FlatEvents(qs, TableEvents)), 5)
  }

  /** `top_join_keys` */
  function TopJoinKeys(qs: seq<WorkloadQuery>): seq<string>
  {
    Keys(MostCommon(CountAll(FlatEvents(qs, JoinKeyEvents)), 5))
  }

  /** A query that references more than two distinct tables. */
  predicate ManyTables(p: Processed) { |RawTables(p)| > 2 }

  /** A many-table query without `runquantity`: `q['runquantity']` raises `KeyError`. */
  predicate MissingRuns(p: Processed) { ManyTables(p) && p.query.runQuantity.None? }

  /** Some of the ranked queries raises `KeyError`. */
  predicate AnyMissing(top: seq<Processed>)
  {
    exists k :: 0 <= k < |top| && MissingRuns(top[k])
  }

  /** What a ranked query adds to `frequent_join_sets`: its runs under its sorted table tuple. */
  function JoinSetEvents(p: Processed): seq<(seq<string>, int)>
  {
    if ManyTables(p) then [(SortStrings(RawTables(p)), RunsOf(p.query))] else []
  }

  const MvReasonHead := "These tables are frequently joined together in high-cost queries (contributing to ~"
  const MvReasonTail := " total runs). Pre-joining them can significantly boost performance."

  /** A materialized-view suggestion: the sorted table tuple and the runs behind it. */
  datatype MvSuggestion = MvSuggestion(tables: seq<string>, runs: int)
  {
    function Reason(): string { MvReasonHead + IntToString(runs) + MvReasonTail }
  }

  /** The suggestion from the most run table tuple among the ranked queries, if any. */
  function MvSuggestionsOf(top: seq<Processed>): seq<MvSuggestion>
  {
    var sets := CountAll(FlatEvents(top, JoinSetEvents));
    if sets == [] then []
    else
      var best := MostCommon(sets, 1)[0];
      [MvSuggestion(best.0, best.1)]
  }

  /** A rewrite suggestion: the query and one of its problems. */
  datatype Rewrite = Rewrite(queryId: string, problem: Problem)

  function RewritesOf(p: Processed): seq<Rewrite>
  {
    MapAll(p.problems, (pr: Problem) => Rewrite(p.query.queryId, pr))
  }

  /** `rewrite_suggestions`: the problems of every query, in ranking order. */
  function RewritesFrom(ps: seq<Processed>): seq<Rewrite>
  {
    if ps == [] then [] else RewritesFrom(ps[..|ps| - 1]) + RewritesOf(ps[|ps| - 1])
  }

  datatype DbStats = DbStats(totalQueries: nat, totalRuns: int, totalTime: real)

  /**
   * The result of `analyze_queries`. `filterGroupKeys` stands for the
   * `filter_group_keys` entry, which only the empty-input result has.
   */
  datatype Analysis = Analysis(
    dbStats: DbStats,
    mostUsedTables: Counts<string>,
    mostExpensive: seq<Processed>,
    joinKeys: seq<string>,
    filterGroupKeys: Option<seq<string>>,
    mvSuggestions: seq<MvSuggestion>,
    rewrites: seq<Rewrite>)

  const EmptyAnalysis := Analysis(DbStats(0, 0, 0.0), [], [], [], Some([]), [], [])

  const MissingRunQuantity := "KeyError: 'runquantity'"

  /** What `analyze_queries` returns, or the error it raises. */
  function AnalysisOf(qs: seq<WorkloadQuery>): Result<Analysis>
  {
    if qs == [] then Ok(EmptyAnalysis)
    else
      var top := MostExpensive(qs);
      if AnyMissing(top) then Err(MissingRunQuantity)
      else
        Ok(Analysis(
          DbStats(|qs|, SumOf(qs, RunsOf), SumTime(qs)),
          MostUsedTables(qs),
          top,
          TopJoinKeys(qs),
          None,
          MvSuggestionsOf(top),
          RewritesFrom(ExpensiveOrder(qs))))
  }

  /** The running state of the loop of `analyze_queries` after the first `i` queries. */
  datatype Tally = Tally(tables: Counts<string>, joinKeys: Counts<string>, processed: seq<Processed>, runs: int, time: real)

  ghost predicate TallyAt(t: Tally, qs: seq<WorkloadQuery>, i: nat)
    requires i <= |qs|
  {
    && t.tables == CountAll(FlatEvents(qs[..i], TableEvents))
    && t.joinKeys == CountAll(FlatEvents(qs[..i], JoinKeyEvents))
    && t.processed == MapAll(qs[..i], ProcessedOf)
    && t.runs == SumOf(qs[..i], RunsOf)
    && t.time == SumTime(qs[..i])
  }

  /** One iteration of the loop of `analyze_queries`, on query `qs[i]`. */
  method AnalyzeOne(t0: Tally, qs: seq<WorkloadQuery>, i: nat) returns (t: Tally)
    requires i < |qs| && TallyAt(t0, qs, i)
    ensures TallyAt(t, qs, i + 1)
  {
    var q := qs[i];
    var runQuantity := RunsOf(q);
    var totalTime := TotalTime(q);
    SumOfSnoc(qs, i, RunsOf);
    assert qs[..i + 1][..i] == qs[..i];
    var tables := BumpFor(t0.tables, qs, i, TableEvents, Dedup(TablesFound(q.query)), runQuantity);
    var joinKeys := BumpFor(t0.joinKeys, qs, i, JoinKeyEvents, JoinKeysOf(q.query), runQuantity);
    MapAllSnoc(qs, i, ProcessedOf);
    var p := Processed(q, totalTime, ProblemsOf(q.query));
    assert p == ProcessedOf(qs[i]);
    assert SumTime(qs[..i + 1]) == SumTime(qs[..i]) + TotalTime(qs[i]);
    t := Tally(tables, joinKeys, t0.processed + [p], t0.runs + runQuantity, t0.time + totalTime);
    assert t.tables == CountAll(FlatEvents(qs[..i + 1], TableEvents));
    assert t.joinKeys == CountAll(FlatEvents(qs[..i + 1], JoinKeyEvents));
    assert t.processed == MapAll(qs[..i + 1], ProcessedOf);
    assert t.runs == SumOf(qs[..i + 1], RunsOf);
  }

  /** The second loop: the table tuples of the ranked queries, or the `KeyError`. */
  method CountJoinSets(top: seq<Processed>) returns (r: Result<Counts<seq<string>>>)
    ensures r.Err? <==> AnyMissing(top)
    ensures r.Err? ==> r.error == MissingRunQuantity
    ensures r.Ok? ==> r.value == CountAll(FlatEvents(top, JoinSetEvents))
  {
    var sets: Counts<seq<string>> := [];
    for k := 0 to |top|
      invariant sets == CountAll(FlatEvents(top[..k], JoinSetEvents))
      invariant NoneMissing(top, k)
    {
      if |RawTables(top[k])| > 2 && top[k].query.runQuantity.None? {
        return Err(MissingRunQuantity);
      }
      sets := AddJoinSet(sets, top, k);
    }
    assert top[..|top|] == top;
    r := Ok(sets);
  }

  /** None of the first `k` ranked queries raises. */
  ghost predicate NoneMissing(top: seq<Processed>, k: nat)
    requires k <= |top|
  {
    forall j :: 0 <= j < k ==> !MissingRuns(top[j])
  }

  /** One iteration of the second loop, on a query that does not raise. */
  method AddJoinSet(sets0: Counts<seq<string>>, top: seq<Processed>, k: nat) returns (sets: Counts<seq<string>>)
    requires k < |top| && !MissingRuns(top[k])
    requires sets0 == CountAll(FlatEvents(top[..k], JoinSetEvents))
    ensures sets == CountAll(FlatEvents(top[..k + 1], JoinSetEvents))
  {
    var tables := RawTables(top[k]);
    if |tables| > 2 {
      JoinSetCounted(top, k);
      sets := Bump(sets0, SortStrings(tables), top[k].query.runQuantity.value);
    } else {
      JoinSetSkipped(top, k);
      sets := sets0;
    }
  }

  lemma JoinSetCounted(top: seq<Processed>, k: nat)
    requires k < |top| && ManyTables(top[k]) && top[k].query.runQuantity.Some?
    ensures CountAll(FlatEvents(top[..k + 1], JoinSetEvents))
      == Bump(CountAll(FlatEvents(top[..k], JoinSetEvents)), SortStrings(RawTables(top[k])), top[k].query.runQuantity.value)
  {
    FlatEventsSnoc(top, k, JoinSetEvents);
    CountAllSnoc(FlatEvents(top[..k], JoinSetEvents), (SortStrings(RawTables(top[k])), top[k].query.runQuantity.value));
  }

  lemma JoinSetSkipped(top: seq<Processed>, k: nat)
    requires k < |top| && !ManyTables(top[k])
    ensures FlatEvents(top[..k + 1], JoinSetEvents) == FlatEvents(top[..k], JoinSetEvents)
  {
    FlatEventsSnoc(top, k, JoinSetEvents);
  }

  /** `rewrite_suggestions` extended by the problems of one query. */
  method AppendRewrites(rewrites0: seq<Rewrite>, p: Processed) returns (rewrites: seq<Rewrite>)
    ensures rewrites == rewrites0 + RewritesOf(p)
  {
    rewrites := rewrites0;
    for m := 0 to |p.problems|
      invariant rewrites == rewrites0 + MapAll(p.problems[..m], (pr: Problem) => Rewrite(p.query.queryId, pr))
    {
      MapAllSnoc(p.problems, m, (pr: Problem) => Rewrite(p.query.queryId, pr));
      rewrites := rewrites + [Rewrite(p.query.queryId, p.problems[m])];
    }
    assert p.problems[..|p.problems|] == p.problems;
  }

  /** The first loop of `analyze_queries`, over every query. */
  method TallyQueries(qs: seq<WorkloadQuery>) returns (t: Tally)
    ensures t.tables == CountAll(FlatEvents(qs, TableEvents))
    ensures t.joinKeys == CountAll(FlatEvents(qs, JoinKeyEvents))
    ensures t.processed == MapAll(qs, ProcessedOf)
    ensures t.runs == SumOf(qs, RunsOf) && t.time == SumTime(qs)
  {
    t := Tally([], [], [], 0, 0.0);
    for i := 0 to |qs|
      invariant TallyAt(t, qs, i)
    {
      t := AnalyzeOne(t, qs, i);
    }
    assert qs[..|qs|] == qs;
  }

  /** The materialized-view step once the table tuples are counted. */
  method SuggestMv(top: seq<Processed>, sets: Counts<seq<string>>) returns (mv: seq<MvSuggestion>)
    requires sets == CountAll(FlatEvents(top, JoinSetEvents))
    ensures mv == MvSuggestionsOf(top)
  {
    mv := [];
    if sets != [] {
      var best := MostCommon(sets, 1)[0];
      mv := mv + [MvSuggestion(best.0, best.1)];
    }
  }

  /** The last loop of `analyze_queries`: the rewrites of every ranked query. */
  method CollectRewrites(order: seq<Processed>) returns (rewrites: seq<Rewrite>)
    ensures rewrites == RewritesFrom(order)
  {
    rewrites := [];
    for j := 0 to |order|
      invariant rewrites == RewritesFrom(order[..j])
    {
      RewritesSnoc(order, j);
      rewrites := AppendRewrites(rewrites, order[j]);
    }
    assert order[..|order|] == order;
  }

  lemma RewritesSnoc(order: seq<Processed>, j: nat)
    requires j < |order|
    ensures RewritesFrom(order[..j + 1]) == RewritesFrom(order[..j]) + RewritesOf(order[j])
  {
    assert order[..j + 1][..j] == order[..j];
  }

  /** `analyze_queries` */
  method AnalyzeQueries(qs: seq<WorkloadQuery>) returns (r: Result<Analysis>)
    ensures r == AnalysisOf(qs)
  {
    if |qs| == 0 {
      return Ok(EmptyAnalysis);
    }
    var t := TallyQueries(qs);
    var order := SortDesc(t.processed, TotalTimeKey);
    var topJoinKeys := Keys(MostCommon(t.joinKeys, 5));
    var top := Take(order, 5);
    assert order == ExpensiveOrder(qs) && top == MostExpensive(qs);
    var counted := CountJoinSets(top);
    if counted.Err? {
      return Err(counted.error);
    }
    var mv := SuggestMv(top, counted.value);
    var rewrites := CollectRewrites(order);
    r := Ok(Analysis(DbStats(|qs|, t.runs, t.time), MostCommon(t.tables, 5), top, topJoinKeys, None, mv, rewrites));
  }

  /** Without queries the analysis is all zeros and empty lists. */
  lemma EmptyWorkload()
    ensures AnalysisOf([]) == Ok(Analysis(DbStats(0, 0, 0.0), [], [], [], Some([]), [], []))
  {
  }

  /** A query without `runquantity` counts as one run and one without `executiontime` takes no time. */
  lemma TotalsDefault(qs: seq<WorkloadQuery>)
    requires forall k :: 0 <= k < |qs| ==> qs[k].runQuantity.None? && qs[k].executionTime.None?
    ensures SumOf(qs, RunsOf) == |qs|
    ensures SumTime(qs) == 0.0
  {
    forall k | 0 <= k < |qs| ensures RunsOf(qs[k]) >= 1 && -RunsOf(qs[k]) >= -1 {
    }
    SumOfAtLeast(qs, RunsOf, 1);
    SumOfAtMost(qs, RunsOf, 1);
    SumTimeZero(qs);
  }

  lemma {:induction false} SumOfAtMost(qs: seq<WorkloadQuery>, g: WorkloadQuery -> int, c: int)
    requires forall k :: 0 <= k < |qs| ==> g(qs[k]) <= c
    ensures SumOf(qs, g) <= c * |qs|
    decreases |qs|
  {
    if qs != [] {
      SumOfAtMost(qs[..|qs| - 1], g, c);
    }
  }

  lemma {:induction false} SumTimeZero(qs: seq<WorkloadQuery>)
    requires forall k :: 0 <= k < |qs| ==> qs[k].executionTime.None?
    ensures SumTime(qs) == 0.0
    decreases |qs|
  {
    if qs != [] {
      SumTimeZero(qs[..|qs| - 1]);
    }
  }

  // ---------------------------------------------------------------- properties of the analysis

  /** The runs a table gets from a query: all of them if the query mentions it at all. */
  function TableRuns(t: string): WorkloadQuery -> int
  {
    (q: WorkloadQuery) => if t in TablesFound(q.query) then RunsOf(q) else 0
  }

  /**
   * A table's usage count is the total run quantity of the queries that mention it, each
   * query counting once however often the table appears in its text.
   */
  lemma TableUsage(qs: seq<WorkloadQuery>, t: string)
    ensures Get(CountAll(FlatEvents(qs, TableEvents)), t) == SumOf(qs, TableRuns(t))
  {
    CountAllSound(FlatEvents(qs, TableEvents));
    forall i | 0 <= i < |qs| ensures WeightOf(TableEvents(qs[i]), t) == TableRuns(t)(qs[i]) {
      WeightedOnce(Dedup(TablesFound(qs[i].query)), RunsOf(qs[i]), t);
    }
    FlatEventsWeight(qs, TableEvents, t, TableRuns(t));
  }

  /** `most_used_tables`: at most five tables, heaviest first, each with its run-weighted usage. */
  lemma MostUsedTablesWeighted(qs: seq<WorkloadQuery>)
    ensures var m := MostUsedTables(qs);
      && |m| <= 5
      && SortedDesc(m, EntryWeight)
      && forall i :: 0 <= i < |m| ==> m[i].1 == SumOf(qs, TableRuns(m[i].0))
  {
    var c := CountAll(FlatEvents(qs, TableEvents));
    CountAllSound(FlatEvents(qs, TableEvents));
    forall i | 0 <= i < |MostCommon(c, 5)| ensures MostCommon(c, 5)[i].1 == SumOf(qs, TableRuns(MostCommon(c, 5)[i].0)) {
      MostCommonEntry(c, 5, i);
      TableUsage(qs, MostCommon(c, 5)[i].0);
    }
  }

  /** A table the workload mentions but `most_used_tables` leaves out is outranked by five listed ones. */
  lemma MostUsedTablesComplete(qs: seq<WorkloadQuery>, j: nat, t: string)
    requires j < |qs| && t in TablesFound(qs[j].query) && t !in Keys(MostUsedTables(qs))
    ensures var m := MostUsedTables(qs);
      |m| == 5 && forall i :: 0 <= i < 5 ==> m[i].1 >= SumOf(qs, TableRuns(t))
  {
    var tables := Dedup(TablesFound(qs[j].query));
    var mm :| 0 <= mm < |tables| && tables[mm] == t;
    var ev := TableEvents(qs[j]);
    assert ev == Weighted(tables, RunsOf(qs[j]));
    assert ev[mm] == (t, RunsOf(qs[j]));
    FlatEventsHas(qs, TableEvents, j, mm);
    CountedTopComplete(FlatEvents(qs, TableEvents), ev[mm], 5);
    TableUsage(qs, t);
  }

  /** The runs a join key gets from a query: its run quantity for every side of an ON clause it is. */
  function JoinKeyRuns(k: string): WorkloadQuery -> int
  {
    (q: WorkloadQuery) => RunsOf(q) * Occurrences(JoinKeysOf(q.query), k)
  }

  /** A join key's count is the run quantity of each query times the ON-clause sides it occupies there. */
  lemma JoinKeyUsage(qs: seq<WorkloadQuery>, k: string)
    ensures Get(CountAll(FlatEvents(qs, JoinKeyEvents)), k) == SumOf(qs, JoinKeyRuns(k))
  {
    CountAllSound(FlatEvents(qs, JoinKeyEvents));
    forall i | 0 <= i < |qs| ensures WeightOf(JoinKeyEvents(qs[i]), k) == JoinKeyRuns(k)(qs[i]) {
      WeightedCount(JoinKeysOf(qs[i].query), RunsOf(qs[i]), k);
    }
    FlatEventsWeight(qs, JoinKeyEvents, k, JoinKeyRuns(k));
  }

  /** The recommended join keys: at most five, in non-increasing order of their counts. */
  lemma TopJoinKeysRanked(qs: seq<WorkloadQuery>)
    ensures var keys := TopJoinKeys(qs);
      && |keys| <= 5
      && forall i, j :: 0 <= i < j < |keys| ==> SumOf(qs, JoinKeyRuns(keys[i])) >= SumOf(qs, JoinKeyRuns(keys[j]))
  {
    var c := CountAll(FlatEvents(qs, JoinKeyEvents));
    var top := MostCommon(c, 5);
    CountAllSound(FlatEvents(qs, JoinKeyEvents));
    forall i, j | 0 <= i < j < |top| ensures SumOf(qs, JoinKeyRuns(top[i].0)) >= SumOf(qs, JoinKeyRuns(top[j].0)) {
      RankedKeys(qs, c, i, j);
    }
  }

  lemma RankedKeys(qs: seq<WorkloadQuery>, c: Counts<string>, i: nat, j: nat)
    requires c == CountAll(FlatEvents(qs, JoinKeyEvents)) && Distinct(Keys(c))
    requires i < j < |MostCommon(c, 5)|
    ensures SumOf(qs, JoinKeyRuns(MostCommon(c, 5)[i].0)) >= SumOf(qs, JoinKeyRuns(MostCommon(c, 5)[j].0))
  {
    var top := MostCommon(c, 5);
    MostCommonEntry(c, 5, i);
    MostCommonEntry(c, 5, j);
    JoinKeyUsage(qs, top[i].0);
    JoinKeyUsage(qs, top[j].0);
    assert EntryWeight(top[i]) >= EntryWeight(top[j]);
  }

  /** A join key left out of the recommendation is outranked by the five recommended. */
  lemma TopJoinKeysComplete(qs: seq<WorkloadQuery>, j: nat, k: string)
    requires j < |qs| && k in JoinKeysOf(qs[j].query) && k !in TopJoinKeys(qs)
    ensures var keys := TopJoinKeys(qs);
      |keys| == 5 && forall i :: 0 <= i < 5 ==> SumOf(qs, JoinKeyRuns(keys[i])) >= SumOf(qs, JoinKeyRuns(k))
  {
    var events := FlatEvents(qs, JoinKeyEvents);
    var c := CountAll(events);
    var top := MostCommon(c, 5);
    var mm :| 0 <= mm < |JoinKeysOf(qs[j].query)| && JoinKeysOf(qs[j].query)[mm] == k;
    FlatEventsHas(qs, JoinKeyEvents, j, mm);
    assert JoinKeyEvents(qs[j])[mm].0 == k;
    CountedTopComplete(events, JoinKeyEvents(qs[j])[mm], 5);
    CountAllSound(events);
    JoinKeyUsage(qs, k);
    forall i | 0 <= i < 5 ensures SumOf(qs, JoinKeyRuns(top[i].0)) >= SumOf(qs, JoinKeyRuns(k)) {
      MostCommonEntry(c, 5, i);
      JoinKeyUsage(qs, top[i].0);
    }
  }

  /**
   * `most_expensive_queries[:5]`: the first five queries by total time, highest first; a
   * query that is not among them takes no more time than any of them.
   */
  lemma MostExpensiveRanked(qs: seq<WorkloadQuery>, j: nat)
    requires j < |qs|
    ensures var top := MostExpensive(qs);
      && |top| == (if |qs| < 5 then |qs| else 5)
      && SortedDesc(top, TotalTimeKey)
      && (ProcessedOf(qs[j]) in top || forall i :: 0 <= i < |top| ==> top[i].totalTime >= TotalTime(qs[j]))
  {
    assert MapAll(qs, ProcessedOf)[j] == ProcessedOf(qs[j]);
    TopOrBelow(MapAll(qs, ProcessedOf), TotalTimeKey, 5, ProcessedOf(qs[j]));
  }

  /** Some of the ranked queries references more than two distinct tables. */
  predicate AnyManyTables(top: seq<Processed>)
  {
    exists k :: 0 <= k < |top| && ManyTables(top[k])
  }

  /**
   * At most one materialized view is suggested, and one is suggested exactly when a ranked
   * query references more than two distinct tables.
   */
  lemma MvSuggestionWhenJoined(top: seq<Processed>)
    ensures |MvSuggestionsOf(top)| <= 1
    ensures MvSuggestionsOf(top) != [] <==> AnyManyTables(top)
  {
    FlatEventsNone(top, JoinSetEvents);
    CountAllEmpty(FlatEvents(top, JoinSetEvents));
  }

  /** The suggested tuple carries its counted runs, and no other tuple was counted more runs. */
  lemma MvSuggestionHeaviest(top: seq<Processed>)
    requires MvSuggestionsOf(top) != []
    ensures var sets := CountAll(FlatEvents(top, JoinSetEvents));
      var mv := MvSuggestionsOf(top)[0];
      && Get(sets, mv.tables) == mv.runs
      && forall i :: 0 <= i < |sets| ==> sets[i].1 <= mv.runs
  {
    CountAllSound(FlatEvents(top, JoinSetEvents));
    MostCommonFirst(CountAll(FlatEvents(top, JoinSetEvents)));
  }

  /** Processed query `p` has problem `pr` and the id `id`. */
  function HasRewrite(id: string, pr: Problem): Processed -> bool
  {
    (p: Processed) => p.query.queryId == id && pr in p.problems
  }

  /** The rewrites of one query are its problems. */
  lemma RewritesOfHas(p: Processed, id: string, pr: Problem)
    ensures Rewrite(id, pr) in RewritesOf(p) <==> HasRewrite(id, pr)(p)
  {
    if Rewrite(id, pr) in RewritesOf(p) {
      var m :| 0 <= m < |p.problems| && RewritesOf(p)[m] == Rewrite(id, pr);
    }
    if HasRewrite(id, pr)(p) {
      var m :| 0 <= m < |p.problems| && p.problems[m] == pr;
      assert RewritesOf(p)[m] == Rewrite(id, pr);
    }
  }

  /** A rewrite is listed exactly when its query has that problem. */
  lemma {:induction false} RewritesListed(ps: seq<Processed>, id: string, pr: Problem)
    ensures Rewrite(id, pr) in RewritesFrom(ps) <==> exists k :: 0 <= k < |ps| && HasRewrite(id, pr)(ps[k])
    decreases |ps|
  {
    if ps != [] {
      RewritesListed(ps[..|ps| - 1], id, pr);
      RewritesOfHas(ps[|ps| - 1], id, pr);
      ExistsSnoc(ps, ps[..|ps| - 1], HasRewrite(id, pr));
    }
  }

  /** `query_rewrites` names every problem of every query, and nothing else. */
  lemma RewritesComplete(qs: seq<WorkloadQuery>, id: string, pr: Problem)
    ensures Rewrite(id, pr) in RewritesFrom(ExpensiveOrder(qs))
      <==> exists j :: 0 <= j < |qs| && qs[j].queryId == id && pr in ProblemsOf(qs[j].query)
  {
    var all := MapAll(qs, ProcessedOf);
    RewritesListed(ExpensiveOrder(qs), id, pr);
    PermutedExists(ExpensiveOrder(qs), all, HasRewrite(id, pr));
    assert forall j :: 0 <= j < |qs| ==> (HasRewrite(id, pr)(all[j]) <==> qs[j].queryId == id && pr in ProblemsOf(qs[j].query));
  }

  /** When every query carries a `runquantity`, the analysis does not raise. */
  lemma RunQuantitiesGiven(qs: seq<WorkloadQuery>)
    requires forall j :: 0 <= j < |qs| ==> qs[j].runQuantity.Some?
    ensures AnalysisOf(qs).Ok?
  {
    var all := MapAll(qs, ProcessedOf);
    PermutedExists(ExpensiveOrder(qs), all, MissingRuns);
    assert forall k :: 0 <= k < |MostExpensive(qs)| ==> MostExpensive(qs)[k] == ExpensiveOrder(qs)[k];
  }

  // ---------------------------------------------------------------- the report

  /** The fixed lines of the report. */
  datatype Fixed =
    | Title | TablesHeading | TablesIntro | TablesHeader | TablesRule
    | ExpensiveHeading | ExpensiveIntro | ExpensiveHeader | ExpensiveRule
    | RecommendationsHeading | IndexHeading | IndexAdvice | IndexColumns
    | MvHeading | MvAdvice | RewritesHeading | RewritesAdvice
  {
    function Text(): string
    {
      match this
      case Title => "# Query Performance Analysis Report"
      case TablesHeading => "\n## 1. Most Used Tables"
      case TablesIntro => "These tables appear most frequently in the executed queries, weighted by run quantity."
      case TablesHeader => "| Table Name | Weighted Usage Count |"
      case TablesRule => "|:---|:---|"
      case ExpensiveHeading => "\n## 3. Most Expensive Queries"
      case ExpensiveIntro => "These queries consume the most total database time (`executiontime` * `runquantity`). They are the top priority for optimization."
      case ExpensiveHeader => "| Query ID (short) | Run Quantity | Avg. Time (s) | Total Time (s) | Key Problem(s) |"
      case ExpensiveRule => "|:---|:---|:---|:---|:---|"
      case RecommendationsHeading => "\n## 4. Recommendations for Optimization"
      case IndexHeading => "\n### 4.1 Indexing"
      case IndexAdvice => "**Suggestion:** Add indexes to columns frequently used in `JOIN` conditions to accelerate data linking."
      case IndexColumns => "- **Recommended columns for indexing:**"
      case MvHeading => "\n### 4.2 Materialized Views"
      case MvAdvice => "**Suggestion:** Create materialized views for complex, high-frequency joins to pre-compute results."
      case RewritesHeading => "\n### 4.3 Query Rewrites"
      case RewritesAdvice => "**Suggestion:** The queries contain performance anti-patterns and should be refactored."
    }
  }

  /** A line of the report, before it is rendered as Markdown text. */
  datatype ReportLine =
    | Line(fixed: Fixed)
    | UsageRow(table: string, count: int)
    | ExpensiveRow(query: string, runs: int, execTime: real, totalTime: int, problems: string)
    | IndexKey(key: string)
    | CandidateTables(tables: seq<string>)
    | CandidateReason(reason: string)
    | Antipattern(details: string)

  /** `int(x)`: truncation toward zero. */
  function Truncate(x: real): (r: int)
    ensures x >= 0.0 ==> r as real <= x < r as real + 1.0
    ensures x < 0.0 ==> r as real - 1.0 < x <= r as real
  {
    if x >= 0.0 then x.Floor else -((-x).Floor)
  }

  function ProblemType(pr: Problem): string { pr.Type() }

  /** The problem column: the problem types joined by " / ", or "N/A" when there are none. */
  function ProblemColumn(problems: seq<Problem>): string
  {
    if problems == [] then "N/A" else Join(MapAll(problems, ProblemType), " / ")
  }

  function UsageRowOf(e: (string, int)): ReportLine { UsageRow(e.0, e.1) }

  /** The row of a ranked query, or the `KeyError` its missing field raises. */
  function ExpensiveRowOf(p: Processed): Result<ReportLine>
  {
    match (p.query.runQuantity, p.query.executionTime)
    case (None, _) => Err(MissingRunQuantity)
    case (_, None) => Err(MissingExecutionTime)
    case (Some(runs), Some(time)) => Ok(ExpensiveRow(p.query.query, runs, time, Truncate(p.totalTime), ProblemColumn(p.problems)))
  }

  const MissingExecutionTime := "KeyError: 'executiontime'"

  /** The rows of the ranked queries, or the error of the first that lacks a field. */
  function ExpensiveRows(ps: seq<Processed>): Result<seq<ReportLine>>
  {
    if ps == [] then Ok([])
    else
      match ExpensiveRows(ps[..|ps| - 1])
      case Err(e) => Err(e)
      case Ok(rows) =>
        match ExpensiveRowOf(ps[|ps| - 1])
        case Err(e) => Err(e)
        case Ok(row) => Ok(rows + [row])
  }

  function IndexKeyLine(k: string): ReportLine { IndexKey(k) }

  function AntipatternLine(d: string): ReportLine { Antipattern(d) }

  const IndexHead := [Line(IndexHeading), Line(IndexAdvice), Line(IndexColumns)]
  const RewritesHead := [Line(RewritesHeading), Line(RewritesAdvice)]

  function IndexSection(keys: seq<string>): seq<ReportLine>
  {
    if keys == [] then [] else IndexHead + MapAll(keys, IndexKeyLine)
  }

  /** The two lines of each suggested view. */
  function CandidateLines(mvs: seq<MvSuggestion>): seq<ReportLine>
  {
    if mvs == [] then []
    else CandidateLines(mvs[..|mvs| - 1]) + [CandidateTables(mvs[|mvs| - 1].tables), CandidateReason(mvs[|mvs| - 1].Reason())]
  }

  const MvHead := [Line(MvHeading), Line(MvAdvice)]

  function MvSection(mvs: seq<MvSuggestion>): seq<ReportLine>
  {
    if mvs == [] then [] else MvHead + CandidateLines(mvs)
  }

  /** The `queryid` and `details` fields the report reads from a rewrite suggestion. */
  function RewriteEntry(rw: Rewrite): (string, string)
  {
    (rw.queryId, rw.problem.Details())
  }

  function Entries(rws: seq<Rewrite>): seq<(string, string)>
  {
    MapAll(rws, RewriteEntry)
  }

  /**
   * `reported_query_ids` and `antipatterns` after the given (queryid, details) entries:
   * an entry is reported unless its query was already reported or its details were already listed.
   */
  function Reported(entries: seq<(string, string)>): (set<string>, seq<string>)
  {
    if entries == [] then ({}, [])
    else
      var (ids, details) := Reported(entries[..|entries| - 1]);
      var (qid, rec) := entries[|entries| - 1];
      if qid in ids || rec in details then (ids, details)
      else (ids + {qid}, details + [rec])
  }

  function RewritesSection(rws: seq<Rewrite>): seq<ReportLine>
  {
    if rws == [] then [] else RewritesHead + MapAll(Reported(Entries(rws)).1, AntipatternLine)
  }

  const TablesLines := [Line(Title), Line(TablesHeading), Line(TablesIntro), Line(TablesHeader), Line(TablesRule)]
  const ExpensiveLines := [Line(ExpensiveHeading), Line(ExpensiveIntro), Line(ExpensiveHeader), Line(ExpensiveRule)]

  /** What `generate_report` returns for an analysis, as lines, or the error it raises. */
  function ReportOf(a: Analysis): Result<seq<ReportLine>>
  {
    match ExpensiveRows(a.mostExpensive)
    case Err(e) => Err(e)
    case Ok(rows) =>
      Ok(TablesLines + MapAll(a.mostUsedTables, UsageRowOf) + ExpensiveLines + rows + [Line(RecommendationsHeading)]
        + IndexSection(a.joinKeys) + MvSection(a.mvSuggestions) + RewritesSection(a.rewrites))
  }

  /** `fallback_analysis`: the analysis, then its report. */
  function FallbackReport(qs: seq<WorkloadQuery>): Result<seq<ReportLine>>
  {
    match AnalysisOf(qs)
    case Err(e) => Err(e)
    case Ok(a) => ReportOf(a)
  }

  /** The report raises exactly when a ranked query lacks `runquantity` or `executiontime`. */
  predicate LacksField(p: Processed)
  {
    p.query.runQuantity.None? || p.query.executionTime.None?
  }

  /** The rows: one per ranked query, or the error of the first query that lacks a field. */
  lemma {:induction false} ExpensiveRowsFacts(ps: seq<Processed>)
    ensures ExpensiveRows(ps).Err? <==> exists k :: 0 <= k < |ps| && LacksField(ps[k])
    ensures ExpensiveRows(ps).Ok? ==> |ExpensiveRows(ps).value| == |ps|
    ensures ExpensiveRows(ps).Err? ==> ExpensiveRows(ps).error in {MissingRunQuantity, MissingExecutionTime}
    decreases |ps|
  {
    if ps != [] {
      var init := ps[..|ps| - 1];
      ExpensiveRowsFacts(init);
      assert forall k :: 0 <= k < |init| ==> init[k] == ps[k];
    }
  }

  /** An error among the first rows is the error of all of them. */
  lemma {:induction false} ExpensiveRowsFail(ps: seq<Processed>, i: nat)
    requires i <= |ps| && ExpensiveRows(ps[..i]).Err?
    ensures ExpensiveRows(ps) == ExpensiveRows(ps[..i])
    decreases |ps| - i
  {
    if i < |ps| {
      assert ps[..i + 1][..i] == ps[..i];
      ExpensiveRowsFail(ps, i + 1);
    } else {
      assert ps[..i] == ps;
    }
  }

  /** One more entry: reported unless its query or its details text already was. */
  lemma ReportedSnoc(entries: seq<(string, string)>, e: (string, string))
    ensures var (ids, details) := Reported(entries);
      Reported(entries + [e])
        == if e.0 in ids || e.1 in details then (ids, details) else (ids + {e.0}, details + [e.1])
  {
    assert (entries + [e])[..|entries|] == entries;
  }

  /** Reporting only ever appends: the details listed so far stay at the front. */
  lemma ReportedGrows(entries: seq<(string, string)>, e: (string, string))
    ensures Reported(entries).1 <= Reported(entries + [e]).1
  {
    ReportedSnoc(entries, e);
  }

  /** Each reported line adds a query that was not reported before. */
  lemma {:induction false} ReportedQueriesOnce(entries: seq<(string, string)>)
    ensures |Reported(entries).0| == |Reported(entries).1|
    decreases |entries|
  {
    if entries != [] {
      ReportedQueriesOnce(entries[..|entries| - 1]);
    }
  }

  /** No details text is listed twice. */
  lemma {:induction false} ReportedDetailsOnce(entries: seq<(string, string)>)
    ensures Distinct(Reported(entries).1)
    decreases |entries|
  {
    if entries != [] {
      var init := entries[..|entries| - 1];
      ReportedDetailsOnce(init);
      var e := entries[|entries| - 1];
      if !(e.0 in Reported(init).0 || e.1 in Reported(init).1) {
        DistinctSnoc(Reported(init).1, e.1);
      }
    }
  }

  /** The first entry is always reported. */
  lemma {:induction false} ReportedFirst(entries: seq<(string, string)>)
    requires entries != []
    ensures Reported(entries).1 != [] && Reported(entries).1[0] == entries[0].1
    decreases |entries|
  {
    var init := entries[..|entries| - 1];
    assert entries == init + [entries[|entries| - 1]];
    if init != [] {
      ReportedFirst(init);
      ReportedGrows(init, entries[|entries| - 1]);
    }
  }

  /** Every listed details text is the details of one of the entries. */
  lemma {:induction false} ReportedFromEntries(entries: seq<(string, string)>, d: string)
    requires d in Reported(entries).1
    ensures exists k :: 0 <= k < |entries| && entries[k].1 == d
    decreases |entries|
  {
    var init := entries[..|entries| - 1];
    if d in Reported(init).1 {
      ReportedFromEntries(init, d);
      var k :| 0 <= k < |init| && init[k].1 == d;
      assert entries[k] == init[k];
    }
  }

  /** When every details text is `a` or `b`, at most two are listed, and two only once both are. */
  lemma {:induction false} ListedOfTwo(entries: seq<(string, string)>, a: string, b: string)
    requires forall k :: 0 <= k < |entries| ==> entries[k].1 in {a, b}
    ensures |Reported(entries).1| <= 2
    ensures |Reported(entries).1| == 2 ==> a in Reported(entries).1 && b in Reported(entries).1
    decreases |entries|
  {
    if entries != [] {
      var init := entries[..|entries| - 1];
      assert forall k :: 0 <= k < |init| ==> init[k] == entries[k];
      ListedOfTwo(init, a, b);
      var details := Reported(init).1;
      if |details| == 1 {
        ReportedFromEntries(init, details[0]);
      }
    }
  }

  /** The rewrites section lists at most two anti-patterns, and every one is the details of a rewrite. */
  lemma AtMostTwoAntipatterns(rws: seq<Rewrite>)
    ensures |Reported(Entries(rws)).1| <= 2
    ensures forall d :: d in Reported(Entries(rws)).1 ==> exists k :: 0 <= k < |rws| && rws[k].problem.Details() == d
  {
    ListedOfTwo(Entries(rws), RandomDetails, CrossJoinDetails);
    forall d | d in Reported(Entries(rws)).1
      ensures exists k :: 0 <= k < |rws| && rws[k].problem.Details() == d
    {
      ReportedFromEntries(Entries(rws), d);
    }
  }

  /** Adds the rows of the used tables. */
  method AppendUsageRows(report0: seq<ReportLine>, tables: Counts<string>) returns (report: seq<ReportLine>)
    ensures report == report0 + MapAll(tables, UsageRowOf)
  {
    report := report0;
    for i := 0 to |tables|
      invariant report == report0 + MapAll(tables[..i], UsageRowOf)
    {
      MapAllSnoc(tables, i, UsageRowOf);
      report := report + [UsageRow(tables[i].0, tables[i].1)];
    }
    assert tables[..|tables|] == tables;
  }

  /** Adds the rows of the ranked queries, or raises at the first that lacks a field. */
  method AppendExpensiveRows(report0: seq<ReportLine>, ps: seq<Processed>) returns (r: Result<seq<ReportLine>>)
    ensures ExpensiveRows(ps).Err? ==> r == Err(ExpensiveRows(ps).error)
    ensures ExpensiveRows(ps).Ok? ==> r == Ok(report0 + ExpensiveRows(ps).value)
  {
    var report := report0;
    for i := 0 to |ps|
      invariant ExpensiveRows(ps[..i]).Ok? && report == report0 + ExpensiveRows(ps[..i]).value
    {
      assert ps[..i + 1][..i] == ps[..i];
      var row := ExpensiveRowOf(ps[i]);
      if row.Err? {
        ExpensiveRowsFail(ps, i + 1);
        return Err(row.error);
      }
      report := report + [row.value];
    }
    assert ps[..|ps|] == ps;
    r := Ok(report);
  }

  /** Adds the indexing section when there are join keys. */
  method AppendIndexSection(report0: seq<ReportLine>, keys: seq<string>) returns (report: seq<ReportLine>)
    ensures report == report0 + IndexSection(keys)
  {
    report := report0;
    if keys != [] {
      report := report + IndexHead;
      for i := 0 to |keys|
        invariant report == report0 + IndexHead + MapAll(keys[..i], IndexKeyLine)
      {
        LinesSnoc(report0 + IndexHead, keys, i, IndexKeyLine);
        report := report + [IndexKey(keys[i])];
      }
      LinesDone(report0, IndexHead, keys, IndexKeyLine);
    }
  }

  /** One more line for one more item. */
  lemma LinesSnoc<T>(head: seq<ReportLine>, xs: seq<T>, i: nat, line: T -> ReportLine)
    requires i < |xs|
    ensures head + MapAll(xs[..i], line) + [line(xs[i])] == head + MapAll(xs[..i + 1], line)
  {
    MapAllSnoc(xs, i, line);
  }

  lemma LinesDone<T>(report0: seq<ReportLine>, head: seq<ReportLine>, xs: seq<T>, line: T -> ReportLine)
    ensures report0 + head + MapAll(xs[..|xs|], line) == report0 + (head + MapAll(xs, line))
  {
    assert xs[..|xs|] == xs;
  }

  /** Adds the materialized-view section when there are suggestions. */
  method AppendMvSection(report0: seq<ReportLine>, mvs: seq<MvSuggestion>) returns (report: seq<ReportLine>)
    ensures report == report0 + MvSection(mvs)
  {
    report := report0;
    if mvs != [] {
      report := report + MvHead;
      for i := 0 to |mvs|
        invariant report == report0 + MvHead + CandidateLines(mvs[..i])
      {
        CandidateLinesSnoc(report0 + MvHead, mvs, i);
        report := report + [CandidateTables(mvs[i].tables), CandidateReason(mvs[i].Reason())];
      }
      MvSectionSplit(report0, mvs);
    }
  }

  lemma CandidateLinesSnoc(head: seq<ReportLine>, mvs: seq<MvSuggestion>, i: nat)
    requires i < |mvs|
    ensures head + CandidateLines(mvs[..i]) + [CandidateTables(mvs[i].tables), CandidateReason(mvs[i].Reason())]
      == head + CandidateLines(mvs[..i + 1])
  {
    assert mvs[..i + 1][..i] == mvs[..i];
  }

  lemma MvSectionSplit(report0: seq<ReportLine>, mvs: seq<MvSuggestion>)
    requires mvs != []
    ensures report0 + MvHead + CandidateLines(mvs[..|mvs|]) == report0 + MvSection(mvs)
  {
    assert mvs[..|mvs|] == mvs;
  }

  /** Adds the rewrites section when there are rewrites, each query and each anti-pattern once. */
  method AppendRewritesSection(report0: seq<ReportLine>, rws: seq<Rewrite>) returns (report: seq<ReportLine>)
    ensures report == report0 + RewritesSection(rws)
  {
    report := report0;
    if rws != [] {
      var lines := MapAll(Reported(Entries(rws)).1, AntipatternLine);
      report := AppendAntipatterns(report0 + RewritesHead, Entries(rws));
      assert report == report0 + (RewritesHead + lines);
    }
  }

  /**
   * The loop of the rewrites section over (query id, recommendation) pairs: one line per
   * recommendation not seen before, skipping queries already reported.
   */
  method AppendAntipatterns(head: seq<ReportLine>, entries: seq<(string, string)>) returns (report: seq<ReportLine>)
    ensures report == head + MapAll(Reported(entries).1, AntipatternLine)
  {
    report := head;
    var reportedQueryIds: set<string> := {};
    var antipatterns: seq<string> := [];
    for i := 0 to |entries|
      invariant (reportedQueryIds, antipatterns) == Reported(entries[..i])
      invariant report == head + MapAll(antipatterns, AntipatternLine)
    {
      var (qid, rec) := entries[i];
      assert entries[..i + 1] == entries[..i] + [(qid, rec)];
      ReportedSnoc(entries[..i], (qid, rec));
      if qid in reportedQueryIds {
        continue;
      }
      if rec in antipatterns {
        continue;
      }
      LinesSnoc(head, antipatterns + [rec], |antipatterns|, AntipatternLine);
      assert (antipatterns + [rec])[..|antipatterns|] == antipatterns;
      antipatterns := antipatterns + [rec];
      reportedQueryIds := reportedQueryIds + {qid};
      report := report + [Antipattern(rec)];
    }
    assert entries[..|entries|] == entries;
  }

  /** `generate_report` */
  method GenerateReport(a: Analysis) returns (r: Result<seq<ReportLine>>)
    ensures r == ReportOf(a)
  {
    var report := TablesLines;
    report := AppendUsageRows(report, a.mostUsedTables);
    report := report + ExpensiveLines;
    var withRows := AppendExpensiveRows(report, a.mostExpensive);
    if withRows.Err? {
      return Err(withRows.error);
    }
    report := withRows.value + [Line(RecommendationsHeading)];
    report := AppendIndexSection(report, a.joinKeys);
    report := AppendMvSection(report, a.mvSuggestions);
    report := AppendRewritesSection(report, a.rewrites);
    r := Ok(report);
  }

  /** `fallback_analysis` */
  method FallbackAnalysis(qs: seq<WorkloadQuery>) returns (r: Result<seq<ReportLine>>)
    ensures r == FallbackReport(qs)
  {
    var analysis := AnalyzeQueries(qs);
    if analysis.Err? {
      return Err(analysis.error);
    }
    r := GenerateReport(analysis.value);
  }

  /** Without queries the report has its fixed headings and nothing else. */
  lemma EmptyReport()
    ensures FallbackReport([]) == Ok(TablesLines + ExpensiveLines + [Line(RecommendationsHeading)])
  {
    var a := EmptyAnalysis;
    assert AnalysisOf([]) == Ok(a);
    assert MapAll(a.mostUsedTables, UsageRowOf) == [];
    assert ExpensiveRows(a.mostExpensive) == Ok([]);
    assert IndexSection(a.joinKeys) == [] && MvSection(a.mvSuggestions) == [] && RewritesSection(a.rewrites) == [];
    assert TablesLines + [] + ExpensiveLines + [] + [Line(RecommendationsHeading)] + [] + [] + []
      == TablesLines + ExpensiveLines + [Line(RecommendationsHeading)];
  }
}
