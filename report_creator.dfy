/**
 * The optimization report synthesizer: from the query patterns, the workload
 * statistics and the parsed tables it picks out the performance bottlenecks, the
 * materialized-view candidates, the key query patterns, a schema digest and a fixed
 * list of recommendations, and assembles them with an executive summary.
 */
module ReportCreator {
  import opened Wrappers
  import opened Text
  import opened Counters
  import opened Lists
  import opened Sorting
  import opened DdlParser
  import opened QueryAnalyzer

  /**
   * The part of the analysis data the report reads: the query patterns, the workload
   * statistics (absent when the analysis recorded none) and the parsed tables.
   */
  datatype AnalysisData = AnalysisData(patterns: seq<QueryPattern>, statistics: Option<QueryStatistics>, tables: seq<Table>)

  // ---------------------------------------------------------------- bottlenecks

  datatype SlowDetail = SlowDetail(queryId: string, executionTime: real, runQuantity: int, impactScore: real)

  datatype VolumeDetail = VolumeDetail(queryId: string, runQuantity: int, executionTime: real, totalTime: real)

  datatype Severity = High | Medium

  /** One bottleneck entry: slow queries (severity high) or high-volume queries (severity medium). */
  datatype Bottleneck =
    | SlowQueries(count: nat, slowDetails: seq<SlowDetail>)
    | HighVolumeQueries(count: nat, totalExecutions: int, volumeDetails: seq<VolumeDetail>)
  {
    function Severity(): Severity
    {
      match this
      case SlowQueries(_, _) => High
      case HighVolumeQueries(_, _, _) => Medium
    }
  }

  /** A query that takes more than 30 seconds. */
  predicate IsSlow(p: QueryPattern) { p.executionTime > 30.0 }

  /** A query run more than 1000 times. */
  predicate IsHighVolume(p: QueryPattern) { p.runQuantity > 1000 }

  /** `execution_time * run_quantity` */
  function Impact(p: QueryPattern): real { p.executionTime * (p.runQuantity as real) }

  function RunsKey(p: QueryPattern): real { p.runQuantity as real }

  function Runs(p: QueryPattern): int { p.runQuantity }

  function SlowDetailOf(p: QueryPattern): SlowDetail
  {
    SlowDetail(p.queryId, p.executionTime, p.runQuantity, Impact(p))
  }

  function VolumeDetailOf(p: QueryPattern): VolumeDetail
  {
    VolumeDetail(p.queryId, p.runQuantity, p.executionTime, Impact(p))
  }

  /** `slow_queries`: the queries that take more than 30 seconds, in input order. */
  function SlowIn(ps: seq<QueryPattern>): seq<QueryPattern> { Kept(ps, IsSlow, Same) }

  /** `high_volume_queries`: the queries run more than 1000 times, in input order. */
  function HighVolumeIn(ps: seq<QueryPattern>): seq<QueryPattern> { Kept(ps, IsHighVolume, Same) }

  /** The slow-query entry: all slow queries, most impactful first. */
  function SlowEntry(slow: seq<QueryPattern>): Bottleneck
  {
    SlowQueries(|slow|, MapAll(SortDesc(slow, Impact), SlowDetailOf))
  }

  /** The high-volume entry: all of them counted and summed, the five most run detailed. */
  function VolumeEntry(highVolume: seq<QueryPattern>): Bottleneck
  {
    HighVolumeQueries(|highVolume|, SumOf(highVolume, Runs),
      Take(MapAll(SortDesc(highVolume, RunsKey), VolumeDetailOf), 5))
  }

  /** What `_identify_bottlenecks` reports. */
  function BottlenecksOf(ps: seq<QueryPattern>): seq<Bottleneck>
  {
    var slow := SlowIn(ps);
    var highVolume := HighVolumeIn(ps);
    (if slow != [] then [SlowEntry(slow)] else [])
    + (if highVolume != [] then [VolumeEntry(highVolume)] else [])
  }

  /** `_identify_bottlenecks`: one entry per non-empty bucket, slow queries first. */
  method IdentifyBottlenecks(ps: seq<QueryPattern>) returns (bottlenecks: seq<Bottleneck>)
    ensures bottlenecks == BottlenecksOf(ps)
    ensures |bottlenecks| <= 2
  {
    bottlenecks := [];
    var slow := SlowIn(ps);
    if slow != [] {
      bottlenecks := bottlenecks + [SlowEntry(slow)];
    }
    ghost var first := bottlenecks;
    assert first == if slow != [] then [SlowEntry(slow)] else [];
    var highVolume := HighVolumeIn(ps);
    if highVolume != [] {
      bottlenecks := bottlenecks + [VolumeEntry(highVolume)];
    }
  }

  /** A slow-query entry comes first exactly when there are slow queries. */
  lemma SlowShape(ps: seq<QueryPattern>)
    ensures var bs := BottlenecksOf(ps); (bs != [] && bs[0].SlowQueries?) <==> SlowIn(ps) != []
  {
    var slow := SlowIn(ps);
    var highVolume := HighVolumeIn(ps);
    if slow != [] {
      assert BottlenecksOf(ps)[0] == SlowEntry(slow);
    } else {
      assert BottlenecksOf(ps) == if highVolume != [] then [VolumeEntry(highVolume)] else [];
    }
  }

  /** A high-volume entry comes last exactly when some query is run more than 1000 times. */
  lemma VolumeShape(ps: seq<QueryPattern>)
    ensures var bs := BottlenecksOf(ps); (bs != [] && bs[|bs| - 1].HighVolumeQueries?) <==> HighVolumeIn(ps) != []
  {
    var slow := SlowIn(ps);
    var highVolume := HighVolumeIn(ps);
    var bs := BottlenecksOf(ps);
    if highVolume != [] {
      assert bs[|bs| - 1] == VolumeEntry(highVolume);
    } else {
      assert bs == if slow != [] then [SlowEntry(slow)] else [];
    }
  }

  /** The report leads with a slow-query entry exactly when some query takes more than 30 seconds. */
  lemma SlowEntryLeads(ps: seq<QueryPattern>)
    ensures var bs := BottlenecksOf(ps);
      (bs != [] && bs[0].SlowQueries?) <==> exists i :: 0 <= i < |ps| && IsSlow(ps[i])
  {
    SlowShape(ps);
    KeptNonEmpty(ps, IsSlow, Same);
  }

  /** The report ends with a high-volume entry exactly when some query runs more than 1000 times. */
  lemma VolumeEntryEnds(ps: seq<QueryPattern>)
    ensures var bs := BottlenecksOf(ps);
      (bs != [] && bs[|bs| - 1].HighVolumeQueries?) <==> exists i :: 0 <= i < |ps| && IsHighVolume(ps[i])
  {
    VolumeShape(ps);
    KeptNonEmpty(ps, IsHighVolume, Same);
  }

  /** The slow-query details list every slow query, as many as `count` says. */
  lemma SlowQueriesListed(ps: seq<QueryPattern>, i: nat)
    requires i < |ps| && IsSlow(ps[i])
    ensures var e := SlowEntry(SlowIn(ps)); |e.slowDetails| == e.count && SlowDetailOf(ps[i]) in e.slowDetails
  {
    var slow := SlowIn(ps);
    var order := SortDesc(slow, Impact);
    var details := MapAll(order, SlowDetailOf);
    KeptAt(ps, IsSlow, Same, i);
    assert ps[i] in multiset(slow);
    var k :| 0 <= k < |order| && order[k] == ps[i];
    assert details[k] == SlowDetailOf(ps[i]);
  }

  /** The slow-query details hold only slow queries, most impactful first. */
  lemma SlowDetailsOrdered(ps: seq<QueryPattern>)
    ensures var d := SlowEntry(SlowIn(ps)).slowDetails;
      && (forall k :: 0 <= k < |d| ==> d[k].executionTime > 30.0)
      && (forall k, l :: 0 <= k < l < |d| ==> d[k].impactScore >= d[l].impactScore)
  {
    var slow := SlowIn(ps);
    var order := SortDesc(slow, Impact);
    var details := MapAll(order, SlowDetailOf);
    KeptSamePass(ps, IsSlow);
    forall k | 0 <= k < |details| ensures details[k].executionTime > 30.0 {
      assert order[k] in multiset(order);
      var m :| 0 <= m < |slow| && slow[m] == order[k];
    }
    forall k, l | 0 <= k < l < |details| ensures details[k].impactScore >= details[l].impactScore {
      assert Impact(order[k]) >= Impact(order[l]);
    }
  }

  /**
   * The high-volume entry details at most five queries, all of them if there are
   * fewer, only queries run more than 1000 times and the most run first.
   */
  lemma VolumeDetailsOrdered(ps: seq<QueryPattern>)
    ensures var e := VolumeEntry(HighVolumeIn(ps));
      && |e.volumeDetails| == (if e.count < 5 then e.count else 5)
      && (forall k :: 0 <= k < |e.volumeDetails| ==> e.volumeDetails[k].runQuantity > 1000)
      && (forall k, l :: 0 <= k < l < |e.volumeDetails| ==> e.volumeDetails[k].runQuantity >= e.volumeDetails[l].runQuantity)
  {
    var hv := HighVolumeIn(ps);
    var all := MapAll(SortDesc(hv, RunsKey), VolumeDetailOf);
    assert |all| == |hv|;
    assert VolumeEntry(hv).volumeDetails == Take(all, 5);
    VolumeDetailsHigh(ps);
    VolumeDetailsSorted(ps);
  }

  lemma VolumeDetailsHigh(ps: seq<QueryPattern>)
    ensures var d := VolumeEntry(HighVolumeIn(ps)).volumeDetails;
      forall k :: 0 <= k < |d| ==> d[k].runQuantity > 1000
  {
    var hv := HighVolumeIn(ps);
    var order := SortDesc(hv, RunsKey);
    var all := MapAll(order, VolumeDetailOf);
    var details := Take(all, 5);
    KeptSamePass(ps, IsHighVolume);
    forall k | 0 <= k < |details| ensures details[k].runQuantity > 1000 {
      assert details[k] == all[k];
      assert order[k] in multiset(order);
      var m :| 0 <= m < |hv| && hv[m] == order[k];
    }
  }

  lemma VolumeDetailsSorted(ps: seq<QueryPattern>)
    ensures var d := VolumeEntry(HighVolumeIn(ps)).volumeDetails;
      forall k, l :: 0 <= k < l < |d| ==> d[k].runQuantity >= d[l].runQuantity
  {
    var order := SortDesc(HighVolumeIn(ps), RunsKey);
    var all := MapAll(order, VolumeDetailOf);
    var details := Take(all, 5);
    forall k, l | 0 <= k < l < |details| ensures details[k].runQuantity >= details[l].runQuantity {
      assert details[k] == all[k] && details[l] == all[l];
      assert RunsKey(order[k]) >= RunsKey(order[l]);
    }
  }

  /** Every counted query runs more than 1000 times, so the total is more than 1000 per query. */
  lemma VolumeTotalBounded(ps: seq<QueryPattern>)
    ensures VolumeEntry(HighVolumeIn(ps)).totalExecutions >= 1001 * VolumeEntry(HighVolumeIn(ps)).count
  {
    KeptSamePass(ps, IsHighVolume);
    SumOfAtLeast(HighVolumeIn(ps), Runs, 1001);
  }

  // ---------------------------------------------------------------- materialized-view candidates

  /** `tuple(sorted(pattern['aggregations']))` */
  function AggKey(p: QueryPattern): seq<string> { SortStrings(p.aggregations) }

  /** A query run often enough to be worth pre-aggregating. */
  predicate IsFrequentRun(p: QueryPattern) { p.runQuantity > 500 }

  /** The `aggregation_groups` dict: keys in insertion order and the members of each key, in input order. */
  datatype Groups = Groups(keys: seq<seq<string>>, members: map<seq<string>, seq<QueryPattern>>)

  /** Adds pattern `p` to the group of its aggregation key, opening the group if it is new. */
  function AddToGroups(g: Groups, p: QueryPattern): Groups
  {
    var k := AggKey(p);
    if k in g.members then Groups(g.keys, g.members[k := g.members[k] + [p]])
    else Groups(g.keys + [k], g.members[k := [p]])
  }

  /** The groups of the frequently run patterns, as the first loop of `_identify_mv_candidates` leaves them. */
  function GroupsOf(ps: seq<QueryPattern>): Groups
  {
    if ps == [] then Groups([], map[])
    else
      var g := GroupsOf(ps[..|ps| - 1]);
      var p := ps[|ps| - 1];
      if IsFrequentRun(p) then AddToGroups(g, p) else g
  }

  /** Every key is listed once, and the listed keys are those of the map. */
  ghost predicate KeysListed(g: Groups)
  {
    Distinct(g.keys) && g.members.Keys == set k | k in g.keys
  }

  /** Each group holds only frequently run patterns with its key. */
  ghost predicate MembersFit(g: Groups)
  {
    forall k, j :: k in g.members && 0 <= j < |g.members[k]| ==>
      IsFrequentRun(g.members[k][j]) && AggKey(g.members[k][j]) == k
  }

  lemma {:induction false} GroupsWellGrouped(ps: seq<QueryPattern>)
    ensures KeysListed(GroupsOf(ps)) && MembersFit(GroupsOf(ps))
    ensures forall k :: k in GroupsOf(ps).members ==> GroupsOf(ps).members[k] != []
    decreases |ps|
  {
    if ps != [] {
      var g := GroupsOf(ps[..|ps| - 1]);
      GroupsWellGrouped(ps[..|ps| - 1]);
      var p := ps[|ps| - 1];
      if IsFrequentRun(p) {
        AddKeepsKeys(g, p);
        AddKeepsMembers(g, p);
      }
    }
  }

  lemma AddKeepsKeys(g: Groups, p: QueryPattern)
    requires KeysListed(g)
    ensures KeysListed(AddToGroups(g, p))
  {
    if AggKey(p) !in g.members {
      DistinctSnoc(g.keys, AggKey(p));
    }
  }

  lemma AddKeepsMembers(g: Groups, p: QueryPattern)
    requires MembersFit(g) && IsFrequentRun(p)
    ensures MembersFit(AddToGroups(g, p))
    ensures (forall k :: k in g.members ==> g.members[k] != []) ==>
      forall k :: k in AddToGroups(g, p).members ==> AddToGroups(g, p).members[k] != []
  {
    var k := AggKey(p);
    var r := AddToGroups(g, p);
    forall k', j | k' in r.members && 0 <= j < |r.members[k']|
      ensures IsFrequentRun(r.members[k'][j]) && AggKey(r.members[k'][j]) == k'
    {
      if k' == k && k in g.members && j < |g.members[k]| {
        assert r.members[k'][j] == g.members[k][j];
      }
    }
  }

  /** Every frequently run pattern lands in the group of its aggregation key. */
  lemma {:induction false} FrequentPatternGrouped(ps: seq<QueryPattern>, i: nat)
    requires i < |ps| && IsFrequentRun(ps[i])
    ensures AggKey(ps[i]) in GroupsOf(ps).members && ps[i] in GroupsOf(ps).members[AggKey(ps[i])]
    decreases |ps|
  {
    var init := ps[..|ps| - 1];
    var p := ps[|ps| - 1];
    var g := GroupsOf(init);
    if i < |ps| - 1 {
      assert init[i] == ps[i];
      FrequentPatternGrouped(init, i);
      if IsFrequentRun(p) {
        var k := AggKey(p);
        if k == AggKey(ps[i]) {
          assert ps[i] in g.members[k] + [p];
        }
      }
    } else {
      var k := AggKey(p);
      if k in g.members {
        assert p in g.members[k] + [p];
      }
    }
  }

  datatype MvCandidate = MvCandidate(
    aggregations: seq<string>,
    queryCount: nat,
    totalExecutions: int,
    avgExecutionTime: real,
    potentialSavings: Savings)

  /** `potential_savings`: "high" above 5000 executions, else "medium". */
  datatype Savings = HighSavings | MediumSavings

  /** A group with its key. */
  datatype Group = Group(key: seq<string>, patterns: seq<QueryPattern>)

  /** `aggregation_groups.items()`, in insertion order. */
  function GroupList(g: Groups): (r: seq<Group>)
    requires forall j :: 0 <= j < |g.keys| ==> g.keys[j] in g.members
    ensures |r| == |g.keys|
    ensures forall j :: 0 <= j < |r| ==> r[j] == Group(g.keys[j], g.members[g.keys[j]])
  {
    seq(|g.keys|, j requires 0 <= j < |g.keys| => Group(g.keys[j], g.members[g.keys[j]]))
  }

  /** At least two queries share the aggregations. */
  predicate IsRepeated(gr: Group) { |gr.patterns| >= 2 }

  /** The candidate entry of a repeated group; only groups of two or more reach it, so the mean is well defined. */
  function CandidateOf(gr: Group): MvCandidate
  {
    var total := SumOf(gr.patterns, Runs);
    MvCandidate(gr.key, |gr.patterns|, total,
      if |gr.patterns| == 0 then 0.0 else SumExecutionTime(gr.patterns) / (|gr.patterns| as real),
      if total > 5000 then HighSavings else MediumSavings)
  }

  function TotalKey(c: MvCandidate): real { c.totalExecutions as real }

  /** The candidates of the repeated groups, in group order, before the final sort. */
  function CandidatesOf(ps: seq<QueryPattern>): seq<MvCandidate>
  {
    GroupsWellGrouped(ps);
    Kept(GroupList(GroupsOf(ps)), IsRepeated, CandidateOf)
  }

  /** What `_identify_mv_candidates` returns: the three candidates with the most executions. */
  function MvCandidatesOf(ps: seq<QueryPattern>): seq<MvCandidate>
  {
    Take(SortDesc(CandidatesOf(ps), TotalKey), 3)
  }

  /** `aggregation_groups[key].append(pattern)`, opening the group first when the key is new. */
  method AddPattern(g0: Groups, p: QueryPattern) returns (g: Groups)
    ensures g == AddToGroups(g0, p)
  {
    var key := SortStrings(p.aggregations);
    g := g0;
    if key !in g.members {
      g := Groups(g.keys + [key], g.members[key := []]);
      assert g.members[key] + [p] == [p];
      assert g.members[key := [p]] == g0.members[key := [p]];
    }
    g := Groups(g.keys, g.members[key := g.members[key] + [p]]);
  }

  lemma GroupsOfSnoc(ps: seq<QueryPattern>, i: nat)
    requires i < |ps|
    ensures GroupsOf(ps[..i + 1]) == if IsFrequentRun(ps[i]) then AddToGroups(GroupsOf(ps[..i]), ps[i]) else GroupsOf(ps[..i])
  {
    var prefix := ps[..i + 1];
    assert prefix[..|prefix| - 1] == ps[..i] && prefix[|prefix| - 1] == ps[i];
  }

  /** The grouping loop of `_identify_mv_candidates`: the frequently run queries by aggregation key. */
  method GroupFrequent(ps: seq<QueryPattern>) returns (g: Groups)
    ensures g == GroupsOf(ps)
  {
    g := Groups([], map[]);
    for i := 0 to |ps|
      invariant g == GroupsOf(ps[..i])
    {
      GroupsOfSnoc(ps, i);
      if ps[i].runQuantity > 500 {
        g := AddPattern(g, ps[i]);
      }
    }
    assert ps[..|ps|] == ps;
  }

  /** The candidate loop of `_identify_mv_candidates`: one candidate per group of two or more, in group order. */
  method RepeatedGroups(g: Groups) returns (found: seq<MvCandidate>)
    requires forall j :: 0 <= j < |g.keys| ==> g.keys[j] in g.members
    ensures found == Kept(GroupList(g), IsRepeated, CandidateOf)
  {
    var groups := GroupList(g);
    found := [];
    for j := 0 to |g.keys|
      invariant found == Kept(groups[..j], IsRepeated, CandidateOf)
    {
      KeptSnoc(groups, j, IsRepeated, CandidateOf);
      var key := g.keys[j];
      var members := g.members[key];
      if |members| >= 2 {
        var total := SumOf(members, Runs);
        found := found + [MvCandidate(key, |members|, total,
          SumExecutionTime(members) / (|members| as real), if total > 5000 then HighSavings else MediumSavings)];
      }
    }
    assert groups[..|groups|] == groups;
  }

  /** `_identify_mv_candidates` */
  method IdentifyMvCandidates(ps: seq<QueryPattern>) returns (candidates: seq<MvCandidate>)
    ensures candidates == MvCandidatesOf(ps)
  {
    var g := GroupFrequent(ps);
    GroupsWellGrouped(ps);
    var found := RepeatedGroups(g);
    candidates := Take(SortDesc(found, TotalKey), 3);
  }

  /**
   * Every candidate stands for at least two frequently run queries with the same
   * aggregations, so for more than 1000 executions; savings are high exactly above
   * 5000; at most three are returned, the most executed first.
   */
  lemma MvCandidatesFacts(ps: seq<QueryPattern>)
    ensures |MvCandidatesOf(ps)| <= 3
    ensures forall k :: 0 <= k < |MvCandidatesOf(ps)| ==>
      && MvCandidatesOf(ps)[k].queryCount >= 2
      && MvCandidatesOf(ps)[k].totalExecutions >= 501 * MvCandidatesOf(ps)[k].queryCount
      && (MvCandidatesOf(ps)[k].potentialSavings == HighSavings <==> MvCandidatesOf(ps)[k].totalExecutions > 5000)
    ensures forall k, l :: 0 <= k < l < |MvCandidatesOf(ps)| ==>
      MvCandidatesOf(ps)[k].totalExecutions >= MvCandidatesOf(ps)[l].totalExecutions
  {
    var all := CandidatesOf(ps);
    var sorted := SortDesc(all, TotalKey);
    var r := MvCandidatesOf(ps);
    forall k | 0 <= k < |r|
      ensures r[k].queryCount >= 2 && r[k].totalExecutions >= 501 * r[k].queryCount
      ensures r[k].potentialSavings == HighSavings <==> r[k].totalExecutions > 5000
    {
      assert r[k] == sorted[k];
      assert sorted[k] in multiset(all);
      var m :| 0 <= m < |all| && all[m] == sorted[k];
      CandidateFacts(ps, m);
    }
    forall k, l | 0 <= k < l < |r| ensures r[k].totalExecutions >= r[l].totalExecutions {
      assert r[k] == sorted[k] && r[l] == sorted[l];
      assert TotalKey(sorted[k]) >= TotalKey(sorted[l]);
    }
  }

  lemma CandidateFacts(ps: seq<QueryPattern>, m: nat)
    requires m < |CandidatesOf(ps)|
    ensures CandidatesOf(ps)[m].queryCount >= 2
    ensures CandidatesOf(ps)[m].totalExecutions >= 501 * CandidatesOf(ps)[m].queryCount
    ensures CandidatesOf(ps)[m].potentialSavings == HighSavings <==> CandidatesOf(ps)[m].totalExecutions > 5000
  {
    GroupsWellGrouped(ps);
    var g := GroupsOf(ps);
    var groups := GroupList(g);
    KeptFrom(groups, IsRepeated, CandidateOf, m);
    var j :| 0 <= j < |groups| && IsRepeated(groups[j]) && CandidatesOf(ps)[m] == CandidateOf(groups[j]);
    var members := groups[j].patterns;
    assert members == g.members[g.keys[j]];
    forall n | 0 <= n < |members| ensures Runs(members[n]) >= 501 {
      assert IsFrequentRun(members[n]);
    }
    SumOfAtLeast(members, Runs, 501);
  }

  // ---------------------------------------------------------------- key patterns

  /** What a pattern adds to `aggregation_patterns`: its runs for every aggregation it lists. */
  function AggregationRuns(p: QueryPattern): seq<(string, int)>
  {
    Weighted(p.aggregations, p.runQuantity)
  }

  datatype KeyPatterns = KeyPatterns(
    totalQueryVolume: int,
    avgExecutionTime: real,
    cteUsagePercent: real,
    joinFrequency: Counts<string>,
    topAggregations: Counts<string>,
    materializedViewCandidates: seq<MvCandidate>)

  /** The CTE share of the patterns as a percentage rounded to a tenth; 0 without patterns. */
  function CtePercent(stats: Option<QueryStatistics>, count: nat): real
  {
    if count == 0 then 0.0
    else RoundTenth(((match stats case Some(s) => s.cteUsage case None => 0) as real) / (count as real) * 100.0)
  }

  /** What `_extract_key_patterns` reports. */
  function KeyPatternsOf(data: AnalysisData): KeyPatterns
  {
    var ps := data.patterns;
    KeyPatterns(
      SumOf(ps, Runs),
      match data.statistics case Some(s) => s.avgExecutionTime case None => 0.0,
      CtePercent(data.statistics, |ps|),
      match data.statistics case Some(s) => s.joinPatterns case None => [],
      Take(SortDesc(CountAll(FlatEvents(ps, AggregationRuns)), EntryWeight), 5),
      MvCandidatesOf(ps))
  }

  /** `_extract_key_patterns`: one pass summing the runs of each aggregation. */
  method ExtractKeyPatterns(data: AnalysisData) returns (kp: KeyPatterns)
    ensures kp == KeyPatternsOf(data)
  {
    var ps := data.patterns;
    var aggregations: Counts<string> := [];
    var volume := 0;
    for i := 0 to |ps|
      invariant aggregations == CountAll(FlatEvents(ps[..i], AggregationRuns))
      invariant volume == SumOf(ps[..i], Runs)
    {
      SumOfSnoc(ps, i, Runs);
      aggregations := BumpFor(aggregations, ps, i, AggregationRuns, ps[i].aggregations, ps[i].runQuantity);
      volume := volume + ps[i].runQuantity;
    }
    assert ps[..|ps|] == ps;
    var mv := IdentifyMvCandidates(ps);
    kp := KeyPatterns(volume,
      match data.statistics case Some(s) => s.avgExecutionTime case None => 0.0,
      CtePercent(data.statistics, |ps|),
      match data.statistics case Some(s) => s.joinPatterns case None => [],
      Take(SortDesc(aggregations, EntryWeight), 5),
      mv);
  }

  /**
   * At most five aggregations are reported, the most used first; each counts the runs
   * of the patterns that list it, once per listing.
   */
  lemma TopAggregationsFacts(data: AnalysisData)
    ensures |KeyPatternsOf(data).topAggregations| <= 5
    ensures forall k, l :: 0 <= k < l < |KeyPatternsOf(data).topAggregations| ==>
      KeyPatternsOf(data).topAggregations[k].1 >= KeyPatternsOf(data).topAggregations[l].1
    ensures forall a :: Get(CountAll(FlatEvents(data.patterns, AggregationRuns)), a) == SumOf(data.patterns, AggregationWeight(a))
  {
    var ps := data.patterns;
    var top := KeyPatternsOf(data).topAggregations;
    var sorted := SortDesc(CountAll(FlatEvents(ps, AggregationRuns)), EntryWeight);
    forall k, l | 0 <= k < l < |top| ensures top[k].1 >= top[l].1 {
      assert top[k] == sorted[k] && top[l] == sorted[l];
      assert EntryWeight(sorted[k]) >= EntryWeight(sorted[l]);
    }
    CountAllSound(FlatEvents(ps, AggregationRuns));
    forall a ensures WeightOf(FlatEvents(ps, AggregationRuns), a) == SumOf(ps, AggregationWeight(a)) {
      forall i | 0 <= i < |ps| ensures WeightOf(AggregationRuns(ps[i]), a) == AggregationWeight(a)(ps[i]) {
        WeightedCount(ps[i].aggregations, ps[i].runQuantity, a);
      }
      FlatEventsWeight(ps, AggregationRuns, a, AggregationWeight(a));
    }
  }

  /** The runs a pattern gives aggregation `a`: once per listing. */
  function AggregationWeight(a: string): QueryPattern -> int
  {
    (p: QueryPattern) => p.runQuantity * Occurrences(p.aggregations, a)
  }

  /** With the CTE count of the same patterns, the share is a percentage. */
  lemma CtePercentBounded(stats: Option<QueryStatistics>, count: nat)
    requires stats.Some? ==> stats.value.cteUsage <= count
    ensures 0.0 <= CtePercent(stats, count) <= 100.0
  {
    if count > 0 {
      var c := match stats case Some(s) => s.cteUsage case None => 0;
      var share := (c as real) / (count as real);
      assert 0.0 <= share <= 1.0;
      var x := share * 100.0;
      assert 0.0 <= x <= 100.0;
      assert CtePercent(stats, count) == RoundTenth(x);
    }
  }

  // ---------------------------------------------------------------- schema digest

  const TimeWords: seq<string> := ["date", "time", "year", "month", "quarter", "day"]
  const LocationWords: seq<string> := ["origin", "dest", "airport", "city", "state"]
  const AirlineWords: seq<string> := ["airline", "flight", "tail"]
  const DelayWords: seq<string> := ["delay", "cancel", "divert"]

  datatype SchemaInsights = SchemaInsights(
    totalColumns: nat,
    partitioningCandidates: seq<string>,
    location: seq<string>,
    airline: seq<string>,
    performance: seq<string>)  // denormalization potential is always "low"

  /** A column whose lower-cased name contains one of `words`. */
  function NamedLike(words: seq<string>): Column -> bool
  {
    (c: Column) => MentionsAny(Lower(c.name), words)
  }

  function ColumnName(c: Column): string { c.name }

  /** The names of the first `n` columns whose names contain one of `words`. */
  function FirstNamed(columns: seq<Column>, words: seq<string>, n: nat): (r: seq<string>)
    ensures |r| <= n
    ensures r <= Kept(columns, NamedLike(words), ColumnName)
    ensures |r| < n ==> r == Kept(columns, NamedLike(words), ColumnName)
  {
    Take(Kept(columns, NamedLike(words), ColumnName), n)
  }

  /** Each name `FirstNamed` reports belongs to a column whose name contains one of the words. */
  lemma FirstNamedMatch(columns: seq<Column>, words: seq<string>, n: nat, k: nat)
    requires k < |FirstNamed(columns, words, n)|
    ensures exists j :: (0 <= j < |columns| && FirstNamed(columns, words, n)[k] == columns[j].name
      && MentionsAny(Lower(columns[j].name), words))
  {
    KeptFrom(columns, NamedLike(words), ColumnName, k);
  }

  /** `_analyze_schema_structure`: nothing without tables, else a digest of the first table's columns. */
  function SchemaInsightsOf(tables: seq<Table>): (r: Option<SchemaInsights>)
    ensures r.None? <==> tables == []
    ensures r.Some? ==> r.value.totalColumns == |tables[0].columns|
    ensures r.Some? ==> |r.value.location| <= 3 && |r.value.airline| <= 2 && |r.value.performance| <= 3
  {
    if tables == [] then None
    else
      var columns := tables[0].columns;
      Some(SchemaInsights(|columns|,
        Kept(columns, NamedLike(TimeWords), ColumnName),
        FirstNamed(columns, LocationWords, 3),
        FirstNamed(columns, AirlineWords, 2),
        FirstNamed(columns, DelayWords, 3)))
  }

  /** Every column of the first table whose name has a time word is proposed for partitioning, in column order. */
  lemma TimeColumnsProposed(tables: seq<Table>, j: nat)
    requires tables != [] && j < |tables[0].columns| && NamedLike(TimeWords)(tables[0].columns[j])
    ensures tables[0].columns[j].name in SchemaInsightsOf(tables).value.partitioningCandidates
  {
    KeptAt(tables[0].columns, NamedLike(TimeWords), ColumnName, j);
  }

  // ---------------------------------------------------------------- recommendations

  datatype Priority = HighPriority | MediumPriority

  datatype Effort = LowEffort | MediumEffort

  /** A recommendation of `_generate_recommendations`; the text of each kind is fixed. */
  datatype Recommendation =
    | DateBasedPartitioning
    | MaterializedViews(count: nat)
    | CompositeIndexes
    | StorageFormat
  {
    function Type(): string
    {
      match this
      case DateBasedPartitioning => "partitioning"
      case MaterializedViews(_) => "materialized_views"
      case CompositeIndexes => "indexing"
      case StorageFormat => "compression"
    }

    function Priority(): Priority
    {
      if this.DateBasedPartitioning? || this.MaterializedViews? then HighPriority else MediumPriority
    }

    function Description(): string
    {
      match this
      case DateBasedPartitioning => "Implement date-based partitioning"
      case MaterializedViews(n) => "Create " + NatToString(n) + " materialized views for common aggregations"
      case CompositeIndexes => "Create composite indexes on frequently filtered columns"
      case StorageFormat => "Optimize storage format and compression"
    }

    function Implementation(): string
    {
      match this
      case DateBasedPartitioning => "Partition by year/month columns for better query pruning"
      case MaterializedViews(_) => "Pre-aggregate frequently used COUNT, SUM, AVG operations"
      case CompositeIndexes => "Index on origin+dest+flightdate, airline+flightdate combinations"
      case StorageFormat => "Use columnar storage with better compression for analytical workload"
    }

    function ExpectedImprovement(): string
    {
      match this
      case DateBasedPartitioning => "Query performance improvement 30-70%"
      case MaterializedViews(_) => "Query performance improvement 50-90%"
      case CompositeIndexes => "Query performance improvement 20-50%"
      case StorageFormat => "Storage reduction 40-60%, I/O improvement 20-40%"
    }

    function Effort(): Effort
    {
      if this.MaterializedViews? || this.CompositeIndexes? then LowEffort else MediumEffort
    }
  }

  /** What `_generate_recommendations` returns. */
  function RecommendationsOf(ps: seq<QueryPattern>): seq<Recommendation>
  {
    var mv := MvCandidatesOf(ps);
    [DateBasedPartitioning] + (if mv != [] then [MaterializedViews(|mv|)] else []) + [CompositeIndexes, StorageFormat]
  }

  /** `_generate_recommendations`: partitioning, then views when there are candidates, indexing and compression. */
  method GenerateRecommendations(ps: seq<QueryPattern>) returns (recommendations: seq<Recommendation>)
    ensures recommendations == RecommendationsOf(ps)
  {
    recommendations := [DateBasedPartitioning];
    var mv := IdentifyMvCandidates(ps);
    if mv != [] {
      recommendations := recommendations + [MaterializedViews(|mv|)];
    }
    recommendations := recommendations + [CompositeIndexes];
    recommendations := recommendations + [StorageFormat];
  }

  /**
   * Partitioning, indexing and compression are always recommended, in that order; the
   * materialized-view recommendation comes second exactly when there are candidates,
   * and then names how many.
   */
  lemma RecommendationsShape(ps: seq<QueryPattern>)
    ensures var r := RecommendationsOf(ps);
      && 3 <= |r| <= 4
      && r[0] == DateBasedPartitioning
      && r[|r| - 2] == CompositeIndexes && r[|r| - 1] == StorageFormat
      && (|r| == 4 <==> MvCandidatesOf(ps) != [])
      && (|r| == 4 ==> r[1] == MaterializedViews(|MvCandidatesOf(ps)|) && 1 <= r[1].count <= 3)
  {
    MvCandidatesFacts(ps);
  }

  // ---------------------------------------------------------------- the report

  datatype ExecutiveSummary = ExecutiveSummary(queryVolumePerDay: int, criticalIssues: nat, optimizationPotential: string)

  datatype OptimizationReport = OptimizationReport(
    executiveSummary: ExecutiveSummary,
    performanceBottlenecks: seq<Bottleneck>,
    schemaInsights: Option<SchemaInsights>,
    queryPatterns: KeyPatterns,
    recommendations: seq<Recommendation>,
    implementationPriority: seq<string>)

  const Potential := "High - Single large table with heavy analytical workload"

  const ImplementationPriority: seq<string> := [
    "1. Date-based partitioning (High Impact, Medium Effort)",
    "2. Materialized views for aggregations (High Impact, Low Effort)",
    "3. Composite indexes on filter columns (Medium Impact, Low Effort)",
    "4. Storage format optimization (Medium Impact, Medium Effort)"]

  /** The executions of the high-volume entries (`sum(p.get('total_executions', 0) ...)`). */
  function VolumePerDay(bs: seq<Bottleneck>): int
  {
    if bs == [] then 0
    else VolumePerDay(bs[..|bs| - 1]) + match bs[|bs| - 1] case HighVolumeQueries(_, t, _) => t case SlowQueries(_, _) => 0
  }

  /** The number of bottlenecks of high severity. */
  function CriticalIssues(bs: seq<Bottleneck>): nat
  {
    CountWhere(bs, (b: Bottleneck) => b.Severity() == High)
  }

  /** `create_optimization_report` */
  function CreateOptimizationReport(data: AnalysisData): OptimizationReport
  {
    var bottlenecks := BottlenecksOf(data.patterns);
    OptimizationReport(
      ExecutiveSummary(VolumePerDay(bottlenecks), CriticalIssues(bottlenecks), Potential),
      bottlenecks,
      SchemaInsightsOf(data.tables),
      KeyPatternsOf(data),
      RecommendationsOf(data.patterns),
      ImplementationPriority)
  }

  /**
   * The daily volume is the total runs of the queries run more than 1000 times, and the
   * critical issues are 1 exactly when some query is slow, else 0.
   */
  lemma ExecutiveSummaryFacts(data: AnalysisData)
    ensures CreateOptimizationReport(data).executiveSummary.queryVolumePerDay == SumOf(HighVolumeIn(data.patterns), Runs)
    ensures CreateOptimizationReport(data).executiveSummary.criticalIssues == if exists i :: 0 <= i < |data.patterns| && IsSlow(data.patterns[i]) then 1 else 0
  {
    var ps := data.patterns;
    var slow := SlowIn(ps);
    var highVolume := HighVolumeIn(ps);
    KeptNonEmpty(ps, IsSlow, Same);
    SummaryOfEntries(if slow != [] then [SlowEntry(slow)] else [], if highVolume != [] then [VolumeEntry(highVolume)] else []);
  }

  /** A slow-query entry followed by a high-volume entry, either possibly missing: what the summary counts. */
  lemma SummaryOfEntries(slow: seq<Bottleneck>, volume: seq<Bottleneck>)
    requires |slow| <= 1 && |volume| <= 1
    requires slow != [] ==> slow[0].SlowQueries?
    requires volume != [] ==> volume[0].HighVolumeQueries?
    ensures VolumePerDay(slow + volume) == if volume == [] then 0 else volume[0].totalExecutions
    ensures CriticalIssues(slow + volume) == |slow|
  {
    var bs := slow + volume;
    if volume == [] {
      assert bs == slow;
      if slow != [] {
        assert bs[..0] == [];
      }
    } else {
      assert bs[..|bs| - 1] == slow;
      assert volume[0].Severity() == Medium;
      assert CriticalIssues(bs) == CriticalIssues(slow);
      if slow != [] {
        assert slow[..0] == [];
      }
    }
  }
}
