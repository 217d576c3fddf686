/**
 * The query pattern extractor: classifies each SQL query, pulls out its tables,
 * joins, aggregate and window functions, CTE use, subquery count and GROUP BY /
 * ORDER BY items by pattern scans over the text, and folds the resulting patterns
 * into workload statistics weighted by how often each query runs.
 */
module QueryAnalyzer {
  import opened Wrappers
  import opened Text
  import opened Scan
  import opened Counters
  import opened Lists

  datatype QueryType = Select | Insert | Update | Delete | Unknown
  {
    function Name(): string
    {
      match this
      case Select => "SELECT"
      case Insert => "INSERT"
      case Update => "UPDATE"
      case Delete => "DELETE"
      case Unknown => "UNKNOWN"
    }
  }

  /** One join descriptor: the join keyword as written, the joined table, and the optional alias and ON condition. */
  datatype Join = Join(joinType: string, table: string, alias: Option<string>, condition: Option<string>)

  datatype QueryPattern = QueryPattern(
    queryId: string,
    queryType: QueryType,
    tablesUsed: seq<string>,
    joins: seq<Join>,
    aggregations: seq<string>,
    whereConditions: seq<string>,
    cteUsage: bool,
    subqueriesCount: nat,
    groupByColumns: seq<string>,
    orderByColumns: seq<string>,
    filterColumns: seq<string>,
    windowFunctions: seq<string>,
    runQuantity: int,
    executionTime: real)

  /** A workload entry: `queryid`, `query`, and the optional `runquantity` and `executiontime`. */
  datatype QueryRecord = QueryRecord(queryId: string, query: string, runQuantity: Option<int>, executionTime: Option<real>)

  // ---------------------------------------------------------------- query type

  /** Whether `s` starts with `kw`. */
  predicate StartsWith(s: string, kw: string)
  {
    kw <= s
  }

  /**
   * The statement kind of upper-cased, stripped text: SELECT or WITH first, then
   * INSERT, UPDATE and DELETE are tried by prefix.
   */
  function Classify(u: string): (t: QueryType)
    ensures t == Select <==> StartsWith(u, "SELECT") || StartsWith(u, "WITH")
    ensures t == Unknown <==> !(StartsWith(u, "SELECT") || StartsWith(u, "WITH") || StartsWith(u, "INSERT")
                                || StartsWith(u, "UPDATE") || StartsWith(u, "DELETE"))
  {
    if StartsWith(u, "SELECT") || StartsWith(u, "WITH") then Select
    else if StartsWith(u, "INSERT") then Insert
    else if StartsWith(u, "UPDATE") then Update
    else if StartsWith(u, "DELETE") then Delete
    else Unknown
  }

  /** `_get_query_type` */
  function GetQueryType(query: string): QueryType
  {
    Classify(Strip(Upper(query)))
  }

  /** Leading whitespace and letter case do not change the query type. */
  lemma QueryTypeIgnoresCaseAndIndent(ws: string, query: string)
    requires forall k :: 0 <= k < |ws| ==> IsSpace(ws[k])
    ensures GetQueryType(ws + Lower(query)) == GetQueryType(query)
  {
    UpperAppend(ws, Lower(query));
    UpperOfLower(query);
    assert Upper(ws) == ws;
    StripLeftPrefix(ws, Upper(query), Whitespace);
    assert Strip(Upper(ws + Lower(query))) == Strip(Upper(query));
  }

  /** The keyword each statement kind starts with, and the type it gives. */
  function KeywordType(kw: string): QueryType
  {
    match kw
    case "SELECT" => Select
    case "WITH" => Select
    case "INSERT" => Insert
    case "UPDATE" => Update
    case "DELETE" => Delete
    case _ => Unknown
  }

  /** A query whose text begins with one of the statement keywords, in any case, has that keyword's type. */
  lemma LeadingKeywordType(query: string, kw: string)
    requires kw == "SELECT" || kw == "WITH" || kw == "INSERT" || kw == "UPDATE" || kw == "DELETE"
    requires kw <= Upper(query)
    ensures GetQueryType(query) == KeywordType(kw)
  {
    KeywordSurvivesStrip(Upper(query), kw);
    ClassifyLeading(Strip(Upper(query)), kw);
  }

  /** Text that starts with a statement keyword is classified by that keyword. */
  lemma ClassifyLeading(u: string, kw: string)
    requires kw == "SELECT" || kw == "WITH" || kw == "INSERT" || kw == "UPDATE" || kw == "DELETE"
    requires kw <= u
    ensures Classify(u) == KeywordType(kw)
  {
    if kw == "INSERT" {
      OtherKeyword(u, kw, "SELECT");
      OtherKeyword(u, kw, "WITH");
    } else if kw == "UPDATE" {
      OtherKeyword(u, kw, "SELECT");
      OtherKeyword(u, kw, "WITH");
      OtherKeyword(u, kw, "INSERT");
    } else if kw == "DELETE" {
      OtherKeyword(u, kw, "SELECT");
      OtherKeyword(u, kw, "WITH");
      OtherKeyword(u, kw, "INSERT");
      OtherKeyword(u, kw, "UPDATE");
    }
  }

  lemma KeywordSurvivesStrip(s: string, kw: string)
    requires kw == "SELECT" || kw == "WITH" || kw == "INSERT" || kw == "UPDATE" || kw == "DELETE"
    requires kw <= s
    ensures kw <= Strip(s)
  {
    assert forall k :: 0 <= k < |kw| ==> IsUpperLetter(kw[k]);
    PrefixSurvivesStrip(s, kw);
  }

  /** Text that starts with one keyword does not start with a keyword of another first letter. */
  lemma OtherKeyword(u: string, kw: string, other: string)
    requires kw <= u && |kw| > 0 && |other| > 0 && kw[0] != other[0]
    ensures !StartsWith(u, other)
  {
    assert u[0] == kw[0];
  }

  // ---------------------------------------------------------------- tables

  /** `_extract_tables`: the FROM/JOIN targets, each once, in order of first appearance. */
  method ExtractTables(query: string) returns (tables: seq<string>)
    ensures tables == TablesOf(query)
    ensures Distinct(tables)
    ensures forall t :: t in tables <==> t in RefsFrom(query, AnalyzerRefs, 0)
    ensures forall t :: t in tables ==> AnalyzerRefs.Shaped(t)
  {
    var matches := RefsFrom(query, AnalyzerRefs, 0);
    tables := [];
    var i := 0;
    while i < |matches|
      invariant 0 <= i <= |matches|
      invariant tables == Dedup(matches[..i])
    {
      assert matches[..i + 1][..i] == matches[..i];
      // A match never contains a space, so the alias split of the source never applies.
      if matches[i] !in tables {
        tables := tables + [matches[i]];
      }
      i := i + 1;
    }
    assert matches[..i] == matches;
  }

  function TablesOf(query: string): (r: seq<string>)
    ensures Distinct(r) && forall t :: t in r <==> t in RefsFrom(query, AnalyzerRefs, 0)
    ensures forall t :: t in r ==> AnalyzerRefs.Shaped(t)
  {
    var refs := RefsFrom(query, AnalyzerRefs, 0);
    assert forall t :: t in refs ==> AnalyzerRefs.Shaped(t) by {
      forall t | t in refs ensures AnalyzerRefs.Shaped(t) {
        var k :| 0 <= k < |refs| && refs[k] == t;
      }
    }
    Dedup(RefsFrom(query, AnalyzerRefs, 0))
  }

  // ---------------------------------------------------------------- joins

  const JoinPrefixes: seq<string> := ["INNER", "LEFT", "RIGHT", "FULL", "CROSS"]
  const JoinStops: seq<string> := ["JOIN", "WHERE", "GROUP", "ORDER", "LIMIT"]

  /** `PREFIX\s+JOIN` at `i` for the first prefix of `prefixes` that matches: the end of `JOIN`. */
  function PrefixedJoinEnd(q: string, i: nat, prefixes: seq<string>): (r: Option<nat>)
    ensures r.Some? ==> i < r.value - 4 && KeywordAt(q, r.value - 4, "JOIN")
  {
    if prefixes == [] then None
    else
      var first := PrefixJoinAt(q, i, prefixes[0]);
      if first.Some? then first else PrefixedJoinEnd(q, i, prefixes[1..])
  }

  /** `w\s+JOIN` at `i`: the end of `JOIN`. */
  function PrefixJoinAt(q: string, i: nat, w: string): (r: Option<nat>)
    ensures r.Some? ==> i < r.value - 4 && KeywordAt(q, r.value - 4, "JOIN")
  {
    var p := SkipSpaces(q, i + |w|);
    if KeywordAt(q, i, w) && p > i + |w| && KeywordAt(q, p, "JOIN") then Some(p + 4) else None
  }

  /** `(?:INNER\s+|LEFT\s+|RIGHT\s+|FULL\s+|CROSS\s+)?JOIN` at `i`: the end of the join keyword. */
  function JoinKeywordEnd(q: string, i: nat): (r: Option<nat>)
    ensures r.Some? ==> i + 4 <= r.value <= |q| && KeywordAt(q, r.value - 4, "JOIN")
  {
    match PrefixedJoinEnd(q, i, JoinPrefixes)
    case Some(e) => Some(e)
    case None => if KeywordAt(q, i, "JOIN") then Some(i + 4) else None
  }

  /** The groups of one join match, as `re.findall` returns them (`""` for a group that did not take part). */
  datatype JoinMatch = JoinMatch(joinType: string, table: string, alias: string, condition: string)

  /** `(?:AS\s+([a-zA-Z_][a-zA-Z0-9_]*))?` at `c`: the alias and where the match continues. */
  function AliasAt(q: string, c: nat): (r: (string, nat))
    ensures c <= r.1 && (c <= |q| ==> r.1 <= |q|)
    ensures r.0 == "" <==> r.1 == c
  {
    if KeywordAt(q, c, "AS") then
      var a := SkipSpaces(q, c + 2);
      if a > c + 2 && a < |q| && IdentStart(q[a]) then
        var e := SkipWhile(q, a + 1, IsWordChar);
        (q[a..e], e)
      else ("", c)
    else ("", c)
  }

  /** `(?:ON\s+(.+?)(?=\s+(?:JOIN|WHERE|GROUP|ORDER|LIMIT|$)))?` at `c`: the condition and where the match ends. */
  function ConditionAt(q: string, c: nat): (r: (string, nat))
    ensures c <= r.1 && (c <= |q| ==> r.1 <= |q|)
    ensures r.0 == "" <==> r.1 == c
    ensures r.0 != "" ==> LookaheadAt(q, r.1, JoinStops)
  {
    if KeywordAt(q, c, "ON") then
      match LazyCapture(q, c + 2, JoinStops)
      case Some((s, e)) => (q[s..e], e)
      case None => ("", c)
    else ("", c)
  }

  /** `\s+([a-zA-Z_][a-zA-Z0-9_.]*)` at `t`: the span of the joined table. */
  function JoinTableAt(q: string, t: nat): (r: Option<(nat, nat)>)
    ensures r.Some? ==> t < r.value.0 < r.value.1 <= |q|
    ensures r.Some? ==> AnalyzerRefs.Shaped(q[r.value.0..r.value.1])
  {
    var p := SkipSpaces(q, t);
    if p > t && p < |q| && IdentStart(q[p]) then
      var e := SkipWhile(q, p + 1, TableChar);
      assert forall k :: 0 < k < e - p ==> TableChar(q[p..e][k]) by {
        forall k | 0 < k < e - p ensures TableChar(q[p..e][k]) {
          assert q[p..e][k] == q[p + k];
        }
      }
      Some((p, e))
    else None
  }

  /** The join keyword, as matched, ends in `JOIN` in any case. */
  predicate EndsWithJoin(s: string)
  {
    |s| >= 4 && Upper(s[|s| - 4..]) == "JOIN"
  }

  /** A join match whose table has the identifier shape and whose keyword ends in `JOIN`. */
  predicate JoinShaped(m: JoinMatch)
  {
    AnalyzerRefs.Shaped(m.table) && EndsWithJoin(m.joinType)
  }

  lemma JoinTypeEndsWithJoin(q: string, i: nat, t: nat)
    requires i + 4 <= t <= |q| && KeywordAt(q, t - 4, "JOIN")
    ensures EndsWithJoin(q[i..t])
  {
    assert q[i..t][t - i - 4..] == q[t - 4..t];
  }

  /** A match of the join pattern starting at `i` (`\b` first), and where it ends. */
  function JoinAt(q: string, i: nat): (r: Option<(JoinMatch, nat)>)
    ensures r.Some? ==> i < r.value.1 <= |q|
    ensures r.Some? ==> JoinShaped(r.value.0)
  {
    if !Boundary(q, i) then None
    else
      match JoinKeywordEnd(q, i)
      case None => None
      case Some(t) =>
        match JoinTableAt(q, t)
        case None => None
        case Some((p, e)) =>
          var (alias, condition, end) := JoinTail(q, e);
          JoinTypeEndsWithJoin(q, i, t);
          Some((JoinMatch(q[i..t], q[p..e], alias, condition), end))
  }

  /** `\s*(?:AS ...)?\s*(?:ON ...)?` after the joined table: alias, condition and where the match ends. */
  function JoinTail(q: string, e: nat): (r: (string, string, nat))
    requires e <= |q|
    ensures e <= r.2 <= |q|
  {
    var (alias, c2) := AliasAt(q, SkipSpaces(q, e));
    var (condition, end) := ConditionAt(q, SkipSpaces(q, c2));
    (alias, condition, end)
  }

  /** `re.findall` of the join pattern from `i`. */
  function JoinMatchesFrom(q: string, i: nat): (r: seq<JoinMatch>)
    decreases |q| - i
  {
    if i >= |q| then []
    else
      match JoinAt(q, i)
      case Some((m, e)) => [m] + JoinMatchesFrom(q, e)
      case None => JoinMatchesFrom(q, i + 1)
  }

  /** Every join match has a table of the identifier shape and a keyword ending in `JOIN`. */
  lemma {:induction false} JoinMatchesShaped(q: string, i: nat)
    ensures forall k :: 0 <= k < |JoinMatchesFrom(q, i)| ==> JoinShaped(JoinMatchesFrom(q, i)[k])
    decreases |q| - i
  {
    if i < |q| {
      match JoinAt(q, i)
      case Some((m, e)) =>
        JoinMatchesShaped(q, e);
        AllCons(m, JoinMatchesFrom(q, e), JoinShaped);
      case None =>
        JoinMatchesShaped(q, i + 1);
    }
  }

  /** Without the word JOIN the query has no join matches. */
  lemma {:induction false} JoinsNeedKeyword(q: string, i: nat)
    requires forall j: nat :: !KeywordAt(q, j, "JOIN")
    ensures JoinMatchesFrom(q, i) == []
    decreases |q| - i
  {
    if i < |q| {
      assert JoinKeywordEnd(q, i).None?;
      JoinsNeedKeyword(q, i + 1);
    }
  }

  /** The descriptor built from one match. */
  function ToJoin(m: JoinMatch): (j: Join)
  {
    Join(Strip(m.joinType), m.table,
      if m.alias == "" then None else Some(m.alias),
      if m.condition == "" then None else Some(Strip(m.condition)))
  }

  /** The descriptors of a list of matches, in order. */
  function JoinsOfMatches(ms: seq<JoinMatch>): (r: seq<Join>)
    ensures |r| == |ms|
    ensures forall k :: 0 <= k < |r| ==> r[k] == ToJoin(ms[k])
  {
    MapAll(ms, ToJoin)
  }

  /** The joins of a query: one per match, with its table and join keyword. */
  function JoinsOf(query: string): (r: seq<Join>)
    ensures |r| == |JoinMatchesFrom(query, 0)|
    ensures forall k :: 0 <= k < |r| ==> AnalyzerRefs.Shaped(r[k].table)
  {
    JoinMatchesShaped(query, 0);
    JoinsOfMatches(JoinMatchesFrom(query, 0))
  }

  /** `_extract_joins`: one descriptor per match, in order. */
  method ExtractJoins(query: string) returns (joins: seq<Join>)
    ensures joins == JoinsOf(query)
  {
    var matches := JoinMatchesFrom(query, 0);
    joins := [];
    for i := 0 to |matches|
      invariant joins == MapAll(matches[..i], ToJoin)
    {
      MapAllSnoc(matches, i, ToJoin);
      joins := joins + [ToJoin(matches[i])];
    }
    assert matches[..|matches|] == matches;
  }

  // ---------------------------------------------------------------- function vocabularies

  /** The aggregate functions the source looks for. */
  const AggregateFunctions: seq<string> :=
    ["count", "sum", "avg", "min", "max", "stddev", "variance", "count_distinct", "percentile", "median"]

  /** The window functions the source looks for. */
  const WindowFunctions: seq<string> :=
    ["row_number", "rank", "dense_rank", "lead", "lag", "first_value", "last_value", "nth_value", "ntile"]

  /** The patterns searched for anywhere in a query. */
  datatype Probe =
    | Aggregate(f: string)  // \bF\s*\(
    | Window(f: string)     // \bF\s*\(\s*\)\s+OVER\s*\(
    | Cte                   // \bWITH\s+\w+\s+AS\s*\(

  /** `\bF\s*\(` at `i`, ignoring case: where the call's parenthesis is. */
  function CallAt(q: string, i: nat, f: string): (r: Option<nat>)
    ensures r.Some? ==> i + |f| <= r.value < |q| && q[r.value] == '('
  {
    if Boundary(q, i) && KeywordAt(q, i, Upper(f)) then
      var a := SkipSpaces(q, i + |f|);
      if a < |q| && q[a] == '(' then Some(a) else None
    else None
  }

  /** `\(\s*\)\s+OVER\s*\(` right after the call's parenthesis at `a`. */
  predicate OverAfter(q: string, a: nat)
  {
    var b := SkipSpaces(q, a + 1);
    b < |q| && q[b] == ')'
    && (var c := SkipSpaces(q, b + 1);
        c > b + 1 && KeywordAt(q, c, "OVER")
        && (var d := SkipSpaces(q, c + 4); d < |q| && q[d] == '('))
  }

  /** `\bWITH\s+\w+\s+AS\s*\(` at `i`, ignoring case. */
  predicate CteAt(q: string, i: nat)
  {
    Boundary(q, i) && KeywordAt(q, i, "WITH")
    && (var p := SkipSpaces(q, i + 4);
        p > i + 4 && p < |q| && IsWordChar(q[p])
        && (var e := SkipWhile(q, p, IsWordChar);
            var s := SkipSpaces(q, e);
            s > e && KeywordAt(q, s, "AS")
            && (var t := SkipSpaces(q, s + 2); t < |q| && q[t] == '(')))
  }

  predicate ProbeAt(q: string, probe: Probe, i: nat)
  {
    match probe
    case Aggregate(f) => CallAt(q, i, f).Some?
    case Window(f) => CallAt(q, i, f).Some? && OverAfter(q, CallAt(q, i, f).value)
    case Cte => CteAt(q, i)
  }

  function Probes(q: string, probe: Probe): nat -> bool
  {
    (j: nat) => ProbeAt(q, probe, j)
  }

  /** `re.search(pattern, query, re.IGNORECASE)` found a match at or after `i`. */
  predicate Found(q: string, probe: Probe, i: nat)
  {
    AnyFrom(Probes(q, probe), i, |q|)
  }

  lemma FoundIff(q: string, probe: Probe, i: nat)
    ensures Found(q, probe, i) <==> exists j :: i <= j < |q| && ProbeAt(q, probe, j)
  {
    AnyFromIff(Probes(q, probe), i, |q|);
    assert forall j :: Probes(q, probe)(j) == ProbeAt(q, probe, j);
  }

  /** Every window-function call is also a call of the same name. */
  lemma WindowIsCall(q: string, f: string)
    requires Found(q, Window(f), 0)
    ensures Found(q, Aggregate(f), 0)
  {
    FoundIff(q, Window(f), 0);
    var j :| 0 <= j < |q| && ProbeAt(q, Window(f), j);
    assert ProbeAt(q, Aggregate(f), j);
    FoundIff(q, Aggregate(f), 0);
  }

  predicate HasAggregate(query: string, f: string)
  {
    Found(query, Aggregate(f), 0)
  }

  predicate HasWindow(query: string, f: string)
  {
    Found(query, Window(f), 0)
  }

  /** A name's length with its last character: enough to tell the vocabulary entries apart. */
  function Signature(w: string): (int, char)
  {
    if w == [] then (0, ' ') else (|w|, w[|w| - 1])
  }

  /** The vocabularies list each name once. */
  lemma AggregateFunctionsDistinct()
    ensures Distinct(AggregateFunctions)
  {
    DistinctByKey(AggregateFunctions, Signature);
  }

  lemma WindowFunctionsDistinct()
    ensures Distinct(WindowFunctions)
  {
    DistinctByKey(WindowFunctions, Signature);
  }

  function Aggregates(query: string): string -> bool
  {
    (f: string) => HasAggregate(query, f)
  }

  function Windows(query: string): string -> bool
  {
    (f: string) => HasWindow(query, f)
  }

  /** `_extract_aggregations`: the aggregate functions called in the query, in vocabulary order. */
  method ExtractAggregations(query: string) returns (aggregations: seq<string>)
    ensures aggregations == Filter(AggregateFunctions, Aggregates(query))
    ensures Distinct(aggregations)
    ensures forall f :: f in aggregations <==> f in AggregateFunctions && HasAggregate(query, f)
  {
    aggregations := [];
    for i := 0 to |AggregateFunctions|
      invariant aggregations == Filter(AggregateFunctions[..i], Aggregates(query))
    {
      FilterSnoc(AggregateFunctions, i, Aggregates(query));
      var f := AggregateFunctions[i];
      if HasAggregate(query, f) {
        aggregations := aggregations + [f];
      }
    }
    assert AggregateFunctions[..|AggregateFunctions|] == AggregateFunctions;
    AggregateFunctionsDistinct();
  }

  /** `_extract_window_functions`: the window functions called as `F() OVER (`, in vocabulary order. */
  method ExtractWindowFunctions(query: string) returns (functions: seq<string>)
    ensures functions == Filter(WindowFunctions, Windows(query))
    ensures Distinct(functions)
    ensures forall f :: f in functions <==> f in WindowFunctions && HasWindow(query, f)
  {
    functions := [];
    for i := 0 to |WindowFunctions|
      invariant functions == Filter(WindowFunctions[..i], Windows(query))
    {
      FilterSnoc(WindowFunctions, i, Windows(query));
      var f := WindowFunctions[i];
      if HasWindow(query, f) {
        functions := functions + [f];
      }
    }
    assert WindowFunctions[..|WindowFunctions|] == WindowFunctions;
    WindowFunctionsDistinct();
  }

  // ---------------------------------------------------------------- CTE and subqueries

  /** `_has_cte` */
  function HasCte(query: string): (r: bool)
    ensures r <==> exists i :: 0 <= i < |query| && CteAt(query, i)
  {
    FoundIff(query, Cte, 0);
    assert forall i :: ProbeAt(query, Cte, i) == CteAt(query, i);
    Found(query, Cte, 0)
  }

  /** `\bSELECT\b` at `i`, ignoring case. */
  predicate SelectAt(q: string, i: nat)
  {
    Boundary(q, i) && KeywordAt(q, i, "SELECT") && Boundary(q, i + 6)
  }

  /** The positions from `i` on where `\bSELECT\b` matches. */
  function SelectPositions(q: string, i: nat): set<nat>
  {
    set j: nat | i <= j < |q| && SelectAt(q, j)
  }

  /**
   * The number of `\bSELECT\b` matches `re.findall` finds from `i`: the scan resumes after
   * each match, and since no word boundary falls inside a match, it counts every position
   * where the pattern matches.
   */
  function SelectCount(q: string, i: nat): (n: nat)
    ensures n == |SelectPositions(q, i)|
    decreases |q| - i
  {
    if i >= |q| then
      assert SelectPositions(q, i) == {};
      0
    else if SelectAt(q, i) then
      SelectSkips(q, i);
      1 + SelectCount(q, i + 6)
    else
      assert SelectPositions(q, i) == SelectPositions(q, i + 1);
      SelectCount(q, i + 1)
  }

  /** After a match at `i` the next possible match is at `i + 6`. */
  lemma SelectSkips(q: string, i: nat)
    requires SelectAt(q, i)
    ensures SelectPositions(q, i) == {i} + SelectPositions(q, i + 6)
    ensures i !in SelectPositions(q, i + 6)
  {
    forall j: nat | i < j < i + 6
      ensures !SelectAt(q, j)
    {
      assert Upper(q[i..i + 6])[j - i - 1] == "SELECT"[j - i - 1];
      assert Upper(q[i..i + 6])[j - i] == "SELECT"[j - i];
      assert IsWordChar(UpperChar(q[j - 1])) && IsWordChar(UpperChar(q[j]));
    }
  }

  /** `_count_subqueries`: the SELECT matches beyond the first. */
  function CountSubqueries(query: string): (n: nat)
    ensures SelectPositions(query, 0) != {} ==> n == |SelectPositions(query, 0)| - 1
    ensures SelectPositions(query, 0) == {} ==> n == 0
  {
    var selects := SelectCount(query, 0);
    if selects - 1 > 0 then selects - 1 else 0
  }

  /** There are subqueries exactly when the word SELECT matches at two different positions. */
  lemma SubqueriesIffNestedSelect(query: string)
    ensures CountSubqueries(query) > 0 <==> exists j, k :: 0 <= j < k < |query| && SelectAt(query, j) && SelectAt(query, k)
  {
    var ps := SelectPositions(query, 0);
    if CountSubqueries(query) > 0 {
      var j, k := TwoMembers(ps);
      assert SelectAt(query, j) && SelectAt(query, k);
    }
    if exists j, k :: 0 <= j < k < |query| && SelectAt(query, j) && SelectAt(query, k) {
      var j, k :| 0 <= j < k < |query| && SelectAt(query, j) && SelectAt(query, k);
      PairCard(ps, j, k);
    }
  }

  /** A set of more than one position has two ordered members. */
  lemma TwoMembers(ps: set<nat>) returns (j: nat, k: nat)
    requires |ps| > 1
    ensures j in ps && k in ps && j < k
  {
    var a :| a in ps;
    assert |ps - {a}| > 0;
    var b :| b in ps - {a};
    if a < b {
      j, k := a, b;
    } else {
      j, k := b, a;
    }
  }

  /** A set holding two different positions has more than one member. */
  lemma PairCard(ps: set<nat>, j: nat, k: nat)
    requires j in ps && k in ps && j != k
    ensures |ps| > 1
  {
    assert ps == {j, k} + (ps - {j, k});
    assert |{j, k}| == 2;
  }

  /** SELECT matches do not overlap: there are at most one per six characters. */
  lemma {:induction false} SelectCountBound(q: string, i: nat)
    requires i <= |q|
    ensures SelectCount(q, i) * 6 <= |q| - i
    decreases |q| - i
  {
    if i < |q| {
      if SelectAt(q, i) {
        SelectCountBound(q, i + 6);
      } else {
        SelectCountBound(q, i + 1);
      }
    }
  }

  // ---------------------------------------------------------------- GROUP BY / ORDER BY

  const GroupByStops: seq<string> := ["HAVING", "ORDER", "LIMIT"]
  const OrderByStops: seq<string> := ["LIMIT"]

  /** `\bKW\s+BY\s+(.+?)(?=\s+(?:stops|$))` at `i` (DOTALL, ignoring case): the captured span. */
  function ClauseAt(q: string, i: nat, kw: string, stops: seq<string>): (r: Option<(nat, nat)>)
    ensures r.Some? ==> i < r.value.0 < r.value.1 <= |q| && LookaheadAt(q, r.value.1, stops)
  {
    if Boundary(q, i) && KeywordAt(q, i, kw) then
      var p := SkipSpaces(q, i + |kw|);
      if p > i + |kw| && KeywordAt(q, p, "BY") then LazyCapture(q, p + 2, stops) else None
    else None
  }

  /** `re.search` of the clause pattern from `i`. */
  function ClauseFrom(q: string, i: nat, kw: string, stops: seq<string>): (r: Option<(nat, nat)>)
    ensures r.Some? ==> i < r.value.0 < r.value.1 <= |q| && LookaheadAt(q, r.value.1, stops)
    decreases |q| - i
  {
    if i >= |q| then None
    else if ClauseAt(q, i, kw, stops).Some? then ClauseAt(q, i, kw, stops)
    else ClauseFrom(q, i + 1, kw, stops)
  }

  /** The captured clause split on every comma, each item stripped. */
  function ClauseItems(q: string, kw: string, stops: seq<string>): (r: seq<string>)
    ensures ClauseFrom(q, 0, kw, stops).None? ==> r == []
    ensures ClauseFrom(q, 0, kw, stops).Some? ==>
      var (s, e) := ClauseFrom(q, 0, kw, stops).value;
      |r| == CountChar(q[s..e], ',') + 1 && forall k :: 0 <= k < |r| ==> ',' !in r[k]
  {
    match ClauseFrom(q, 0, kw, stops)
    case None => []
    case Some((s, e)) => StripAll(Split(q[s..e], ','))
  }

  function StripAll(pieces: seq<string>): (r: seq<string>)
    ensures |r| == |pieces|
    ensures forall k :: 0 <= k < |r| ==> r[k] == Strip(pieces[k])
  {
    if pieces == [] then [] else [Strip(pieces[0])] + StripAll(pieces[1..])
  }

  /** `_extract_group_by` */
  function ExtractGroupBy(query: string): (r: seq<string>)
  {
    ClauseItems(query, "GROUP", GroupByStops)
  }

  /** `_extract_order_by` */
  function ExtractOrderBy(query: string): (r: seq<string>)
  {
    ClauseItems(query, "ORDER", OrderByStops)
  }

  /**
   * The clause is found only where whitespace follows it and then a stop keyword or
   * the end of the text: without such a place the item list is empty.
   */
  lemma {:induction false} ClauseNeedsLookahead(q: string, i: nat, kw: string, stops: seq<string>)
    requires forall k: nat :: !LookaheadAt(q, k, stops)
    ensures ClauseFrom(q, i, kw, stops).None?
    decreases |q| - i
  {
    if i < |q| {
      ClauseNeedsLookahead(q, i + 1, kw, stops);
    }
  }

  lemma GroupByNeedsLookahead(query: string)
    requires forall k: nat :: !LookaheadAt(query, k, GroupByStops)
    ensures ExtractGroupBy(query) == []
  {
    ClauseNeedsLookahead(query, 0, "GROUP", GroupByStops);
  }

  lemma OrderByNeedsLookahead(query: string)
    requires forall k: nat :: !LookaheadAt(query, k, OrderByStops)
    ensures ExtractOrderBy(query) == []
  {
    ClauseNeedsLookahead(query, 0, "ORDER", OrderByStops);
  }

  // ---------------------------------------------------------------- patterns

  /**
   * The pattern of one record. `filterColumns` stands for the walk over the
   * sqlparse token tree of the WHERE clause.
   */
  function PatternOf(r: QueryRecord, filterColumns: string -> seq<string>): (p: QueryPattern)
    ensures p.queryId == r.queryId
    ensures p.runQuantity == (if r.runQuantity.Some? then r.runQuantity.value else 0)
    ensures p.executionTime == (if r.executionTime.Some? then r.executionTime.value else 0.0)
    ensures p.whereConditions == []
  {
    var q := r.query;
    QueryPattern(
      r.queryId,
      GetQueryType(q),
      TablesOf(q),
      JoinsOf(q),
      Filter(AggregateFunctions, Aggregates(q)),
      [],
      HasCte(q),
      CountSubqueries(q),
      ExtractGroupBy(q),
      ExtractOrderBy(q),
      filterColumns(q),
      Filter(WindowFunctions, Windows(q)),
      if r.runQuantity.Some? then r.runQuantity.value else 0,
      if r.executionTime.Some? then r.executionTime.value else 0.0)
  }

  /**
   * `_analyze_single_query`. `tokenizes` stands for `sqlparse.parse(query)[0]`, which
   * raises for text that yields no statement; the exception makes the result `None`.
   */
  method AnalyzeSingleQuery(r: QueryRecord, tokenizes: string -> bool, filterColumns: string -> seq<string>)
    returns (p: Option<QueryPattern>)
    ensures p.Some? <==> tokenizes(r.query)
    ensures p.Some? ==> p.value == PatternOf(r, filterColumns)
  {
    if !tokenizes(r.query) {
      return None;
    }
    var q := r.query;
    var tables := ExtractTables(q);
    var joins := ExtractJoins(q);
    var aggregations := ExtractAggregations(q);
    var windows := ExtractWindowFunctions(q);
    p := Some(QueryPattern(
      r.queryId, GetQueryType(q), tables, joins, aggregations, [], HasCte(q), CountSubqueries(q),
      ExtractGroupBy(q), ExtractOrderBy(q), filterColumns(q), windows,
      if r.runQuantity.Some? then r.runQuantity.value else 0,
      if r.executionTime.Some? then r.executionTime.value else 0.0));
  }

  function Parses(tokenizes: string -> bool): QueryRecord -> bool
  {
    (r: QueryRecord) => tokenizes(r.query)
  }

  function Analyze(filterColumns: string -> seq<string>): QueryRecord -> QueryPattern
  {
    (r: QueryRecord) => PatternOf(r, filterColumns)
  }

  /** The patterns of the records whose text tokenizes, in input order. */
  function PatternsOf(records: seq<QueryRecord>, tokenizes: string -> bool, filterColumns: string -> seq<string>): seq<QueryPattern>
  {
    Kept(records, Parses(tokenizes), Analyze(filterColumns))
  }

  /** Each record that tokenizes contributes its pattern, in input order, and the others are skipped. */
  lemma PatternsKeepOrder(records: seq<QueryRecord>, tokenizes: string -> bool, filterColumns: string -> seq<string>, i: nat)
    requires i < |records| && tokenizes(records[i].query)
    ensures var ps := PatternsOf(records, tokenizes, filterColumns);
      var k := i - Failing(records[..i], Parses(tokenizes));
      0 <= k < |ps| && ps[k] == PatternOf(records[i], filterColumns)
  {
    KeptAt(records, Parses(tokenizes), Analyze(filterColumns), i);
  }

  /** Every pattern comes from a record that tokenizes, and lists its tables once each. */
  lemma PatternsFromRecords(records: seq<QueryRecord>, tokenizes: string -> bool, filterColumns: string -> seq<string>, k: nat)
    requires k < |PatternsOf(records, tokenizes, filterColumns)|
    ensures var p := PatternsOf(records, tokenizes, filterColumns)[k];
      Distinct(p.tablesUsed)
      && exists i :: 0 <= i < |records| && tokenizes(records[i].query) && p == PatternOf(records[i], filterColumns)
  {
    KeptFrom(records, Parses(tokenizes), Analyze(filterColumns), k);
  }

  /** When every record tokenizes, there is one pattern per record. */
  lemma AllRecordsAnalyzed(records: seq<QueryRecord>, tokenizes: string -> bool, filterColumns: string -> seq<string>)
    requires forall i :: 0 <= i < |records| ==> tokenizes(records[i].query)
    ensures |PatternsOf(records, tokenizes, filterColumns)| == |records|
  {
    KeptAll(records, Parses(tokenizes), Analyze(filterColumns));
  }

  /** `analyze_queries` */
  method AnalyzeQueries(records: seq<QueryRecord>, tokenizes: string -> bool, filterColumns: string -> seq<string>)
    returns (patterns: seq<QueryPattern>)
    ensures patterns == PatternsOf(records, tokenizes, filterColumns)
  {
    patterns := [];
    var i := 0;
    while i < |records|
      invariant 0 <= i <= |records|
      invariant patterns == PatternsOf(records[..i], tokenizes, filterColumns)
    {
      assert records[..i + 1][..i] == records[..i];
      var p := AnalyzeSingleQuery(records[i], tokenizes, filterColumns);
      assert Parses(tokenizes)(records[i]) == p.Some?;
      if p.Some? {
        patterns := patterns + [p.value];
      }
      i := i + 1;
    }
    assert records[..i] == records;
  }

  // ---------------------------------------------------------------- statistics

  /** An entry of `high_frequency_queries`. */
  datatype FrequentQuery = FrequentQuery(queryId: string, runQuantity: int, executionTime: real)

  /** The result of `get_query_statistics`; each counter keeps its keys in order of first use. */
  datatype QueryStatistics = QueryStatistics(
    totalQueries: nat,
    queryTypes: Counts<string>,
    mostUsedTables: Counts<string>,
    joinPatterns: Counts<string>,
    aggregationUsage: Counts<string>,
    mostUsedFilterColumns: Counts<string>,
    mostUsedGroupByColumns: Counts<string>,
    cteUsage: nat,
    avgExecutionTime: real,
    highFrequencyQueries: seq<FrequentQuery>)

  // What one pattern adds to each counter.
  function TypeUses(p: QueryPattern): seq<(string, int)> { Weighted([p.queryType.Name()], 1) }
  function TableUses(p: QueryPattern): seq<(string, int)> { Weighted(p.tablesUsed, p.runQuantity) }
  function FilterUses(p: QueryPattern): seq<(string, int)> { Weighted(p.filterColumns, p.runQuantity) }
  function GroupByUses(p: QueryPattern): seq<(string, int)> { Weighted(p.groupByColumns, p.runQuantity) }
  function JoinUses(p: QueryPattern): seq<(string, int)> { Weighted(JoinTypes(p.joins), 1) }
  function AggregationUses(p: QueryPattern): seq<(string, int)> { Weighted(p.aggregations, 1) }

  function JoinTypes(joins: seq<Join>): (r: seq<string>)
    ensures |r| == |joins| && forall k :: 0 <= k < |r| ==> r[k] == joins[k].joinType
  {
    seq(|joins|, k requires 0 <= k < |joins| => joins[k].joinType)
  }

  predicate UsesCte(p: QueryPattern) { p.cteUsage }

  /** More than 100 runs make a query frequent. */
  predicate IsFrequent(p: QueryPattern) { p.runQuantity > 100 }

  function FrequentEntry(p: QueryPattern): FrequentQuery
  {
    FrequentQuery(p.queryId, p.runQuantity, p.executionTime)
  }

  function SumExecutionTime(ps: seq<QueryPattern>): real
  {
    if ps == [] then 0.0 else SumExecutionTime(ps[..|ps| - 1]) + ps[|ps| - 1].executionTime
  }

  /** The running totals of `get_query_statistics`. */
  datatype Tally = Tally(
    types: Counts<string>,
    tables: Counts<string>,
    joins: Counts<string>,
    aggregations: Counts<string>,
    filters: Counts<string>,
    groupBys: Counts<string>,
    cte: nat,
    timeSum: real,
    frequent: seq<FrequentQuery>)

  /** The totals over a list of patterns, counter by counter. */
  function TallyOf(ps: seq<QueryPattern>): Tally
  {
    Tally(
      CountAll(FlatEvents(ps, TypeUses)),
      CountAll(FlatEvents(ps, TableUses)),
      CountAll(FlatEvents(ps, JoinUses)),
      CountAll(FlatEvents(ps, AggregationUses)),
      CountAll(FlatEvents(ps, FilterUses)),
      CountAll(FlatEvents(ps, GroupByUses)),
      CountWhere(ps, UsesCte),
      SumExecutionTime(ps),
      Kept(ps, IsFrequent, FrequentEntry))
  }

  /** The statistics of a list of patterns. */
  function StatisticsOf(ps: seq<QueryPattern>): QueryStatistics
  {
    var t := TallyOf(ps);
    QueryStatistics(|ps|, t.types, t.tables, t.joins, t.aggregations, t.filters, t.groupBys, t.cte,
      if ps == [] then 0.0 else t.timeSum / (|ps| as real), t.frequent)
  }

  /** The unweighted counters after pattern `ps[i]`: its type, its join types and its aggregates. */
  method CountKinds(types0: Counts<string>, joins0: Counts<string>, aggregations0: Counts<string>, ps: seq<QueryPattern>, i: nat)
    returns (types: Counts<string>, joins: Counts<string>, aggregations: Counts<string>)
    requires i < |ps|
    requires types0 == CountAll(FlatEvents(ps[..i], TypeUses))
    requires joins0 == CountAll(FlatEvents(ps[..i], JoinUses))
    requires aggregations0 == CountAll(FlatEvents(ps[..i], AggregationUses))
    ensures types == CountAll(FlatEvents(ps[..i + 1], TypeUses))
    ensures joins == CountAll(FlatEvents(ps[..i + 1], JoinUses))
    ensures aggregations == CountAll(FlatEvents(ps[..i + 1], AggregationUses))
  {
    var p := ps[i];
    types := BumpFor(types0, ps, i, TypeUses, [p.queryType.Name()], 1);
    joins := BumpFor(joins0, ps, i, JoinUses, JoinTypes(p.joins), 1);
    aggregations := BumpFor(aggregations0, ps, i, AggregationUses, p.aggregations, 1);
  }

  /** The run-weighted counters after pattern `ps[i]`: its tables, filter columns and GROUP BY items. */
  method CountRuns(tables0: Counts<string>, filters0: Counts<string>, groupBys0: Counts<string>, ps: seq<QueryPattern>, i: nat)
    returns (tables: Counts<string>, filters: Counts<string>, groupBys: Counts<string>)
    requires i < |ps|
    requires tables0 == CountAll(FlatEvents(ps[..i], TableUses))
    requires filters0 == CountAll(FlatEvents(ps[..i], FilterUses))
    requires groupBys0 == CountAll(FlatEvents(ps[..i], GroupByUses))
    ensures tables == CountAll(FlatEvents(ps[..i + 1], TableUses))
    ensures filters == CountAll(FlatEvents(ps[..i + 1], FilterUses))
    ensures groupBys == CountAll(FlatEvents(ps[..i + 1], GroupByUses))
  {
    var p := ps[i];
    tables := BumpFor(tables0, ps, i, TableUses, p.tablesUsed, p.runQuantity);
    filters := BumpFor(filters0, ps, i, FilterUses, p.filterColumns, p.runQuantity);
    groupBys := BumpFor(groupBys0, ps, i, GroupByUses, p.groupByColumns, p.runQuantity);
  }

  /** The CTE count, the execution time sum and the frequent list after pattern `ps[i]`. */
  method CountRest(cte0: nat, timeSum0: real, frequent0: seq<FrequentQuery>, ps: seq<QueryPattern>, i: nat)
    returns (cte: nat, timeSum: real, frequent: seq<FrequentQuery>)
    requires i < |ps|
    requires cte0 == CountWhere(ps[..i], UsesCte)
    requires timeSum0 == SumExecutionTime(ps[..i])
    requires frequent0 == Kept(ps[..i], IsFrequent, FrequentEntry)
    ensures cte == CountWhere(ps[..i + 1], UsesCte)
    ensures timeSum == SumExecutionTime(ps[..i + 1])
    ensures frequent == Kept(ps[..i + 1], IsFrequent, FrequentEntry)
  {
    var p := ps[i];
    assert ps[..i + 1][..i] == ps[..i];
    cte := if p.cteUsage then cte0 + 1 else cte0;
    timeSum := timeSum0 + p.executionTime;
    frequent := if p.runQuantity > 100 then frequent0 + [FrequentEntry(p)] else frequent0;
  }

  /** `get_query_statistics`: one pass over the patterns updating every counter. */
  method GetQueryStatistics(ps: seq<QueryPattern>) returns (stats: QueryStatistics)
    ensures stats == StatisticsOf(ps)
    ensures stats.cteUsage <= stats.totalQueries
  {
    var types: Counts<string> := [];
    var tables: Counts<string> := [];
    var joins: Counts<string> := [];
    var aggregations: Counts<string> := [];
    var filters: Counts<string> := [];
    var groupBys: Counts<string> := [];
    var cte := 0;
    var timeSum := 0.0;
    var frequent: seq<FrequentQuery> := [];
    for i := 0 to |ps|
      invariant types == CountAll(FlatEvents(ps[..i], TypeUses))
      invariant tables == CountAll(FlatEvents(ps[..i], TableUses))
      invariant joins == CountAll(FlatEvents(ps[..i], JoinUses))
      invariant aggregations == CountAll(FlatEvents(ps[..i], AggregationUses))
      invariant filters == CountAll(FlatEvents(ps[..i], FilterUses))
      invariant groupBys == CountAll(FlatEvents(ps[..i], GroupByUses))
      invariant cte == CountWhere(ps[..i], UsesCte)
      invariant timeSum == SumExecutionTime(ps[..i])
      invariant frequent == Kept(ps[..i], IsFrequent, FrequentEntry)
    {
      types, joins, aggregations := CountKinds(types, joins, aggregations, ps, i);
      tables, filters, groupBys := CountRuns(tables, filters, groupBys, ps, i);
      cte, timeSum, frequent := CountRest(cte, timeSum, frequent, ps, i);
    }
    assert ps[..|ps|] == ps;
    assert TallyOf(ps) == Tally(types, tables, joins, aggregations, filters, groupBys, cte, timeSum, frequent);
    stats := QueryStatistics(|ps|, types, tables, joins, aggregations, filters, groupBys, cte,
      if ps == [] then 0.0 else timeSum / (|ps| as real), frequent);
  }

  /** Every pattern adds one to the query-type counter: the counts add up to the number of queries. */
  lemma {:induction false} QueryTypesTotal(ps: seq<QueryPattern>)
    ensures Total(StatisticsOf(ps).queryTypes) == |ps|
    ensures Distinct(Keys(StatisticsOf(ps).queryTypes))
  {
    CountAllSound(FlatEvents(ps, TypeUses));
    TypeEventsSum(ps);
  }

  lemma {:induction false} TypeEventsSum(ps: seq<QueryPattern>)
    ensures SumWeights(FlatEvents(ps, TypeUses)) == |ps|
    decreases |ps|
  {
    if ps != [] {
      var init := ps[..|ps| - 1];
      TypeEventsSum(init);
      SumWeightsAppend(FlatEvents(init, TypeUses), TypeUses(ps[|ps| - 1]));
      SumWeighted([ps[|ps| - 1].queryType.Name()], 1);
    }
  }

  /** The runs of the patterns that read table `t`. */
  function RunsReading(t: string): QueryPattern -> int
  {
    (p: QueryPattern) => if t in p.tablesUsed then p.runQuantity else 0
  }

  /**
   * A table's usage is the total run quantity of the queries that read it: each
   * query counts once per table however often the table appears in its text.
   */
  lemma TableUsageIsRunWeighted(ps: seq<QueryPattern>, t: string)
    requires forall i :: 0 <= i < |ps| ==> Distinct(ps[i].tablesUsed)
    ensures Get(StatisticsOf(ps).mostUsedTables, t) == SumOf(ps, RunsReading(t))
  {
    CountAllSound(FlatEvents(ps, TableUses));
    forall i | 0 <= i < |ps| ensures WeightOf(TableUses(ps[i]), t) == RunsReading(t)(ps[i]) {
      WeightedOnce(ps[i].tablesUsed, ps[i].runQuantity, t);
    }
    FlatEventsWeight(ps, TableUses, t, RunsReading(t));
  }

  /** The runs a GROUP BY column gets from a pattern: once per occurrence in its clause. */
  function GroupByRuns(c: string): QueryPattern -> int
  {
    (p: QueryPattern) => p.runQuantity * Occurrences(p.groupByColumns, c)
  }

  /** A GROUP BY column listed twice in one query is counted twice, both times weighted by the runs. */
  lemma GroupByUsageIsRunWeighted(ps: seq<QueryPattern>, c: string)
    ensures Get(StatisticsOf(ps).mostUsedGroupByColumns, c) == SumOf(ps, GroupByRuns(c))
  {
    CountAllSound(FlatEvents(ps, GroupByUses));
    forall i | 0 <= i < |ps| ensures WeightOf(GroupByUses(ps[i]), c) == GroupByRuns(c)(ps[i]) {
      WeightedCount(ps[i].groupByColumns, ps[i].runQuantity, c);
    }
    FlatEventsWeight(ps, GroupByUses, c, GroupByRuns(c));
  }

  /** One for a pattern that uses aggregate `a`. */
  function Mentions(a: string): QueryPattern -> int
  {
    (p: QueryPattern) => if a in p.aggregations then 1 else 0
  }

  /** Aggregation usage counts queries, not runs. */
  lemma AggregationUsageCountsQueries(ps: seq<QueryPattern>, a: string)
    requires forall i :: 0 <= i < |ps| ==> Distinct(ps[i].aggregations)
    ensures Get(StatisticsOf(ps).aggregationUsage, a) == SumOf(ps, Mentions(a))
  {
    CountAllSound(FlatEvents(ps, AggregationUses));
    forall i | 0 <= i < |ps| ensures WeightOf(AggregationUses(ps[i]), a) == Mentions(a)(ps[i]) {
      WeightedOnce(ps[i].aggregations, 1, a);
    }
    FlatEventsWeight(ps, AggregationUses, a, Mentions(a));
  }

  /** The number of joins of type `jt` in a pattern. */
  function JoinsOfType(jt: string): QueryPattern -> int
  {
    (p: QueryPattern) => Occurrences(JoinTypes(p.joins), jt)
  }

  /** Join patterns count every join, unweighted by runs. */
  lemma JoinUsageCountsJoins(ps: seq<QueryPattern>, jt: string)
    ensures Get(StatisticsOf(ps).joinPatterns, jt) == SumOf(ps, JoinsOfType(jt))
  {
    CountAllSound(FlatEvents(ps, JoinUses));
    forall i | 0 <= i < |ps| ensures WeightOf(JoinUses(ps[i]), jt) == JoinsOfType(jt)(ps[i]) {
      WeightedCount(JoinTypes(ps[i].joins), 1, jt);
    }
    FlatEventsWeight(ps, JoinUses, jt, JoinsOfType(jt));
  }

  /** The frequent list holds exactly the patterns run more than 100 times, in input order. */
  lemma FrequentQueriesExactly(ps: seq<QueryPattern>)
    ensures forall k :: 0 <= k < |StatisticsOf(ps).highFrequencyQueries| ==>
      StatisticsOf(ps).highFrequencyQueries[k].runQuantity > 100
    ensures forall i :: 0 <= i < |ps| && ps[i].runQuantity > 100 ==>
      FrequentEntry(ps[i]) in StatisticsOf(ps).highFrequencyQueries
  {
    assert StatisticsOf(ps).highFrequencyQueries == Kept(ps, IsFrequent, FrequentEntry);
    FrequentOnly(ps);
    FrequentAll(ps);
  }

  lemma FrequentOnly(ps: seq<QueryPattern>)
    ensures forall k :: 0 <= k < |Kept(ps, IsFrequent, FrequentEntry)| ==> Kept(ps, IsFrequent, FrequentEntry)[k].runQuantity > 100
  {
    var hf := Kept(ps, IsFrequent, FrequentEntry);
    forall k | 0 <= k < |hf| ensures hf[k].runQuantity > 100 {
      KeptFrom(ps, IsFrequent, FrequentEntry, k);
    }
  }

  lemma FrequentAll(ps: seq<QueryPattern>)
    ensures forall i :: 0 <= i < |ps| && ps[i].runQuantity > 100 ==> FrequentEntry(ps[i]) in Kept(ps, IsFrequent, FrequentEntry)
  {
    forall i | 0 <= i < |ps| && ps[i].runQuantity > 100 ensures FrequentEntry(ps[i]) in Kept(ps, IsFrequent, FrequentEntry) {
      KeptAt(ps, IsFrequent, FrequentEntry, i);
    }
  }
}
