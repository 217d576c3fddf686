# SQL workload analysis core, modelled in Dafny

This project models the analysis core of a heuristic SQL-workload optimizer. The
optimizer reads a set of `CREATE TABLE` statements and a workload of queries, each
with an id, its SQL text, how often it ran (`runquantity`) and how long it took
(`executiontime`), and derives:

- **DDL parsing** (`DdlParser`, `ddl_parser.dfy`): the tables and columns of each
  `CREATE TABLE ... (...) WITH (...)` statement, and the per-schema and per-type
  histograms over them.
- **Query patterns** (`QueryAnalyzer`, `query_analyzer.dfy`): per query its type,
  tables, joins, aggregate and window functions, CTE use, subquery count and GROUP
  BY / ORDER BY items, all found by regular-expression scans that the model writes out
  as explicit scans; and the workload statistics folded over those patterns.
- **Schema insights** (`DashboardUtils`, `dashboard_utils.dfy`): data-quality counts,
  primary-key detection, resolution of FROM/JOIN references against the known
  tables, and the partitioning and denormalization heuristics.
- **The optimization report** (`ReportCreator`, `report_creator.dfy`): bottlenecks,
  materialized-view candidates, key patterns, a schema digest, recommendations and the
  executive summary.
- **The offline fallback** (`OfflineFallback`, `offline_fallback.dfy`): the analysis
  used when no database is reachable, and the Markdown report built from it.
- **The statistics collector** (`DbStatsCollector`, `db_stats_collector.dfy`): the
  decisions the live-database collector takes on its own. These are reading a JDBC
  URL, building the SQLAlchemy URL, choosing a Trino catalog, splitting table names,
  estimating sizes and keeping the per-table results. It is a class whose `engine`
  and `actualCatalog` fields change on `Connect` and `Close`.

Shared modules:

- `Text` (`text.dfy`): `strip`, `split`, `lower`/`upper`, substring search and
  decimal printing.
- `Scan` (`scan.dfy`): the regular-expression scans shared by several files.
- `Counters` (`counters.dfy`): insertion-ordered counters, the model of Python's
  `dict`/`Counter` histograms.
- `Sorting` (`sorting.dfy`): stable descending sort, string sort, `[:n]`.
- `Lists` (`lists.dfy`): filter-and-map and its lemmas.
- `Wrappers` (`wrappers.dfy`): `Option`/`Result`.

Loops of the source are methods with loop invariants. Each is proved equal to a
specification function, and the properties are proved about that function. Where the
source catches an exception, or raises one of its own, the model returns an
`Option`/`Result` value. So do the `ValueError`s of `urlparse` and of reading its
port, and the `KeyError`s of the offline fallback for a missing `runquantity` or
`executiontime` (`OfflineFallback.CountJoinSets`, `OfflineFallback.ExpensiveRowOf`).
The other `KeyError`s for a missing `queryid` or `query`, and the `TypeError` and
`AttributeError` of a null field, are not modelled; "## Left out" lists them.

## Model

| member | source | states |
|---|---|---|
| DdlParser.TableNameAt | src/ddl_parser.py:67 | a match of `CREATE TABLE\s+([^\s(]+)` at one position, ignoring case: the name starts after at least one whitespace character, holds no whitespace or `(`, and is maximal |
| DdlParser.ExtractTableName | src/ddl_parser.py:65-68 | the name is made only of name characters (no whitespace, no `(`); `""` when there is no match |
| DdlParser.TableNameFromEmpty | src/ddl_parser.py:67-68 | the name is empty exactly when the pattern matches at no position |
| DdlParser.TableNameWithoutKeyword | src/ddl_parser.py:67-68 | text without `CREATE TABLE` in any letter case gives the empty name |
| DdlParser.TableNameOfStatement | src/ddl_parser.py:67-68 | a statement starting `CREATE TABLE ` gives back the whole name run that follows |
| DdlParser.ParseFullTableName | src/ddl_parser.py:70-78 | three dot-separated parts are catalog, schema and name and join back to the input; two parts give an empty catalog; no dot keeps the whole input as the name; four or more keep only the first part as the name |
| DdlParser.LastCloseWith | src/ddl_parser.py:85 | the greedy `(.*)` ends at the last `)` followed by optional whitespace and `WITH`: the position found matches and no later one does |
| DdlParser.ColumnsBlockAt | src/ddl_parser.py:85 | a match of the column-block pattern at one position: the group starts right after the first `(` past `CREATE TABLE` and ends before a `)` followed by `WITH` |
| DdlParser.ColumnsBlockFrom | src/ddl_parser.py:85-87 | `re.search` of the column-block pattern: a found group lies inside the text |
| DdlParser.ColumnsBlockNeedsClose | src/ddl_parser.py:85-87 | text without `)` never yields a column block |
| DdlParser.SplitColumnDefinitions | src/ddl_parser.py:101-104 | at most one definition more than there are commas; every definition is stripped, non-blank and comma-free |
| DdlParser.NonBlankStrippedTrimmed | src/ddl_parser.py:104 | pieces that are already stripped and non-blank pass through unchanged |
| DdlParser.SplitColumnDefinitionsOfJoin | src/ddl_parser.py:101-104 | stripped comma-free definitions joined with commas are split back into the same list |
| DdlParser.SplitIgnoresParentheses | src/ddl_parser.py:103-104 | the split does not respect parentheses: `price decimal(10,2)` becomes `price decimal(10` and `2)` |
| DdlParser.ParseColumnDefinition | src/ddl_parser.py:106-123 | a column exactly when there are at least two whitespace-separated tokens; its name is token 0 and its type starts with token 1; nullable, with no constraints |
| DdlParser.ParseColumnOfTokens | src/ddl_parser.py:109-120 | for space-joined tokens: the type is token 1 plus token 2 exactly when token 1 has `(` but no `)` and a third token exists, else token 1 |
| DdlParser.ParseColumns | src/ddl_parser.py:94-97 | at most one column per definition, all nullable without constraints |
| DdlParser.ColumnsOf | src/ddl_parser.py:80-99 | no column block gives no columns; every column is nullable without constraints |
| DdlParser.ExtractColumns | src/ddl_parser.py:80-99 | the loop returns exactly `ColumnsOf`; no column block gives the empty list |
| DdlParser.CreateTable | src/ddl_parser.py:49-60 | the table's catalog, schema and name are the split of the extracted name, its columns the extracted columns, with no indexes or constraints |
| DdlParser.ParseCreateTable | src/ddl_parser.py:43-63 | a table exactly when the statement tokenizes, and then exactly `CreateTable` |
| DdlParser.ParsedTables | src/ddl_parser.py:31-41 | one table per statement that tokenizes: the length is the number of statements minus the failing ones |
| DdlParser.ParseDdlStatements | src/ddl_parser.py:31-41 | the loop returns exactly `ParsedTables`, of that length |
| DdlParser.ParsedTablesOrder | src/ddl_parser.py:35-39 | the table of a statement that tokenizes sits right after those of the earlier statements: input order is kept |
| DdlParser.BaseType | src/ddl_parser.py:147 | the base type is never longer than the declared type |
| DdlParser.SchemaEvents | src/ddl_parser.py:137-139 | one count per table: as many events as tables, adding up to the number of tables |
| DdlParser.ColumnEvents | src/ddl_parser.py:146-148 | one count per column, adding up to the number of columns |
| DdlParser.TypeEvents | src/ddl_parser.py:145-148 | the column events of all tables add up to the total number of columns |
| DdlParser.GroupBySchema | src/ddl_parser.py:134-140 | the loop builds the histogram of `catalog.schema` keys: counts add up to the number of tables, keys are distinct, each count is the number of tables with that key |
| DdlParser.ColumnTypesStats | src/ddl_parser.py:142-149 | the nested loop builds the histogram of base types: counts add up to the number of columns, keys are distinct, each count is the number of columns with that type |
| DdlParser.CountColumnTypes | src/ddl_parser.py:146-148 | the inner loop adds one table's base types to the running histogram |
| DdlParser.GetTableStats | src/ddl_parser.py:125-132 | totals are the number of tables and of columns, and each histogram adds up to its total |
| QueryAnalyzer.Classify | src/query_analyzer.py:84-94 | upper-cased, stripped text that starts with SELECT or WITH is a SELECT, and it is UNKNOWN exactly when it starts with none of SELECT, WITH, INSERT, UPDATE, DELETE |
| QueryAnalyzer.QueryTypeIgnoresCaseAndIndent | src/query_analyzer.py:82-94 | leading whitespace and letter case never change the query type |
| QueryAnalyzer.LeadingKeywordType | src/query_analyzer.py:82-94 | a query whose text begins, in any case, with a statement keyword has that keyword's type |
| QueryAnalyzer.ExtractTables | src/query_analyzer.py:96-109 | the tables are exactly the identifiers after a FROM or JOIN word, each listed once, all of the identifier shape of the pattern |
| QueryAnalyzer.TablesOf | src/query_analyzer.py:101-107 | the table set has no duplicates and holds a name iff some FROM/JOIN match captures it |
| QueryAnalyzer.JoinKeywordEnd | src/query_analyzer.py:116 | the optional INNER/LEFT/RIGHT/FULL/CROSS prefix is followed by the word JOIN, which ends the match |
| QueryAnalyzer.AliasAt | src/query_analyzer.py:116 | the optional `AS alias` group consumes input exactly when it captures a non-empty alias |
| QueryAnalyzer.ConditionAt | src/query_analyzer.py:116 | the optional ON condition consumes input exactly when it captures one, and it ends only before whitespace and JOIN, WHERE, GROUP, ORDER, LIMIT or the end of text |
| QueryAnalyzer.JoinTableAt | src/query_analyzer.py:116 | the joined table follows whitespace and has the identifier shape |
| QueryAnalyzer.JoinAt | src/query_analyzer.py:116-118 | a join match advances the scan and has a keyword ending in JOIN and an identifier-shaped table |
| QueryAnalyzer.JoinMatchesShaped | src/query_analyzer.py:116-118 | every match `re.findall` returns has an identifier-shaped table and a keyword ending in JOIN |
| QueryAnalyzer.JoinsNeedKeyword | src/query_analyzer.py:116-118 | a query without the word JOIN has no joins |
| QueryAnalyzer.JoinsOf | src/query_analyzer.py:120-127 | one join descriptor per match, each with an identifier-shaped table |
| QueryAnalyzer.ExtractJoins | src/query_analyzer.py:111-129 | the loop builds one descriptor per match, in match order |
| QueryAnalyzer.CallAt | src/query_analyzer.py:137 | a function-call match ends at an opening parenthesis after the name |
| QueryAnalyzer.WindowIsCall | src/query_analyzer.py:177-187 | every window-function call `F() OVER (` is also matched as a call of F |
| QueryAnalyzer.AggregateFunctionsDistinct | src/query_analyzer.py:32-35 | the aggregate vocabulary names each function once |
| QueryAnalyzer.ExtractAggregations | src/query_analyzer.py:131-141 | the result holds each aggregate function once, and holds it iff the query calls it |
| QueryAnalyzer.ExtractWindowFunctions | src/query_analyzer.py:177-187 | the result holds each window function once, and holds it iff the query calls it as `F() OVER (` |
| QueryAnalyzer.HasCte | src/query_analyzer.py:149-151 | true iff `WITH name AS (` occurs somewhere, in any case |
| QueryAnalyzer.SelectCount | src/query_analyzer.py:156 | `len(re.findall(r'\bSELECT\b', ...))` equals the number of positions where `\bSELECT\b` matches, ignoring case: resuming the scan after each match loses none |
| QueryAnalyzer.CountSubqueries | src/query_analyzer.py:153-157 | the subquery count is one less than the number of positions where `\bSELECT\b` matches, and zero when it matches nowhere |
| QueryAnalyzer.SubqueriesIffNestedSelect | src/query_analyzer.py:153-157 | there are subqueries exactly when `\bSELECT\b` matches at two different positions |
| QueryAnalyzer.SelectCountBound | src/query_analyzer.py:156 | SELECT matches do not overlap: at most one per six characters |
| QueryAnalyzer.ClauseAt | src/query_analyzer.py:159-175 | a clause match captures a non-empty span followed by whitespace and a stop word or the end of text |
| QueryAnalyzer.ClauseFrom | src/query_analyzer.py:159-175 | the first clause match from a position has the same shape |
| QueryAnalyzer.ClauseItems | src/query_analyzer.py:163-175 | no match gives no items; a match gives one comma-free item per comma plus one |
| QueryAnalyzer.ClauseNeedsLookahead | src/query_analyzer.py:159-175 | without a place where whitespace and a stop word or the end of text follow, nothing matches |
| QueryAnalyzer.GroupByNeedsLookahead | src/query_analyzer.py:159-166 | GROUP BY yields no columns unless HAVING, ORDER, LIMIT or the end of text follows after whitespace |
| QueryAnalyzer.OrderByNeedsLookahead | src/query_analyzer.py:168-175 | ORDER BY yields no columns unless LIMIT or the end of text follows after whitespace |
| QueryAnalyzer.PatternOf | src/query_analyzer.py:54-77 | the pattern keeps the record's id, defaults a missing run quantity and execution time to 0, and has no WHERE conditions |
| QueryAnalyzer.AnalyzeSingleQuery | src/query_analyzer.py:52-80 | a record yields a pattern iff its text tokenizes, and that pattern is the record's pattern |
| QueryAnalyzer.PatternsKeepOrder | src/query_analyzer.py:45-48 | each record that tokenizes contributes its pattern at its position among the kept records |
| QueryAnalyzer.PatternsFromRecords | src/query_analyzer.py:45-48 | every pattern comes from a record that tokenizes and lists its tables once each |
| QueryAnalyzer.AllRecordsAnalyzed | src/query_analyzer.py:41-50 | when every record tokenizes there is one pattern per record |
| QueryAnalyzer.AnalyzeQueries | src/query_analyzer.py:41-50 | the loop returns the patterns of the records that tokenize, in input order |
| QueryAnalyzer.JoinTypes | src/query_analyzer.py:259-260 | the join types of a pattern, one per join, in order |
| QueryAnalyzer.CountKinds | src/query_analyzer.py:243-263 | after each pattern the type, join and aggregation counters are the counts of all events so far |
| QueryAnalyzer.CountRuns | src/query_analyzer.py:246-256 | after each pattern the table, filter and GROUP BY counters are the run-weighted counts so far |
| QueryAnalyzer.CountRest | src/query_analyzer.py:238-270 | the CTE count, the execution-time sum and the frequent list agree with the patterns seen so far |
| QueryAnalyzer.GetQueryStatistics | src/query_analyzer.py:228-276 | the loop computes the statistics of the pattern list, and the CTE count never exceeds the total |
| QueryAnalyzer.QueryTypesTotal | src/query_analyzer.py:231-244 | the query-type counts add up to the number of queries, one entry per type |
| QueryAnalyzer.TableUsageIsRunWeighted | src/query_analyzer.py:246-247 | a table's usage is the summed run quantity of the queries reading it |
| QueryAnalyzer.GroupByUsageIsRunWeighted | src/query_analyzer.py:254-256 | a GROUP BY item's usage is its occurrences weighted by run quantity |
| QueryAnalyzer.AggregationUsageCountsQueries | src/query_analyzer.py:262-263 | an aggregate's usage counts the queries using it, not their runs |
| QueryAnalyzer.JoinUsageCountsJoins | src/query_analyzer.py:259-260 | a join type's usage counts every join of that type, unweighted |
| QueryAnalyzer.FrequentQueriesExactly | src/query_analyzer.py:265-270 | the frequent list holds exactly the patterns run more than 100 times |
| DashboardUtils.ColumnWithPrimaryKey | src/dashboard_utils.py:117-130 | true iff some column from the given index has a constraint mentioning PRIMARY KEY in any case |
| DashboardUtils.HasPrimaryKey | src/dashboard_utils.py:114-141 | true iff a column constraint or a table constraint mentions PRIMARY KEY in any case; a missing list counts as empty |
| DashboardUtils.ParsedTablesLackPrimaryKeys | src/dashboard_utils.py:114-141 | every table the DDL parser returns lacks a primary key, since the parser records no constraints |
| DashboardUtils.Unconstrained | src/dashboard_utils.py:114-141 | a table without any constraint has no primary key |
| DashboardUtils.LowerTexts | src/dashboard_utils.py:86 | one lower-cased text per query, in order |
| DashboardUtils.ContainsInJoin | src/dashboard_utils.py:86 | a substring of one query stays a substring of the space-joined text |
| DashboardUtils.NamedTableNotOrphaned | src/dashboard_utils.py:85-91 | a table whose name appears, in any case, inside some query is not orphaned |
| DashboardUtils.NullableColumns | src/dashboard_utils.py:79 | the nullable columns never outnumber the columns |
| DashboardUtils.NullablePercent | src/dashboard_utils.py:95 | the exact nullable share lies between 0 and 100 and is 0 without columns |
| DashboardUtils.QualityRecommendations | src/dashboard_utils.py:94-103 | one recommendation per problem found (over 50% nullable, tables without a key, orphaned tables), none iff there is no problem |
| DashboardUtils.AnalyzeDataQuality | src/dashboard_utils.py:68-111 | no tables give all zeros; otherwise the column total, the nullable share rounded to a tenth, and the counts of tables without a key and of orphaned tables, each at most the number of tables |
| DashboardUtils.RemoveQuotes | src/dashboard_utils.py:158 | the result has no double quote or backtick, keeps only characters of the input, leaves quote-free text unchanged, and maps one character to nothing if it is a quote and to itself otherwise |
| DashboardUtils.RemoveQuotesAppend | src/dashboard_utils.py:158 | removing quotes works character by character: the result for `a + b` is the result for `a` followed by the result for `b`; with the one-character case this fixes the result |
| DashboardUtils.Normalize | src/dashboard_utils.py:157-158 | the result has no quote, no upper-case letter and no surrounding white space |
| DashboardUtils.NormalizeIdempotent | src/dashboard_utils.py:157-158 | normalizing twice is normalizing once |
| DashboardUtils.NormalizeFixes | src/dashboard_utils.py:157-158 | text without quotes, upper-case letters or surrounding white space is its own normal form |
| DashboardUtils.NonEmptyParts | src/dashboard_utils.py:185 | the kept parts are non-empty and no more than the parts |
| DashboardUtils.Forms | src/dashboard_utils.py:186-192 | up to three forms, one per available trailing part count, non-empty when the parts are |
| DashboardUtils.AllForms | src/dashboard_utils.py:182-193 | at most three distinct non-empty forms |
| DashboardUtils.PartsOf | src/dashboard_utils.py:184-185 | every dot-separated part of the normalized reference is non-empty |
| DashboardUtils.QualifiedReferenceForms | src/dashboard_utils.py:182-193 | a clean `schema.table` reference has the forms `table` then `schema.table` |
| DashboardUtils.AddTable | src/dashboard_utils.py:161-170 | indexing a table adds its bare and qualified keys, points them at its canonical name and leaves other keys as they were |
| DashboardUtils.KnownKeysDomain | src/dashboard_utils.py:160-174 | the index holds exactly the keys of the tables |
| DashboardUtils.KnownKeysLastWins | src/dashboard_utils.py:160-174 | each key names the canonical name of the last table indexed under it |
| DashboardUtils.AddKeys | src/dashboard_utils.py:162-174 | the loop body indexes one table as AddTable says |
| DashboardUtils.BuildKnownKeys | src/dashboard_utils.py:160-174 | the loop builds the index of all tables |
| DashboardUtils.KnownCanons | src/dashboard_utils.py:218 | the known canonical names are listed once each |
| DashboardUtils.KnownCanonsAreIndexed | src/dashboard_utils.py:177-218 | the known canonical names are exactly the values of the index |
| DashboardUtils.FirstKnown | src/dashboard_utils.py:203-207 | the position of the first form that is a known key, or none when no form is known |
| DashboardUtils.FindKnown | src/dashboard_utils.py:203-207 | the loop stops at the first known form |
| DashboardUtils.ResolveForms | src/dashboard_utils.py:202-215 | nothing is credited iff there is no form; a known form credits a known canonical name; otherwise one of the reference's own forms is credited |
| DashboardUtils.BareNameWins | src/dashboard_utils.py:203-207 | a `schema.table` reference whose bare name is known credits what the bare name points to, even when the qualified name is known too |
| DashboardUtils.ResolvedKeysHas | src/dashboard_utils.py:201-215 | every reference that resolves contributes its key |
| DashboardUtils.ResolveRef | src/dashboard_utils.py:202-215 | the loop over the forms and its fallback pick the key ResolveForms states |
| DashboardUtils.CreditRef | src/dashboard_utils.py:202-215 | the resolved key, if any, gains the query's run count |
| DashboardUtils.CreditRefs | src/dashboard_utils.py:201-215 | the inner loop credits every resolved reference of a query with its run count |
| DashboardUtils.CreditQuery | src/dashboard_utils.py:196-215 | one query credits its resolved references with its run count |
| DashboardUtils.CreditQueries | src/dashboard_utils.py:195-215 | the outer loop credits every query's references |
| DashboardUtils.MaxEntry | src/dashboard_utils.py:224-225 | none iff the counter is empty; otherwise the first entry with the largest count |
| DashboardUtils.AnalyzeQueryCoverage | src/dashboard_utils.py:144-235 | no queries give every table usage 0 and all tables unused; otherwise the usage sorted descending, the known canonical names with usage 0, and the maximum entry |
| DashboardUtils.KnownTablesCounted | src/dashboard_utils.py:177 | every known table has a usage entry, even when no query names it |
| DashboardUtils.UsageIsCredits | src/dashboard_utils.py:177-215 | a usage count is exactly the run counts the queries credit to its key |
| DashboardUtils.QueryCreditsRef | src/dashboard_utils.py:201-215 | a query credits each reference it resolves with at least its run count |
| DashboardUtils.ReferencedTableIsUsed | src/dashboard_utils.py:195-219 | with non-negative run counts, a table referenced by a query is credited at least its run count, and with a positive count it is not unused |
| DashboardUtils.CandidateOf | src/dashboard_utils.py:255-271 | a temporal column gets range partitioning, any other partitionable column list partitioning, with the column's name and type |
| DashboardUtils.TableLabel | src/dashboard_utils.py:274 | the label is `schema.name`, or the bare name when the schema is empty |
| DashboardUtils.ColumnCandidates | src/dashboard_utils.py:250-271 | the inner loop keeps one entry per partitionable column, in order |
| DashboardUtils.IdentifyPartitioningCandidates | src/dashboard_utils.py:238-280 | the loop lists the tables with candidates and their entries |
| DashboardUtils.HasCandidatesIff | src/dashboard_utils.py:273 | a table is listed iff one of its columns is partitionable |
| DashboardUtils.PartitioningCandidatesExactly | src/dashboard_utils.py:247-278 | every listed table has candidates, and every table with a partitionable column is listed |
| DashboardUtils.ColumnCandidateFrom | src/dashboard_utils.py:250-271 | each proposed column is a partitionable column of its table, with range strategy iff temporal |
| DashboardUtils.JoinKindsIn | src/dashboard_utils.py:309-314 | INNER, LEFT and RIGHT are each counted at most once per query, iff their phrases occur |
| DashboardUtils.Grade | src/dashboard_utils.py:316-330 | high iff complex joins exceed 1000, medium iff not and total joins exceed 5000, else low, with 3, 2 or 1 recommendations |
| DashboardUtils.IdentifyDenormalizationOpportunities | src/dashboard_utils.py:283-338 | the loop computes the report of the tables and queries: at most one table gives the low "already denormalized" answer |
| DashboardUtils.TallyJoins | src/dashboard_utils.py:297-306 | after each query the totals are the run-weighted JOIN counts and complex-query runs so far |
| DashboardUtils.ComplexJoinsBounded | src/dashboard_utils.py:302-306 | with non-negative runs every complex query accounts for at least four join operations per run |
| DashboardUtils.HighNeedsComplexQuery | src/dashboard_utils.py:305-320 | a high level needs a run query with more than three JOIN words |
| DashboardUtils.NoJoinsIsLow | src/dashboard_utils.py:297-330 | without the word JOIN anywhere the report is low with nothing counted |
| DashboardUtils.JoinPhrasesNeedJoin | src/dashboard_utils.py:309-314 | text without JOIN mentions no join kind |
| DashboardUtils.JoinKindDistribution | src/dashboard_utils.py:308-336 | each kind is credited the total runs of the queries mentioning it, once per query, and only INNER, LEFT and RIGHT appear |
| ReportCreator.IdentifyBottlenecks | src/report_creator.py:53-96 | the loop builds the bottleneck list of the patterns, which has at most two entries |
| ReportCreator.SlowEntryLeads | src/report_creator.py:59-75 | the list starts with a slow-query entry iff some query takes more than 30 seconds |
| ReportCreator.VolumeEntryEnds | src/report_creator.py:77-94 | the list ends with a high-volume entry iff some query runs more than 1000 times |
| ReportCreator.SlowQueriesListed | src/report_creator.py:60-74 | the slow-query details list every slow query, as many as the count says |
| ReportCreator.SlowDetailsOrdered | src/report_creator.py:60-74 | the slow-query details hold only queries over 30 seconds, by impact score descending |
| ReportCreator.VolumeDetailsOrdered | src/report_creator.py:78-93 | the high-volume details hold at most five queries (all when fewer), each run more than 1000 times, by run quantity descending |
| ReportCreator.VolumeTotalBounded | src/report_creator.py:78-84 | the total executions cover all high-volume queries: at least 1001 per counted query |
| ReportCreator.GroupsWellGrouped | src/report_creator.py:160-167 | every group key is listed once and each group is non-empty and holds only patterns of its key |
| ReportCreator.FrequentPatternGrouped | src/report_creator.py:162-167 | every pattern run more than 500 times lands in the group of its sorted aggregations |
| ReportCreator.GroupList | src/report_creator.py:169 | the groups in insertion order, each with its members |
| ReportCreator.AddPattern | src/report_creator.py:165-167 | opens a group for a new key and appends the pattern |
| ReportCreator.GroupFrequent | src/report_creator.py:160-167 | the grouping loop groups the frequently run patterns by aggregation key |
| ReportCreator.RepeatedGroups | src/report_creator.py:169-178 | the candidate loop yields one candidate per group of two or more, in group order |
| ReportCreator.IdentifyMvCandidates | src/report_creator.py:155-180 | the candidates are the repeated groups, sorted by total executions descending, at most three |
| ReportCreator.MvCandidatesFacts | src/report_creator.py:155-180 | at most three candidates, each of at least two queries, over 500 runs each, high savings iff over 5000 executions, sorted descending |
| ReportCreator.ExtractKeyPatterns | src/report_creator.py:132-153 | the loop computes the key patterns of the analysis data |
| ReportCreator.TopAggregationsFacts | src/report_creator.py:141-151 | at most five aggregations, most used first, each weighted by the runs of the patterns listing it |
| ReportCreator.CtePercentBounded | src/report_creator.py:149 | the CTE share of the same patterns, rounded to a tenth, is a percentage |
| ReportCreator.FirstNamed | src/report_creator.py:109-127 | at most n names, a prefix of the matching columns' names, all of them when fewer |
| ReportCreator.FirstNamedMatch | src/report_creator.py:109-119 | each reported name is a column whose lower-cased name contains one of the words |
| ReportCreator.SchemaInsightsOf | src/report_creator.py:98-130 | nothing iff there are no tables; otherwise the first table's column count and candidate lists capped at 3, 2 and 3 |
| ReportCreator.TimeColumnsProposed | src/report_creator.py:109-123 | every column of the first table with a time word in its name is a partitioning candidate |
| ReportCreator.GenerateRecommendations | src/report_creator.py:182-231 | the appends build the recommendation list of the patterns |
| ReportCreator.RecommendationsShape | src/report_creator.py:182-231 | partitioning first, indexing and compression last, and a materialized-view entry second iff there are candidates, naming how many |
| ReportCreator.ExecutiveSummaryFacts | src/report_creator.py:239-246 | the daily volume is the total runs of the high-volume queries, and the critical issues are 1 iff some query is slow, else 0 |
| ReportCreator.SummaryOfEntries | src/report_creator.py:243-245 | over a slow entry followed by a volume entry, the volume comes from the volume entry and the issues count the slow entry |
| OfflineFallback.ProblemsOf | src/offline_fallback.py:64-74 | at most the two problems, each once: random ordering iff `order by random()` or `order by rand()` occurs in the lower-cased text, cross join iff `cross join` occurs in any case, random ordering first |
| OfflineFallback.DetailsNameProblem | src/offline_fallback.py:64-74 | two problems have the same details text iff they are the same problem |
| OfflineFallback.Operands | src/offline_fallback.py:77-80 | both sides of every ON pair, left then right, in pair order |
| OfflineFallback.AnalyzeOne | src/offline_fallback.py:49-82 | one loop iteration extends every running total by the next query |
| OfflineFallback.TallyQueries | src/offline_fallback.py:31-82 | the first loop counts the tables and the join keys run-weighted, records one processed entry per query, and sums runs and time |
| OfflineFallback.CountJoinSets | src/offline_fallback.py:94-98 | the second loop raises exactly when a ranked query with more than two tables lacks `runquantity`; otherwise it counts each sorted table tuple with its runs |
| OfflineFallback.AddJoinSet | src/offline_fallback.py:96-98 | one iteration of the second loop on a query that does not raise |
| OfflineFallback.AppendRewrites | src/offline_fallback.py:110-115 | the rewrite list grows by one entry per problem of the query |
| OfflineFallback.SuggestMv | src/offline_fallback.py:92-105 | the materialized-view step yields the suggestions of the ranked queries |
| OfflineFallback.CollectRewrites | src/offline_fallback.py:107-115 | the last loop yields the rewrites of the queries in ranked order |
| OfflineFallback.AnalyzeQueries | src/offline_fallback.py:7-133 | the whole procedure computes the analysis of the queries, or the error it raises |
| OfflineFallback.EmptyWorkload | src/offline_fallback.py:19-29 | no queries give zero totals and empty lists |
| OfflineFallback.TotalsDefault | src/offline_fallback.py:51-56 | a missing run quantity counts as one run and a missing execution time as no time |
| OfflineFallback.TableUsage | src/offline_fallback.py:59-61 | a table's count is the summed run quantity of the queries naming it, once per query |
| OfflineFallback.MostUsedTablesWeighted | src/offline_fallback.py:123 | at most five tables, heaviest first, each with its run-weighted usage |
| OfflineFallback.MostUsedTablesComplete | src/offline_fallback.py:123 | a table left out is outranked by five listed ones |
| OfflineFallback.JoinKeyUsage | src/offline_fallback.py:77-80 | a join key's count is each query's run quantity times the ON sides the key occupies there |
| OfflineFallback.TopJoinKeysRanked | src/offline_fallback.py:89 | at most five join keys, in non-increasing order of their counts |
| OfflineFallback.TopJoinKeysComplete | src/offline_fallback.py:89 | a join key left out is outranked by the five recommended |
| OfflineFallback.MostExpensiveRanked | src/offline_fallback.py:85-124 | the first five queries by total time, highest first; a query left out takes no more time than any listed |
| OfflineFallback.MvSuggestionWhenJoined | src/offline_fallback.py:92-105 | at most one suggestion, given iff a ranked query names more than two distinct tables |
| OfflineFallback.MvSuggestionHeaviest | src/offline_fallback.py:100-105 | the suggested tuple carries its counted runs and no tuple was counted more |
| OfflineFallback.RewritesListed | src/offline_fallback.py:107-115 | a rewrite is listed iff its query has that problem |
| OfflineFallback.RewritesComplete | src/offline_fallback.py:107-115 | the rewrites name every problem of every query and nothing else |
| OfflineFallback.RunQuantitiesGiven | src/offline_fallback.py:95-98 | when every query carries a run quantity the analysis does not raise |
| OfflineFallback.Truncate | src/offline_fallback.py:168 | `int(x)` truncates toward zero |
| OfflineFallback.ExpensiveRowsFacts | src/offline_fallback.py:162-168 | one row per ranked query, or the missing-field error iff some ranked query lacks `runquantity` or `executiontime` |
| OfflineFallback.ReportedSnoc | src/offline_fallback.py:200-209 | an entry is reported unless its query or its details text already was |
| OfflineFallback.ReportedQueriesOnce | src/offline_fallback.py:203-208 | each reported line adds a query not reported before |
| OfflineFallback.ReportedDetailsOnce | src/offline_fallback.py:205-207 | no details text is listed twice |
| OfflineFallback.ReportedFirst | src/offline_fallback.py:200-209 | the first entry is always reported |
| OfflineFallback.ReportedFromEntries | src/offline_fallback.py:200-209 | every listed details text comes from an entry |
| OfflineFallback.AtMostTwoAntipatterns | src/offline_fallback.py:193-209 | the rewrites section lists at most two anti-patterns, each the details of a rewrite |
| OfflineFallback.AppendUsageRows | src/offline_fallback.py:153-154 | one row per used table, in order |
| OfflineFallback.AppendExpensiveRows | src/offline_fallback.py:162-168 | the rows of the ranked queries, or the error of the first row lacking a field |
| OfflineFallback.AppendIndexSection | src/offline_fallback.py:175-181 | the indexing section, present iff there are join keys |
| OfflineFallback.AppendMvSection | src/offline_fallback.py:184-191 | the materialized-view section, present iff there are suggestions |
| OfflineFallback.AppendRewritesSection | src/offline_fallback.py:194-209 | the rewrites section, present iff there are rewrites |
| OfflineFallback.AppendAntipatterns | src/offline_fallback.py:198-209 | the loop appends one line per details text that Reported keeps |
| OfflineFallback.GenerateReport | src/offline_fallback.py:136-211 | the appends build the report lines of the analysis |
| OfflineFallback.FallbackAnalysis | src/offline_fallback.py:213-226 | the report of the analysis, or the error the analysis raises |
| OfflineFallback.EmptyReport | src/offline_fallback.py:146-171 | without queries the report holds only its fixed headings |
| DbStatsCollector.DriverOf | src/db_stats_collector.py:75-76 | the driver is the longest prefix without `://`, ending where the first `://` starts |
| DbStatsCollector.DatabaseOf | src/db_stats_collector.py:85 | the database is a suffix of the path without a leading slash |
| DbStatsCollector.PortValue | src/db_stats_collector.py:90 | `parsed.port` is read iff the port is absent or a digit run within 0 to 65535; otherwise it raises the cast or range `ValueError` |
| DbStatsCollector.ParseConnectionUrl | src/db_stats_collector.py:66-96 | parses iff the URL starts with `jdbc:`, `urlparse` accepts the rest and its port can be read; otherwise the first of these `ValueError`s in source order; on success the driver follows the prefix and no extra parameter is a credential |
| DbStatsCollector.DriverRoundTrip | src/db_stats_collector.py:72-90 | for a driver without a colon, `jdbc:driver://...` parses exactly when the rest splits with a readable port, and then its driver is that driver |
| DbStatsCollector.PortDefaults | src/db_stats_collector.py:90 | a missing or zero port becomes 443 for trino and 5432 otherwise; any other port is kept |
| DbStatsCollector.CredentialsOf | src/db_stats_collector.py:92-93 | user and password are the first values given for them, or empty when absent |
| DbStatsCollector.OtherParamsKept | src/db_stats_collector.py:94-95 | every other parameter is kept with its first value |
| DbStatsCollector.Utf8 | src/db_stats_collector.py:100 | one to four bytes per character, a single byte for ASCII |
| DbStatsCollector.Escapes | src/db_stats_collector.py:100 | three characters per byte, all of them `%` or unreserved |
| DbStatsCollector.Quote | src/db_stats_collector.py:100 | quoting never shortens the text |
| DbStatsCollector.QuoteSafe | src/db_stats_collector.py:100 | the quoted password holds only unreserved characters and `%`, so no `:`, `@` or `/` |
| DbStatsCollector.QuoteKeeps | src/db_stats_collector.py:100 | text of unreserved characters is left unchanged |
| DbStatsCollector.UnquoteQuote | src/db_stats_collector.py:100 | an ASCII password is recovered from its quoted form |
| DbStatsCollector.CredentialsEndAtSign | src/db_stats_collector.py:98-117 | when driver and user hold no `@`, the first `@` of the URL is the one right after the encoded password, whatever the password holds |
| DbStatsCollector.UrlEnding | src/db_stats_collector.py:103-115 | the URL ends in `/database` when a database is named, and in the port's last digit otherwise |
| DbStatsCollector.CatalogChoice | src/db_stats_collector.py:125-148 | no choice iff no catalog is listed; any choice is a listed catalog |
| DbStatsCollector.RankOfPreferred | src/db_stats_collector.py:138-140 | a preferred name ranks by its place among hive, iceberg, memory and tpch |
| DbStatsCollector.CatalogBestRank | src/db_stats_collector.py:132-148 | the choice has the best rank (database, then preferred names in order, then not system, then system) and is the first listed of that rank |
| DbStatsCollector.TableTarget | src/db_stats_collector.py:255-268 | a looked-up target never has an empty catalog |
| DbStatsCollector.TargetOfThree | src/db_stats_collector.py:255-259 | `catalog.schema.table` names its own catalog, and nothing is looked up when that is empty |
| DbStatsCollector.TargetOfTwo | src/db_stats_collector.py:260-263 | `schema.table` takes the detected catalog, else the configured database |
| DbStatsCollector.TargetOfOne | src/db_stats_collector.py:264-267 | a bare name is looked up in schema `default` of that catalog |
| DbStatsCollector.TargetOfMany | src/db_stats_collector.py:264-267 | four or more parts keep only the text before the first dot, in schema `default` |
| DbStatsCollector.EstimateTableSize | src/db_stats_collector.py:342-352 | 200 bytes a row for a positive row count, else 0 |
| DbStatsCollector.MetadataSize | src/db_stats_collector.py:225-247 | the size reported by `SHOW STATS` when there is one, else 0 |
| DbStatsCollector.SingleTableStats | src/db_stats_collector.py:197-223 | statistics iff the row count is read, with the table's name, count and size, and no column statistics when the name gives no target |
| DbStatsCollector.Found | src/db_stats_collector.py:187-193 | a table adds one entry, under its name, iff its row count is read |
| DbStatsCollector.GatheredNames | src/db_stats_collector.py:185-195 | at most one entry per table, each for a table asked about |
| DbStatsCollector.GatheredAll | src/db_stats_collector.py:185-195 | when every count succeeds, one entry per table in the order asked |
| DbStatsCollector.OverviewOf | src/db_stats_collector.py:354-403 | no engine gives the error record; the version is read iff the driver is trino; the catalog error is given iff no catalog is known, and otherwise the schemas and table count |
| DbStatsCollector.DatabaseStatsCollector.constructor | src/db_stats_collector.py:60-64 | the parsed connection and its URL, with no engine and no catalog |
| DbStatsCollector.DatabaseStatsCollector.Connect | src/db_stats_collector.py:154-177 | success iff the engine is created and the probe succeeds; the engine stays set once created; the catalog is detected iff connected to trino |
| DbStatsCollector.DatabaseStatsCollector.DetectCatalog | src/db_stats_collector.py:119-152 | the loops pick the catalog the selection rule names, and none when the listing fails |
| DbStatsCollector.DatabaseStatsCollector.CollectTableStatistics | src/db_stats_collector.py:179-195 | nothing without an engine, else the statistics of the tables whose lookup succeeds, in order |
| DbStatsCollector.DatabaseStatsCollector.GetDatabaseOverview | src/db_stats_collector.py:354-403 | the overview of the collector's state and the database's answers |
| DbStatsCollector.DatabaseStatsCollector.Close | src/db_stats_collector.py:405-409 | the engine is dropped and the catalog kept |
| DbStatsCollector.Open | src/db_stats_collector.py:60-69 | fails with the parse's ValueError iff the URL lacks `jdbc:`, `urlparse` rejects it or its port cannot be read; else a fresh collector with no engine |
| Text.RoundTenth | src/dashboard_utils.py:95 | `round(x, 1)` gives a multiple of a tenth within 0.05 of x, halves to the even tenth, and keeps a percentage within 0 to 100 |
| Text.Strip | src/ddl_parser.py:104 | `strip()` leaves no whitespace at either end, drops only characters, keeps whitespace-free text and empties only all-whitespace text |
| Text.StripExact | src/ddl_parser.py:104 | `strip()` returns a contiguous piece of the text, and everything before and after that piece is whitespace |
| Text.Split | src/ddl_parser.py:72 | `split(sep)` gives one separator-free piece more than there are separators |
| Text.JoinSplit | src/ddl_parser.py:72 | joining the pieces of a split with the separator gives back the text |
| Text.Words | src/ddl_parser.py:109 | `split()` gives non-empty, whitespace-free words |
| Text.WordsSeparate | src/ddl_parser.py:109 | the text is its words in order with runs of whitespace between them (possibly empty runs at both ends): no character is lost or added |
| Text.WordsOfWeave | src/ddl_parser.py:109 | any non-empty whitespace-free words with whitespace runs between them split back into exactly those words, so the words of a text are the only such decomposition |
| Text.WordsOfJoin | src/ddl_parser.py:109 | words joined by single spaces split back into the same words |
| Scan.RefsFrom | src/query_analyzer.py:101-102 | every FROM/JOIN reference found has the shape of its pattern |
| Scan.RefsFollowKeyword | src/query_analyzer.py:101-102 | every reference found follows a FROM or JOIN keyword in the text |
| Scan.RefsNeedKeyword | src/offline_fallback.py:40 | a text without FROM and JOIN has no references |
| Scan.OnPairsFrom | src/offline_fallback.py:47 | every ON pair found has two dotted operands |
| Scan.OnPairsNeedKeyword | src/offline_fallback.py:47 | a text without ON has no pairs |
| Counters.CountAllSound | src/offline_fallback.py:31-32 | a counter's count for a key is the total weight of that key's events, the counts add up to the total weight, and each key appears once |
| Counters.MostCommon | src/offline_fallback.py:89 | `most_common(n)` returns min(n, size) entries of the counter in non-increasing order |
| Counters.MostCommonComplete | src/offline_fallback.py:123 | an entry left out is not heavier than any listed, and is left out only when n entries are listed |
| Counters.MostCommonStable | src/offline_fallback.py:89 | `most_common(n)` keeps insertion order among equal counts: for each count, the listed entries with that count are the first of the counter's entries with that count |
| Counters.MostCommonFirst | src/offline_fallback.py:101 | `most_common(1)[0]` has the key's own count and no entry has more |
| Sorting.SortDesc | src/report_creator.py:73 | `sorted(..., reverse=True)` is a permutation in non-increasing key order |
| Sorting.SortDescStable | src/report_creator.py:73 | the sort is stable: for every key value, the elements with that key keep their input order |
| Sorting.TopStable | src/report_creator.py:92-93 | the first n of the sort hold, for every key value, a prefix of the input's elements with that key, in input order |
| Sorting.TopOrBelow | src/report_creator.py:92-93 | the first n of a descending sort are sorted and outrank every element they leave out |
| Sorting.SortStrings | src/report_creator.py:164 | `sorted` of strings is a permutation in ascending order |
| Sorting.SortStringsCanonical | src/report_creator.py:164 | two lists sort to the same tuple iff they hold the same strings as often |

## Left out

- Letter case, whitespace and `\w` are ASCII only. The whitespace set is Python's ASCII whitespace, `\x1c`-`\x1f` included. Python's `lower`, `upper`, `strip`, `split()` and its regular expressions also treat non-ASCII letters and spaces (for example `\x85`, `\xa0` and `\u2028`), which the model treats as ordinary characters.
- Python sets of strings (`_extract_tables`, the table sets of the offline fallback, `set(known_keys.values())`) iterate in a hash-dependent order. The model lists their elements in the order of first appearance.
- The aggregate and window vocabularies are Python sets too. The model iterates them in the order they are declared.
- Report text formatting is not modelled: the Markdown rendering of table rows, the `:,` thousands separators and the printed form of floats. Report lines are kept as structured values (`OfflineFallback.ReportLine`), so each row keeps its numbers.
- `execution_time` is a `real`. Sums and products of floats are exact in the model, where Python rounds each to a binary float.
- `Text.RoundTenth`: rounds the exact percentage, half to even. Python's `round(x, 1)` rounds the binary float nearest to x, so it can differ from the model only when x is exactly halfway between two tenths.
- `sqlparse.parse(...)[0]` becomes a parameter (`tokenizes`) saying whether parsing succeeds. `DdlParser.ParseCreateTable` and `QueryAnalyzer.AnalyzeSingleQuery` take it; a failure drops the statement or query, as the caught exception does. The sqlparse library is not part of this model.
- `_extract_filter_columns` walks sqlparse's token tree. It becomes a parameter (`filterColumns`) of `QueryAnalyzer.PatternOf`, whose result the statistics weight by run quantity like the other columns.
- `_extract_where_conditions` always returns an empty list, and the model does the same (`whereConditions == []`).
- Logging and `print` calls are left out, in every file.
- A query record without `queryid` or `query` is not modelled: `QueryRecord` always has both. The source raises `KeyError` on such a record in `_analyze_single_query` (src/query_analyzer.py:54-55) and in the offline fallback (src/offline_fallback.py:50, :113, :201).
- A query record whose `runquantity` or `query` is present but null is not modelled: `QueryRecord` only tells a missing value from a number or a text. `_identify_denormalization_opportunities` raises `AttributeError` on a null `query` (`.upper()`, src/dashboard_utils.py:298) and `TypeError` on a null `runquantity` (src/dashboard_utils.py:303).
- `create_insights_report` in `src/dashboard_utils.py` is not modelled. It calls `get_schema_insights`, which the DDL parser does not define, so the index-coverage and estimated-rows parts cannot be derived. The other helpers of that file are modelled one by one.
- `DashboardUtils.HasPrimaryKey` does not test a `primary_key` attribute. The parser's `Column` has no such field, so `hasattr` is always false.
- `_analyze_query_coverage` also looks for a three-part `db.schema.table` key. The parser's `Table` has no `database` attribute, so that key is never added, and the model leaves it out.
- `_get_database_profile` and the `database_size` and `total_rows` fields of the executive summary are not modelled. They are float division, rounding and `:,` formatting of values read back from the database statistics. `create_summary_tables` (pandas) and the file I/O of `__main__` are left out too.
- `top_expensive_ids` (src/offline_fallback.py:93) and `group_by_pattern` (src/offline_fallback.py:44) are computed and never used, so the model leaves them out. So is `queryid_short` (src/offline_fallback.py:163).
- The anti-pattern loop of `generate_report` reads only the query id and the details text of each rewrite. `OfflineFallback.AppendAntipatterns` loops over those pairs.
- The statistics collector's database round trips become parameters holding what the database answered:
  - `create_engine` and `SELECT 1` → `created`, `probed`;
  - `SHOW CATALOGS` → `listing`;
  - `SELECT COUNT(*)`, the column query and `SHOW STATS` → `TableAnswers`;
  - the overview queries → `version`, `schemas`, `tableCount`.
- `DbStatsCollector.OverviewOf`: the overview queries' own exceptions and the `connection_successful` flag are not modelled.
- `DbStatsCollector.SingleTableStats`: the per-column distinct, null and numeric statistics of `_get_column_statistics` are not modelled, only the name split and the column names and types. Columns with the same name collapse in the source's dictionary; the model keeps them as a list.
- `urllib.parse.urlparse` and `parse_qs` become a parameter (`split`) of `DbStatsCollector.ParseConnectionUrl`, so the lower-casing of the host name, the decoding of the query string, and `urlparse`'s own check of the network location (an unbalanced `[` or `]`) happen outside the model. `split` reports that failure as an error, and says whether the port text is absent, a digit run (with its value) or anything else; the model does the range check and raises accordingly.
- `DbStatsCollector.PortValue`: the cast error's message omits the port text that Python appends (`as 'abc'`). `urllib.parse.quote` is modelled (`DbStatsCollector.Quote`), following section 2.3 of RFC 3986 for the unreserved characters.
- `test_connection`, `convert_numpy_types` and `safe_json_serialize` (numpy/pandas values) are left out.
- `DbStatsCollector.MetadataSize`: when `SHOW STATS` fails, the source estimates the size from a row count of 0, which is always 0. The model states that outcome.
- `DbStatsCollector.CatalogChoice`: when every listed catalog is `system` in some letter case, the source returns `system` if it is listed exactly so, and otherwise the first catalog. The model follows the code.
