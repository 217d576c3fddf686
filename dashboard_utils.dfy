/**
 * The schema insight helpers of the dashboard: data-quality counts, primary-key
 * detection, resolution of FROM/JOIN references against the parsed tables, and the
 * partitioning and denormalization heuristics.
 */
module DashboardUtils {
  import opened Wrappers
  import opened Text
  import opened Scan
  import opened Counters
  import opened Lists
  import opened Sorting
  import opened DdlParser
  import opened QueryAnalyzer

  // ---------------------------------------------------------------- primary keys

  /** `'PRIMARY KEY' in str(constraint).upper()` for some entry of an optional constraint list. */
  predicate DeclaresPrimaryKey(constraints: Option<seq<string>>)
  {
    constraints.Some? && exists k :: 0 <= k < |constraints.value| && Contains(Upper(constraints.value[k]), "PRIMARY KEY")
  }

  /** The first column, from index `i`, whose constraints declare a primary key. */
  function ColumnWithPrimaryKey(columns: seq<Column>, i: nat): (r: bool)
    ensures r <==> exists k :: i <= k < |columns| && DeclaresPrimaryKey(columns[k].constraints)
    decreases |columns| - i
  {
    if i >= |columns| then false
    else DeclaresPrimaryKey(columns[i].constraints) || ColumnWithPrimaryKey(columns, i + 1)
  }

  /**
   * `_has_primary_key`: some column constraint or some table constraint mentions
   * PRIMARY KEY, in any case; a missing constraint list counts as empty.
   */
  function HasPrimaryKey(t: Table): (r: bool)
    ensures r <==> (exists k :: 0 <= k < |t.columns| && DeclaresPrimaryKey(t.columns[k].constraints))
                   || DeclaresPrimaryKey(t.constraints)
  {
    ColumnWithPrimaryKey(t.columns, 0) || DeclaresPrimaryKey(t.constraints)
  }

  predicate LacksPrimaryKey(t: Table) { !HasPrimaryKey(t) }

  /** The parser records no constraints, so none of the tables it returns has a primary key. */
  lemma ParsedTablesLackPrimaryKeys(statements: seq<string>, tokenizes: string -> bool, k: nat)
    requires k < |ParsedTables(statements, tokenizes)|
    ensures LacksPrimaryKey(ParsedTables(statements, tokenizes)[k])
  {
    KeptFrom(statements, tokenizes, CreateTable, k);
    var i :| 0 <= i < |statements| && tokenizes(statements[i])
             && ParsedTables(statements, tokenizes)[k] == CreateTable(statements[i]);
    Unconstrained(CreateTable(statements[i]));
  }

  /** A table with no constraint anywhere has no primary key. */
  lemma Unconstrained(t: Table)
    requires t.constraints.None? && forall j :: 0 <= j < |t.columns| ==> t.columns[j].constraints.None?
    ensures LacksPrimaryKey(t)
  {
  }

  // ---------------------------------------------------------------- data quality

  /** The lower-cased query texts joined by single spaces. */
  function QueryText(queries: seq<QueryRecord>): string
  {
    Text.Join(LowerTexts(queries), " ")
  }

  function LowerTexts(queries: seq<QueryRecord>): (r: seq<string>)
    ensures |r| == |queries| && forall k :: 0 <= k < |r| ==> r[k] == Lower(queries[k].query)
  {
    seq(|queries|, k requires 0 <= k < |queries| => Lower(queries[k].query))
  }

  /** A table whose lower-cased name does not occur anywhere in the query text. */
  function Orphaned(text: string): Table -> bool
  {
    (t: Table) => !Contains(text, Lower(t.name))
  }

  /** A piece of a joined string stays a substring of the whole. */
  lemma {:induction false} ContainsInJoin(parts: seq<string>, sep: string, i: nat, sub: string)
    requires i < |parts| && Contains(parts[i], sub)
    ensures Contains(Text.Join(parts, sep), sub)
    decreases |parts|
  {
    if |parts| == 1 {
    } else {
      var s := Text.Join(parts, sep);
      var rest := Text.Join(parts[1..], sep);
      assert s == parts[0] + sep + rest;
      if i == 0 {
        assert s[0..|parts[0]|] == parts[0];
        ContainsWithin(s, 0, |parts[0]|, sub);
      } else {
        ContainsInJoin(parts[1..], sep, i - 1, sub);
        assert s[|parts[0]| + |sep|..|s|] == rest;
        ContainsWithin(s, |parts[0]| + |sep|, |s|, sub);
      }
    }
  }

  /** A table whose name appears, in any case, in one of the queries is not orphaned. */
  lemma NamedTableNotOrphaned(tables: seq<Table>, queries: seq<QueryRecord>, t: Table, i: nat)
    requires i < |queries| && Contains(Lower(queries[i].query), Lower(t.name))
    ensures !Orphaned(QueryText(queries))(t)
  {
    ContainsInJoin(LowerTexts(queries), " ", i, Lower(t.name));
  }

  function NullableCount(columns: seq<Column>): (n: nat)
    ensures n <= |columns|
  {
    if columns == [] then 0
    else NullableCount(columns[..|columns| - 1]) + (if columns[|columns| - 1].nullable then 1 else 0)
  }

  /** `sum(1 for t in tables for c in t.columns if c.nullable)` */
  function NullableColumns(tables: seq<Table>): (n: nat)
    ensures n <= ColumnCount(tables)
  {
    if tables == [] then 0 else NullableColumns(tables[..|tables| - 1]) + NullableCount(tables[|tables| - 1].columns)
  }

  lemma ShareAtMostOne(a: real, b: real)
    requires 0.0 <= a <= b && b > 0.0
    ensures 0.0 <= a / b <= 1.0
  {
  }

  /** The share of nullable columns, as an exact percentage (0 without columns). */
  function NullablePercent(tables: seq<Table>): (p: real)
    ensures 0.0 <= p <= 100.0
    ensures ColumnCount(tables) == 0 ==> p == 0.0
  {
    var total := ColumnCount(tables);
    if total > 0 then
      var n := NullableColumns(tables);
      ShareAtMostOne(n as real, total as real);
      (n as real) / (total as real) * 100.0
    else 0.0
  }

  datatype DataQuality = DataQuality(
    nullableColumnsPercent: real,
    tablesWithoutPk: nat,
    orphanedTables: nat,
    totalColumns: Option<nat>,  // absent from the result for an empty table list
    recommendations: seq<string>)

  /** A recommendation that is given only when its condition holds. */
  function Note(cond: bool, message: string): (r: seq<string>)
    ensures |r| == if cond then 1 else 0
  {
    if cond then [message] else []
  }

  /** The data-quality recommendations, in the source's order: one per problem found. */
  function QualityRecommendations(nullablePercent: real, withoutPk: nat, orphaned: nat): (r: seq<string>)
    ensures |r| == (if nullablePercent > 50.0 then 1 else 0) + (if withoutPk > 0 then 1 else 0) + (if orphaned > 0 then 1 else 0)
    ensures r == [] <==> nullablePercent <= 50.0 && withoutPk == 0 && orphaned == 0
  {
    Note(nullablePercent > 50.0, "High percentage of nullable columns may indicate schema design issues")
    + Note(withoutPk > 0, NatToString(withoutPk) + " table(s) missing primary keys - consider adding for data integrity")
    + Note(orphaned > 0, NatToString(orphaned) + " table(s) not referenced in queries - consider archiving or removal")
  }

  /** `_analyze_data_quality` */
  method AnalyzeDataQuality(tables: seq<Table>, queries: seq<QueryRecord>) returns (dq: DataQuality)
    ensures tables == [] ==> dq == DataQuality(0.0, 0, 0, None, [])
    ensures tables != [] ==>
      && dq.totalColumns == Some(ColumnCount(tables))
      && dq.nullableColumnsPercent == RoundTenth(NullablePercent(tables))
      && dq.tablesWithoutPk == CountWhere(tables, LacksPrimaryKey)
      && dq.orphanedTables == CountWhere(tables, Orphaned(QueryText(queries)))
      && dq.recommendations == QualityRecommendations(dq.nullableColumnsPercent, dq.tablesWithoutPk, dq.orphanedTables)
    ensures dq.tablesWithoutPk <= |tables| && dq.orphanedTables <= |tables|
    ensures 0.0 <= dq.nullableColumnsPercent <= 100.0
  {
    if tables == [] {
      return DataQuality(0.0, 0, 0, None, []);
    }
    var text := QueryText(queries);
    var orphaned := 0;
    var i := 0;
    while i < |tables|
      invariant 0 <= i <= |tables|
      invariant orphaned == CountWhere(tables[..i], Orphaned(text))
    {
      assert tables[..i + 1][..i] == tables[..i];
      if !Contains(text, Lower(tables[i].name)) {
        orphaned := orphaned + 1;
      }
      i := i + 1;
    }
    assert tables[..i] == tables;
    var withoutPk := CountWhere(tables, LacksPrimaryKey);
    var percent := RoundTenth(NullablePercent(tables));
    dq := DataQuality(percent, withoutPk, orphaned, Some(ColumnCount(tables)),
      QualityRecommendations(percent, withoutPk, orphaned));
  }

  // ---------------------------------------------------------------- query coverage

  predicate IsQuote(c: char) { c == '"' || c == '`' }

  /** Removes every double quote and backtick. */
  function RemoveQuotes(s: string): (r: string)
    ensures forall k :: 0 <= k < |r| ==> !IsQuote(r[k])
    ensures forall c :: c in r ==> c in s
    ensures (forall k :: 0 <= k < |s| ==> !IsQuote(s[k])) ==> r == s
    ensures |s| == 1 ==> r == if IsQuote(s[0]) then [] else s
  {
    if s == [] then []
    else
      var init := RemoveQuotes(s[..|s| - 1]);
      var last := s[|s| - 1];
      assert s == s[..|s| - 1] + [last];
      if IsQuote(last) then init else init + [last]
  }

  /**
   * Quote removal works piece by piece; with the one-character case this says that every
   * character other than a quote is kept, in its order, and every quote is dropped.
   */
  lemma {:induction false} RemoveQuotesAppend(a: string, b: string)
    ensures RemoveQuotes(a + b) == RemoveQuotes(a) + RemoveQuotes(b)
    decreases |b|
  {
    if b == [] {
      assert a + b == a;
    } else {
      var init := b[..|b| - 1];
      assert (a + b)[..|a + b| - 1] == a + init;
      assert (a + b)[|a + b| - 1] == b[|b| - 1];
      RemoveQuotesAppend(a, init);
    }
  }

  /**
   * `normalize`: quotes removed, surrounding white space stripped (`lstrip` then
   * `rstrip`, which is `strip`), lower-cased.
   */
  function Normalize(s: string): (r: string)
    ensures forall k :: 0 <= k < |r| ==> !IsQuote(r[k]) && !IsUpperLetter(r[k])
    ensures r == [] || (!IsSpace(r[0]) && !IsSpace(r[|r| - 1]))
  {
    var t := Strip(RemoveQuotes(s));
    StrippedUnquoted(RemoveQuotes(s));
    LowerTrimmed(t);
    Lower(t)
  }

  lemma StrippedUnquoted(u: string)
    requires forall k :: 0 <= k < |u| ==> !IsQuote(u[k])
    ensures forall k :: 0 <= k < |Strip(u)| ==> !IsQuote(Strip(u)[k])
  {
    var t := Strip(u);
    forall k | 0 <= k < |t| ensures !IsQuote(t[k]) {
      assert t[k] in t;
    }
  }

  lemma LowerTrimmed(t: string)
    requires forall k :: 0 <= k < |t| ==> !IsQuote(t[k])
    requires t == [] || (!IsSpace(t[0]) && !IsSpace(t[|t| - 1]))
    ensures forall k :: 0 <= k < |Lower(t)| ==> !IsQuote(Lower(t)[k]) && !IsUpperLetter(Lower(t)[k])
    ensures Lower(t) == [] || (!IsSpace(Lower(t)[0]) && !IsSpace(Lower(t)[|t| - 1]))
  {
  }

  /** Normalizing twice is normalizing once. */
  lemma NormalizeIdempotent(s: string)
    ensures Normalize(Normalize(s)) == Normalize(s)
  {
    NormalizeFixes(Normalize(s));
  }

  /** Text without quotes, surrounding white space or upper-case letters is already normal. */
  lemma NormalizeFixes(x: string)
    requires forall k :: 0 <= k < |x| ==> !IsQuote(x[k]) && !IsUpperLetter(x[k])
    requires x == [] || (!IsSpace(x[0]) && !IsSpace(x[|x| - 1]))
    ensures Normalize(x) == x
  {
    assert RemoveQuotes(x) == x;
    StripTrimmed(x);
    LowerUnchanged(x);
  }

  /** `[p for p in parts if p]` */
  function NonEmptyParts(parts: seq<string>): (r: seq<string>)
    ensures |r| <= |parts|
    ensures forall k :: 0 <= k < |r| ==> r[k] != []
  {
    if parts == [] then []
    else
      var init := NonEmptyParts(parts[..|parts| - 1]);
      var last := parts[|parts| - 1];
      if last == [] then init else init + [last]
  }

  /** The last part, the last two and the last three, joined with dots, as far as there are parts. */
  function Forms(parts: seq<string>): (r: seq<string>)
    ensures |r| == if |parts| < 3 then |parts| else 3
    ensures (forall k :: 0 <= k < |parts| ==> parts[k] != []) ==> forall k :: 0 <= k < |r| ==> r[k] != []
  {
    var n := |parts|;
    (if n >= 1 then [parts[n - 1]] else [])
    + (if n >= 2 then [parts[n - 2] + "." + parts[n - 1]] else [])
    + (if n >= 3 then [parts[n - 3] + "." + parts[n - 2] + "." + parts[n - 1]] else [])
  }

  /**
   * `all_forms`: the keys a FROM/JOIN reference may match, most specific last: the
   * bare table name, then schema.table, then db.schema.table.
   */
  function AllForms(ref: string): (r: seq<string>)
    ensures Distinct(r) && |r| <= 3
    ensures forall k :: 0 <= k < |r| ==> r[k] != []
  {
    var forms := Forms(PartsOf(ref));
    DedupKeeps(forms, (f: string) => f != []);
    Dedup(forms)
  }

  /** The non-empty dot-separated parts of the normalized reference. */
  function PartsOf(ref: string): (r: seq<string>)
    ensures forall k :: 0 <= k < |r| ==> r[k] != []
  {
    NonEmptyParts(Split(Normalize(ref), '.'))
  }

  /** A name made of lower-case text without dots, quotes or white space. */
  predicate Plain(s: string)
  {
    |s| > 0 && forall k :: 0 <= k < |s| ==> s[k] != '.' && !IsQuote(s[k]) && !IsSpace(s[k]) && !IsUpperLetter(s[k])
  }

  /** A plain `schema.table` reference can match as `table` or as `schema.table`, in that order. */
  lemma QualifiedReferenceForms(schema: string, name: string)
    requires Plain(schema) && Plain(name)
    ensures AllForms(schema + "." + name) == [name, schema + "." + name]
  {
    var r := schema + "." + name;
    QualifiedIsNormal(schema, name);
    QualifiedSplit(schema, name);
    PairForms(schema, name);
    DedupPair(name, r);
  }

  lemma PairForms(schema: string, name: string)
    requires schema != [] && name != []
    ensures Forms(NonEmptyParts([schema, name])) == [name, schema + "." + name]
    ensures name != schema + "." + name
  {
    var parts := [schema, name];
    assert parts[..1] == [schema];
    assert NonEmptyParts(parts) == parts;
    assert |name| < |schema + "." + name|;
  }

  lemma QualifiedIsNormal(schema: string, name: string)
    requires Plain(schema) && Plain(name)
    ensures Normalize(schema + "." + name) == schema + "." + name
  {
    QualifiedIsClean(schema, name);
    CleanIsNormal(schema + "." + name);
  }

  /** No quote, white space or upper-case letter in a plain `schema.table`. */
  predicate Clean(r: string)
  {
    forall k :: 0 <= k < |r| ==> !IsQuote(r[k]) && !IsSpace(r[k]) && !IsUpperLetter(r[k])
  }

  lemma QualifiedIsClean(schema: string, name: string)
    requires Plain(schema) && Plain(name)
    ensures Clean(schema + "." + name)
  {
    var r := schema + "." + name;
    forall k | 0 <= k < |r| ensures !IsQuote(r[k]) && !IsSpace(r[k]) && !IsUpperLetter(r[k]) {
      if k < |schema| {
        assert r[k] == schema[k];
      } else if k > |schema| {
        assert r[k] == name[k - |schema| - 1];
      }
    }
  }

  lemma CleanIsNormal(r: string)
    requires Clean(r)
    ensures Normalize(r) == r
  {
    assert RemoveQuotes(r) == r;
    assert Strip(r) == r;
    LowerUnchanged(r);
  }

  lemma QualifiedSplit(schema: string, name: string)
    requires Plain(schema) && Plain(name)
    ensures Split(schema + "." + name, '.') == [schema, name]
  {
    SplitAfterPiece(schema, '.', name);
    assert '.' !in name by {
      forall k | 0 <= k < |name| ensures name[k] != '.' { }
    }
    SplitNoSep(name, '.');
  }

  lemma DedupPair(a: string, b: string)
    requires a != b
    ensures Dedup([a, b]) == [a, b]
  {
    assert [a, b][..1] == [a];
    assert [a][..0] == [];
  }

  /** A table as the index sees it: its normalized name and schema. */
  datatype TableKey = TableKey(name: string, schema: string)

  function KeyOfTable(t: Table): TableKey
  {
    TableKey(Normalize(t.name), Normalize(t.schema))
  }

  function TableKeys(tables: seq<Table>): seq<TableKey>
  {
    MapAll(tables, KeyOfTable)
  }

  /** The canonical name of a table: `schema.table`, or the bare table name without a schema. */
  function CanonOf(e: TableKey): string
  {
    if e.schema != [] then e.schema + "." + e.name else e.name
  }

  predicate Named(e: TableKey) { e.name != [] }

  /** The keys under which a named table is indexed: its name, and `schema.name` when it has a schema. */
  predicate Indexes(e: TableKey, k: string)
  {
    e.name != [] && (k == e.name || (e.schema != [] && k == e.schema + "." + e.name))
  }

  /** Indexes one more table; its keys now name it, whatever they named before. */
  function AddTable(keys: map<string, string>, e: TableKey): (r: map<string, string>)
    ensures forall k :: k in r <==> k in keys || Indexes(e, k)
    ensures forall k :: k in r && Indexes(e, k) ==> r[k] == CanonOf(e)
    ensures forall k :: k in r && !Indexes(e, k) ==> r[k] == keys[k]
  {
    var k1 := if e.name != [] then keys[e.name := CanonOf(e)] else keys;
    if e.schema != [] && e.name != [] then k1[e.schema + "." + e.name := CanonOf(e)] else k1
  }

  /** `known_keys`: every table indexed in turn. */
  function KnownKeysOf(es: seq<TableKey>): map<string, string>
  {
    if es == [] then map[] else AddTable(KnownKeysOf(es[..|es| - 1]), es[|es| - 1])
  }

  /** The index holds exactly the keys of the tables. */
  lemma {:induction false} KnownKeysDomain(es: seq<TableKey>)
    ensures forall k :: k in KnownKeysOf(es) <==> exists i :: 0 <= i < |es| && Indexes(es[i], k)
    decreases |es|
  {
    if es != [] {
      var init := es[..|es| - 1];
      var last := es[|es| - 1];
      var m := KnownKeysOf(es);
      assert m == AddTable(KnownKeysOf(init), last);
      KnownKeysDomain(init);
      forall k ensures k in m <==> exists i :: 0 <= i < |es| && Indexes(es[i], k) {
        if exists i :: 0 <= i < |es| && Indexes(es[i], k) {
          var i :| 0 <= i < |es| && Indexes(es[i], k);
          if i < |init| {
            assert Indexes(init[i], k);
          }
        }
        if k in m && !Indexes(last, k) {
          assert k in KnownKeysOf(init);
          var i :| 0 <= i < |init| && Indexes(init[i], k);
          assert Indexes(es[i], k);
        }
      }
    }
  }

  /** Each key of the index names the canonical form of the last table indexed under it. */
  lemma {:induction false} KnownKeysLastWins(es: seq<TableKey>, k: string)
    requires k in KnownKeysOf(es)
    ensures exists i :: 0 <= i < |es| && Indexes(es[i], k) && KnownKeysOf(es)[k] == CanonOf(es[i])
                        && forall j :: i < j < |es| ==> !Indexes(es[j], k)
    decreases |es|
  {
    var init := es[..|es| - 1];
    var last := es[|es| - 1];
    var m := KnownKeysOf(es);
    assert m == AddTable(KnownKeysOf(init), last);
    if Indexes(last, k) {
      assert Indexes(es[|es| - 1], k);
    } else {
      KnownKeysLastWins(init, k);
      var i :| 0 <= i < |init| && Indexes(init[i], k) && KnownKeysOf(init)[k] == CanonOf(init[i])
               && forall j :: i < j < |init| ==> !Indexes(init[j], k);
      assert es[i] == init[i];
      forall j | i < j < |es| ensures !Indexes(es[j], k) {
        if j < |init| {
          assert es[j] == init[j];
        }
      }
    }
  }

  lemma KnownKeysSnoc(es: seq<TableKey>, i: nat)
    requires i < |es|
    ensures KnownKeysOf(es[..i + 1]) == AddTable(KnownKeysOf(es[..i]), es[i])
  {
    assert es[..i + 1][..i] == es[..i];
  }

  /** Indexes one table under its bare name and, with a schema, its qualified name. */
  method AddKeys(keys0: map<string, string>, e: TableKey) returns (keys: map<string, string>)
    ensures keys == AddTable(keys0, e)
  {
    keys := keys0;
    var n, s := e.name, e.schema;
    var canon := if s != [] then s + "." + n else n;
    if n != [] {
      keys := keys[n := canon];
    }
    if s != [] && n != [] {
      keys := keys[s + "." + n := canon];
    }
  }

  /** The loop over the tables that fills `known_keys`. */
  method BuildKnownKeys(tables: seq<Table>) returns (keys: map<string, string>)
    ensures keys == KnownKeysOf(TableKeys(tables))
  {
    ghost var es := TableKeys(tables);
    keys := map[];
    for i := 0 to |tables|
      invariant keys == KnownKeysOf(es[..i])
    {
      KnownKeysSnoc(es, i);
      var e := KeyOfTable(tables[i]);
      assert e == es[i];
      keys := AddKeys(keys, e);
    }
    assert es[..|tables|] == es;
  }

  function IsKnownCanon(keys: map<string, string>): string -> bool
  {
    (c: string) => c in keys.Values
  }

  /** `set(known_keys.values())`, iterated in the order the tables first give each canonical name. */
  function KnownCanons(es: seq<TableKey>): (r: seq<string>)
    ensures Distinct(r)
  {
    Filter(Dedup(Kept(es, Named, CanonOf)), IsKnownCanon(KnownKeysOf(es)))
  }

  /** The known canonical names are exactly the names the index points to. */
  lemma KnownCanonsAreIndexed(es: seq<TableKey>)
    ensures forall c :: c in KnownCanons(es) <==> c in KnownKeysOf(es).Values
  {
    var m := KnownKeysOf(es);
    forall c | c in m.Values ensures c in KnownCanons(es) {
      var k :| k in m && m[k] == c;
      KnownKeysLastWins(es, k);
      var i :| 0 <= i < |es| && Indexes(es[i], k) && m[k] == CanonOf(es[i])
               && forall j :: i < j < |es| ==> !Indexes(es[j], k);
      KeptAt(es, Named, CanonOf, i);
    }
  }

  /** The position of the first form that is a known key. */
  function FirstKnown(forms: seq<string>, keys: map<string, string>): (r: Option<nat>)
    ensures r.Some? ==> r.value < |forms| && forms[r.value] in keys && forall j :: 0 <= j < r.value ==> forms[j] !in keys
    ensures r.None? ==> forall j :: 0 <= j < |forms| ==> forms[j] !in keys
  {
    if forms == [] then None
    else if forms[0] in keys then Some(0)
    else match FirstKnown(forms[1..], keys)
      case Some(i) => Some(i + 1)
      case None => None
  }

  /** The loop over the forms that stops at the first known key. */
  method FindKnown(forms: seq<string>, keys: map<string, string>) returns (r: Option<nat>)
    ensures r == FirstKnown(forms, keys)
  {
    var i := 0;
    while i < |forms|
      invariant 0 <= i <= |forms|
      invariant forall j :: 0 <= j < i ==> forms[j] !in keys
    {
      if forms[i] in keys {
        return Some(i);
      }
      i := i + 1;
    }
    return None;
  }

  /**
   * The usage key a reference with these forms credits: the canonical name behind its
   * first known form; failing that, its `schema.table` form, or its bare name, as written.
   */
  function ResolveForms(keys: map<string, string>, forms: seq<string>): (r: Option<string>)
    ensures r.None? <==> forms == []
    ensures (exists k :: 0 <= k < |forms| && forms[k] in keys) ==> r.Some? && r.value in keys.Values
    ensures (forall k :: 0 <= k < |forms| ==> forms[k] !in keys) && r.Some? ==> r.value in forms
  {
    match FirstKnown(forms, keys)
    case Some(i) => Some(keys[forms[i]])
    case None => if |forms| >= 2 then Some(forms[1]) else if |forms| == 1 then Some(forms[0]) else None
  }

  function Resolve(keys: map<string, string>, ref: string): Option<string>
  {
    ResolveForms(keys, AllForms(ref))
  }

  /**
   * A plain `schema.table` reference whose bare table name is known credits the table
   * that name points to, even when another table is known under the qualified name.
   */
  lemma BareNameWins(keys: map<string, string>, schema: string, name: string)
    requires Plain(schema) && Plain(name) && name in keys
    ensures Resolve(keys, schema + "." + name) == Some(keys[name])
  {
    QualifiedReferenceForms(schema, name);
  }

  /** The forms of each reference. */
  function RefForms(refs: seq<string>): seq<seq<string>>
  {
    MapAll(refs, AllForms)
  }

  /** The usage keys credited by a sequence of references (given by their forms), in order. */
  function ResolvedKeys(keys: map<string, string>, fss: seq<seq<string>>): seq<string>
  {
    if fss == [] then []
    else
      ResolvedKeys(keys, fss[..|fss| - 1])
      + match ResolveForms(keys, fss[|fss| - 1]) case Some(k) => [k] case None => []
  }

  /** Every reference that resolves contributes its key. */
  lemma {:induction false} ResolvedKeysHas(keys: map<string, string>, fss: seq<seq<string>>, j: nat)
    requires j < |fss| && ResolveForms(keys, fss[j]).Some?
    ensures ResolveForms(keys, fss[j]).value in ResolvedKeys(keys, fss)
    decreases |fss|
  {
    if j < |fss| - 1 {
      ResolvedKeysHas(keys, fss[..|fss| - 1], j);
    }
  }

  /** `int(q.get('runquantity', 0) or 0)` */
  function RunsOf(q: QueryRecord): int
  {
    match q.runQuantity case Some(n) => n case None => 0
  }

  /** The keys a query credits: one per resolved FROM/JOIN reference; none for an empty text. */
  function CreditedKeys(keys: map<string, string>, q: QueryRecord): seq<string>
  {
    if q.query == [] then [] else ResolvedKeys(keys, RefForms(RefsFrom(q.query, CoverageRefs, 0)))
  }

  function QueryCredits(keys: map<string, string>): QueryRecord -> seq<(string, int)>
  {
    (q: QueryRecord) => Weighted(CreditedKeys(keys, q), RunsOf(q))
  }

  /** The loop over the forms of one reference, with the fallback when none is known. */
  method ResolveRef(keys: map<string, string>, ref: string) returns (key: Option<string>)
    ensures key == ResolveForms(keys, AllForms(ref))
  {
    var forms := AllForms(ref);
    var m := FindKnown(forms, keys);
    if m.Some? {
      key := Some(keys[forms[m.value]]);
    } else if |forms| >= 2 {
      key := Some(forms[1]);
    } else if |forms| == 1 {
      key := Some(forms[0]);
    } else {
      key := None;
    }
  }

  /** The event a reference with forms `fs` adds: its resolved key with weight `w`, if it resolves. */
  function CreditOf(keys: map<string, string>, fs: seq<string>, w: int): seq<(string, int)>
  {
    match ResolveForms(keys, fs) case Some(k) => [(k, w)] case None => []
  }

  /** Resolving one more reference adds at most one event, of the query's weight. */
  lemma CreditStep(keys: map<string, string>, fss: seq<seq<string>>, j: nat, w: int, before: seq<(string, int)>)
    requires j < |fss|
    ensures before + Weighted(ResolvedKeys(keys, fss[..j + 1]), w)
      == (before + Weighted(ResolvedKeys(keys, fss[..j]), w)) + CreditOf(keys, fss[j], w)
  {
    assert fss[..j + 1][..j] == fss[..j];
    var done := ResolvedKeys(keys, fss[..j]);
    match ResolveForms(keys, fss[j])
    case Some(k) =>
      assert ResolvedKeys(keys, fss[..j + 1]) == done + [k];
      assert Weighted(done + [k], w)[..|done|] == Weighted(done, w);
    case None =>
  }

  /** `CreditStep` for the forms of the references themselves. */
  lemma CreditRefStep(keys: map<string, string>, refs: seq<string>, j: nat, w: int, before: seq<(string, int)>)
    requires j < |refs|
    ensures before + Weighted(ResolvedKeys(keys, RefForms(refs)[..j + 1]), w)
      == (before + Weighted(ResolvedKeys(keys, RefForms(refs)[..j]), w)) + CreditOf(keys, AllForms(refs[j]), w)
  {
    CreditStep(keys, RefForms(refs), j, w, before);
    assert RefForms(refs)[j] == AllForms(refs[j]);
  }

  /** Credits one reference: its resolved key, if any, gains the query's weight. */
  method CreditRef(usage0: Counts<string>, keys: map<string, string>, ref: string, w: int, ghost done: seq<(string, int)>)
    returns (usage: Counts<string>)
    requires usage0 == CountAll(done)
    ensures usage == CountAll(done + CreditOf(keys, AllForms(ref), w))
  {
    var key := ResolveRef(keys, ref);
    usage := usage0;
    if key.Some? {
      CountAllSnoc(done, (key.value, w));
      usage := Bump(usage, key.value, w);
    } else {
      assert done + [] == done;
    }
  }

  /** The inner loop over the references of one query. */
  method CreditRefs(usage0: Counts<string>, keys: map<string, string>, refs: seq<string>, w: int, ghost before: seq<(string, int)>)
    returns (usage: Counts<string>)
    requires usage0 == CountAll(before)
    ensures usage == CountAll(before + Weighted(ResolvedKeys(keys, RefForms(refs)), w))
  {
    ghost var fss := RefForms(refs);
    usage := usage0;
    assert before + Weighted(ResolvedKeys(keys, fss[..0]), w) == before;
    for j := 0 to |refs|
      invariant usage == CountAll(before + Weighted(ResolvedKeys(keys, fss[..j]), w))
    {
      ghost var done := before + Weighted(ResolvedKeys(keys, fss[..j]), w);
      CreditRefStep(keys, refs, j, w, before);
      usage := CreditRef(usage, keys, refs[j], w, done);
    }
    assert fss[..|refs|] == fss;
  }

  /** One more query adds the events of its credits. */
  lemma CreditQueryStep(keys: map<string, string>, queries: seq<QueryRecord>, i: nat, init: seq<(string, int)>)
    requires i < |queries|
    ensures init + FlatEvents(queries[..i + 1], QueryCredits(keys))
      == (init + FlatEvents(queries[..i], QueryCredits(keys))) + Weighted(CreditedKeys(keys, queries[i]), RunsOf(queries[i]))
  {
    FlatEventsSnoc(queries, i, QueryCredits(keys));
  }

  /** Credits one query: each of its resolved references gains its run count. */
  method CreditQuery(usage0: Counts<string>, keys: map<string, string>, q: QueryRecord, ghost before: seq<(string, int)>)
    returns (usage: Counts<string>)
    requires usage0 == CountAll(before)
    ensures usage == CountAll(before + Weighted(CreditedKeys(keys, q), RunsOf(q)))
  {
    if q.query != [] {
      var refs := RefsFrom(q.query, CoverageRefs, 0);
      usage := CreditRefs(usage0, keys, refs, RunsOf(q), before);
    } else {
      usage := usage0;
      assert before + Weighted([], RunsOf(q)) == before;
    }
  }

  /** The outer loop over the queries. */
  method CreditQueries(usage0: Counts<string>, keys: map<string, string>, queries: seq<QueryRecord>, ghost init: seq<(string, int)>)
    returns (usage: Counts<string>)
    requires usage0 == CountAll(init)
    ensures usage == CountAll(init + FlatEvents(queries, QueryCredits(keys)))
  {
    usage := usage0;
    assert init + FlatEvents(queries[..0], QueryCredits(keys)) == init;
    for i := 0 to |queries|
      invariant usage == CountAll(init + FlatEvents(queries[..i], QueryCredits(keys)))
    {
      CreditQueryStep(keys, queries, i, init);
      usage := CreditQuery(usage, keys, queries[i], init + FlatEvents(queries[..i], QueryCredits(keys)));
    }
    assert queries[..|queries|] == queries;
  }

  /** The usage counter: every known table at zero, then the credits of every query. */
  function UsageOf(tables: seq<Table>, queries: seq<QueryRecord>): Counts<string>
  {
    var es := TableKeys(tables);
    CountAll(Weighted(KnownCanons(es), 0) + FlatEvents(queries, QueryCredits(KnownKeysOf(es))))
  }

  function Unused(usage: Counts<string>): string -> bool
  {
    (k: string) => Get(usage, k) == 0
  }

  /** `max(usage.items(), key=count)`: the first entry with the largest count. */
  function MaxEntry(c: Counts<string>): (r: Option<(string, int)>)
    ensures r.None? <==> c == []
    ensures r.Some? ==> exists i :: 0 <= i < |c| && c[i] == r.value && forall j :: 0 <= j < i ==> c[j].1 < r.value.1
    ensures r.Some? ==> forall j :: 0 <= j < |c| ==> c[j].1 <= r.value.1
  {
    if c == [] then None
    else match MaxEntry(c[1..])
      case None => Some(c[0])
      case Some(m) => if m.1 > c[0].1 then Some(m) else Some(c[0])
  }

  datatype Coverage = Coverage(
    tableUsage: Counts<string>,
    unusedTables: seq<string>,
    mostQueriedTable: Option<string>,
    mostQueriedCount: int)

  function Names(tables: seq<Table>): (r: seq<string>)
    ensures |r| == |tables|
  {
    seq(|tables|, k requires 0 <= k < |tables| => tables[k].name)
  }

  function LowerNames(tables: seq<Table>): (r: seq<string>)
    ensures |r| == |tables|
  {
    seq(|tables|, k requires 0 <= k < |tables| => Lower(tables[k].name))
  }

  /** `_analyze_query_coverage` */
  method AnalyzeQueryCoverage(tables: seq<Table>, queries: seq<QueryRecord>) returns (cov: Coverage)
    ensures queries == [] ==> cov == Coverage(CountAll(Weighted(LowerNames(tables), 0)), Names(tables), None, 0)
    ensures queries != [] ==>
      && cov.tableUsage == SortDesc(UsageOf(tables, queries), EntryWeight)
      && cov.unusedTables == Filter(KnownCanons(TableKeys(tables)), Unused(UsageOf(tables, queries)))
      && (cov.mostQueriedTable, cov.mostQueriedCount)
         == match MaxEntry(UsageOf(tables, queries)) case Some((k, v)) => (Some(k), v) case None => (None, 0)
  {
    if queries == [] {
      return Coverage(CountAll(Weighted(LowerNames(tables), 0)), Names(tables), None, 0);
    }
    var keys := BuildKnownKeys(tables);
    var canons := KnownCanons(TableKeys(tables));
    var usage := CountAll(Weighted(canons, 0));
    usage := CreditQueries(usage, keys, queries, Weighted(canons, 0));
    var unused := Filter(canons, Unused(usage));
    var most: Option<string> := None;
    var mostCount := 0;
    match MaxEntry(usage) {
      case Some((k, v)) =>
        most := Some(k);
        mostCount := v;
      case None =>
    }
    cov := Coverage(SortDesc(usage, EntryWeight), unused, most, mostCount);
  }

  /** Every known table has an entry in the usage counter, even when no query names it. */
  lemma KnownTablesCounted(tables: seq<Table>, queries: seq<QueryRecord>, c: string)
    requires c in KnownCanons(TableKeys(tables))
    ensures c in Keys(UsageOf(tables, queries))
  {
    var es := TableKeys(tables);
    LeadingKeysCounted(KnownCanons(es), 0, FlatEvents(queries, QueryCredits(KnownKeysOf(es))), c);
  }

  /** A usage count is exactly the run counts the queries credit to its key. */
  lemma UsageIsCredits(tables: seq<Table>, queries: seq<QueryRecord>, c: string)
    ensures Get(UsageOf(tables, queries), c) == WeightOf(FlatEvents(queries, QueryCredits(KnownKeysOf(TableKeys(tables)))), c)
  {
    var es := TableKeys(tables);
    var init := Weighted(KnownCanons(es), 0);
    var fe := FlatEvents(queries, QueryCredits(KnownKeysOf(es)));
    CountAllSound(init + fe);
    WeightOfAppend(init, fe, c);
    WeightedCount(KnownCanons(es), 0, c);
  }

  /** A query credits each reference it resolves with its run count. */
  lemma QueryCreditsRef(keys: map<string, string>, q: QueryRecord, ref: string)
    requires q.query != [] && RunsOf(q) >= 0
    requires ref in RefsFrom(q.query, CoverageRefs, 0) && AllForms(ref) != []
    ensures WeightOf(QueryCredits(keys)(q), ResolveForms(keys, AllForms(ref)).value) >= RunsOf(q)
  {
    var c := ResolveForms(keys, AllForms(ref)).value;
    var refs := RefsFrom(q.query, CoverageRefs, 0);
    var j :| 0 <= j < |refs| && refs[j] == ref;
    ResolvedKeysHas(keys, RefForms(refs), j);
    var credited := CreditedKeys(keys, q);
    assert c in credited;
    assert QueryCredits(keys)(q) == Weighted(credited, RunsOf(q));
    WeightedCount(credited, RunsOf(q), c);
    AtLeastOnce(RunsOf(q), Occurrences(credited, c));
  }

  lemma AtLeastOnce(w: int, n: int)
    requires w >= 0 && n >= 1
    ensures w * n >= w
  {
    NonnegProduct(w, n - 1);
  }

  /** With no negative run counts no query takes weight from any key. */
  lemma CreditsNonneg(keys: map<string, string>, queries: seq<QueryRecord>, c: string)
    requires forall j :: 0 <= j < |queries| ==> RunsOf(queries[j]) >= 0
    ensures forall j :: 0 <= j < |queries| ==> WeightOf(QueryCredits(keys)(queries[j]), c) >= 0
  {
    forall j | 0 <= j < |queries| ensures WeightOf(QueryCredits(keys)(queries[j]), c) >= 0 {
      WeightedCount(CreditedKeys(keys, queries[j]), RunsOf(queries[j]), c);
      NonnegProduct(RunsOf(queries[j]), Occurrences(CreditedKeys(keys, queries[j]), c));
    }
  }

  /**
   * With no negative run counts, a table that some non-empty query references with a
   * positive run count is credited at least that count and is not reported as unused.
   */
  lemma ReferencedTableIsUsed(tables: seq<Table>, queries: seq<QueryRecord>, i: nat, ref: string)
    requires i < |queries| && queries[i].query != []
    requires forall j :: 0 <= j < |queries| ==> RunsOf(queries[j]) >= 0
    requires RunsOf(queries[i]) > 0
    requires ref in RefsFrom(queries[i].query, CoverageRefs, 0)
    requires AllForms(ref) != []
    ensures Get(UsageOf(tables, queries), ResolveForms(KnownKeysOf(TableKeys(tables)), AllForms(ref)).value) >= RunsOf(queries[i])
    ensures ResolveForms(KnownKeysOf(TableKeys(tables)), AllForms(ref)).value !in Filter(KnownCanons(TableKeys(tables)), Unused(UsageOf(tables, queries)))
  {
    var keys := KnownKeysOf(TableKeys(tables));
    var c := ResolveForms(keys, AllForms(ref)).value;
    UsageIsCredits(tables, queries, c);
    CreditsNonneg(keys, queries, c);
    FlatEventsWeightAtLeast(queries, QueryCredits(keys), c, i);
    QueryCreditsRef(keys, queries[i], ref);
  }

  lemma NonnegProduct(a: int, b: int)
    requires a >= 0 && b >= 0
    ensures a * b >= 0
  {
  }

  // ---------------------------------------------------------------- partitioning

  /** Column-name fragments that mark a temporal column. */
  const DatePatterns: seq<string> :=
    ["date", "time", "year", "month", "quarter", "day", "timestamp", "created", "updated", "modified"]

  /** Data-type fragments that mark a temporal column. */
  const TemporalTypes: seq<string> := ["date", "time", "timestamp"]

  /** Column-name fragments that mark a categorical column. */
  const CategoryPatterns: seq<string> := ["type", "category", "status", "region", "country", "state"]

  const RangeReason := "Temporal column suitable for time-based partitioning"
  const RangeStrategy := "RANGE partitioning by date/time"
  const ListReason := "Categorical column suitable for list partitioning"
  const ListStrategy := "LIST partitioning by category"

  /** A column whose lower-cased name or data type looks like a date or a time. */
  predicate Temporal(c: Column)
  {
    MentionsAny(Lower(c.name), DatePatterns) || MentionsAny(Lower(c.dataType), TemporalTypes)
  }

  /** A column whose lower-cased name looks like a category. */
  predicate Categorical(c: Column)
  {
    MentionsAny(Lower(c.name), CategoryPatterns)
  }

  predicate Partitionable(c: Column) { Temporal(c) || Categorical(c) }

  datatype PartitionColumn = PartitionColumn(column: string, dataType: string, reason: string, strategy: string)

  datatype PartitionTable = PartitionTable(table: string, candidates: seq<PartitionColumn>)

  /**
   * The candidate entry of a partitionable column: a temporal column is proposed for
   * range partitioning, even when its name also looks categorical; any other for list
   * partitioning.
   */
  function CandidateOf(c: Column): (r: PartitionColumn)
    ensures r.column == c.name && r.dataType == c.dataType
    ensures r.strategy == RangeStrategy <==> Temporal(c)
    ensures r.strategy == ListStrategy <==> !Temporal(c)
    ensures r.reason == RangeReason <==> r.strategy == RangeStrategy
  {
    if Temporal(c) then PartitionColumn(c.name, c.dataType, RangeReason, RangeStrategy)
    else PartitionColumn(c.name, c.dataType, ListReason, ListStrategy)
  }

  /** The candidate entries of a table's partitionable columns, in column order. */
  function ColumnCandidatesOf(t: Table): seq<PartitionColumn>
  {
    Kept(t.columns, Partitionable, CandidateOf)
  }

  /** `schema.name`, or the bare name when the schema is empty. */
  function TableLabel(t: Table): (r: string)
    ensures |t.name| <= |r| && r[|r| - |t.name|..] == t.name
    ensures t.schema == [] ==> r == t.name
    ensures t.schema != [] ==> |r| == |t.schema| + 1 + |t.name| && r[..|t.schema|] == t.schema && r[|t.schema|] == '.'
  {
    if t.schema != [] then t.schema + "." + t.name else t.name
  }

  predicate HasCandidates(t: Table) { ColumnCandidatesOf(t) != [] }

  function PartitionEntry(t: Table): PartitionTable
  {
    PartitionTable(TableLabel(t), ColumnCandidatesOf(t))
  }

  /** The tables with at least one candidate column, in table order. */
  function PartitioningCandidates(tables: seq<Table>): seq<PartitionTable>
  {
    Kept(tables, HasCandidates, PartitionEntry)
  }

  /** The inner loop of `_identify_partitioning_candidates`: one entry per partitionable column. */
  method ColumnCandidates(columns: seq<Column>) returns (r: seq<PartitionColumn>)
    ensures r == Kept(columns, Partitionable, CandidateOf)
  {
    r := [];
    for i := 0 to |columns|
      invariant r == Kept(columns[..i], Partitionable, CandidateOf)
    {
      KeptSnoc(columns, i, Partitionable, CandidateOf);
      var c := columns[i];
      var name := Lower(c.name);
      if MentionsAny(name, DatePatterns) || MentionsAny(Lower(c.dataType), TemporalTypes) {
        r := r + [PartitionColumn(c.name, c.dataType, RangeReason, RangeStrategy)];
      } else if MentionsAny(name, CategoryPatterns) {
        r := r + [PartitionColumn(c.name, c.dataType, ListReason, ListStrategy)];
      }
    }
    assert columns[..|columns|] == columns;
  }

  /** `_identify_partitioning_candidates` */
  method IdentifyPartitioningCandidates(tables: seq<Table>) returns (r: seq<PartitionTable>)
    ensures r == PartitioningCandidates(tables)
  {
    r := [];
    for i := 0 to |tables|
      invariant r == Kept(tables[..i], HasCandidates, PartitionEntry)
    {
      KeptSnoc(tables, i, HasCandidates, PartitionEntry);
      var t := tables[i];
      var found := ColumnCandidates(t.columns);
      if found != [] {
        r := r + [PartitionTable(TableLabel(t), found)];
      }
    }
    assert tables[..|tables|] == tables;
  }

  /** A table is listed exactly when one of its columns is partitionable. */
  lemma HasCandidatesIff(t: Table)
    ensures HasCandidates(t) <==> exists j :: 0 <= j < |t.columns| && Partitionable(t.columns[j])
  {
    if HasCandidates(t) {
      KeptFrom(t.columns, Partitionable, CandidateOf, 0);
    }
    if j :| 0 <= j < |t.columns| && Partitionable(t.columns[j]) {
      KeptAt(t.columns, Partitionable, CandidateOf, j);
    }
  }

  /**
   * Every listed table has candidates, each of them the entry of one of its partitionable
   * columns, and every table with a partitionable column is listed.
   */
  lemma PartitioningCandidatesExactly(tables: seq<Table>)
    ensures forall k :: 0 <= k < |PartitioningCandidates(tables)| ==> PartitioningCandidates(tables)[k].candidates != []
    ensures forall i, j :: 0 <= i < |tables| && 0 <= j < |tables[i].columns| && Partitionable(tables[i].columns[j]) ==>
      PartitionEntry(tables[i]) in PartitioningCandidates(tables)
  {
    var r := PartitioningCandidates(tables);
    forall k | 0 <= k < |r| ensures r[k].candidates != [] {
      KeptFrom(tables, HasCandidates, PartitionEntry, k);
    }
    forall i, j | 0 <= i < |tables| && 0 <= j < |tables[i].columns| && Partitionable(tables[i].columns[j])
      ensures PartitionEntry(tables[i]) in r
    {
      HasCandidatesIff(tables[i]);
      KeptAt(tables, HasCandidates, PartitionEntry, i);
    }
  }

  /** Each proposed column is a partitionable column of its table, with the strategy its kind calls for. */
  lemma ColumnCandidateFrom(t: Table, k: nat)
    requires k < |ColumnCandidatesOf(t)|
    ensures exists j :: (0 <= j < |t.columns| && Partitionable(t.columns[j])
      && ColumnCandidatesOf(t)[k].column == t.columns[j].name
      && (ColumnCandidatesOf(t)[k].strategy == RangeStrategy <==> Temporal(t.columns[j])))
  {
    KeptFrom(t.columns, Partitionable, CandidateOf, k);
  }

  // ---------------------------------------------------------------- denormalization

  const SingleTableReason := "Single table schema - already denormalized"

  /** The opportunity level, reported by its lower-case name. */
  datatype Level = Low | Medium | High
  {
    function Name(): string
    {
      match this
      case Low => "low"
      case Medium => "medium"
      case High => "high"
    }
  }

  datatype Denormalization =
    | AlreadyDenormalized(level: Level, reason: string, recommendations: seq<string>)
    | JoinActivity(level: Level, totalJoinOperations: int, complexJoinQueries: int,
                   joinTypeDistribution: Counts<string>, recommendations: seq<string>)

  /** `query.upper().count('JOIN')` */
  function JoinWords(q: QueryRecord): nat
  {
    CountOccurrences(Upper(q.query), "JOIN")
  }

  /** The join operations a query stands for: its JOIN words times its runs. */
  function JoinRuns(q: QueryRecord): int
  {
    JoinWords(q) * RunsOf(q)
  }

  /** The runs of a query with more than three JOIN words; 0 for any other. */
  function ComplexRuns(q: QueryRecord): int
  {
    if JoinWords(q) > 3 then RunsOf(q) else 0
  }

  /** The join kinds an upper-cased query text mentions, each at most once, in the order INNER, LEFT, RIGHT. */
  function JoinKindsIn(u: string): (r: seq<string>)
    ensures Distinct(r)
    ensures forall k :: 0 <= k < |r| ==> r[k] in ["INNER", "LEFT", "RIGHT"]
    ensures "INNER" in r <==> Contains(u, "INNER JOIN")
    ensures "LEFT" in r <==> Contains(u, "LEFT JOIN") || Contains(u, "LEFT OUTER JOIN")
    ensures "RIGHT" in r <==> Contains(u, "RIGHT JOIN") || Contains(u, "RIGHT OUTER JOIN")
  {
    (if Contains(u, "INNER JOIN") then ["INNER"] else [])
    + (if Contains(u, "LEFT JOIN") || Contains(u, "LEFT OUTER JOIN") then ["LEFT"] else [])
    + (if Contains(u, "RIGHT JOIN") || Contains(u, "RIGHT OUTER JOIN") then ["RIGHT"] else [])
  }

  /** The join-kind counts a query adds: its runs for every kind it mentions. */
  function JoinKindCredits(q: QueryRecord): seq<(string, int)>
  {
    Weighted(JoinKindsIn(Upper(q.query)), RunsOf(q))
  }

  const HighAdvice: seq<string> := [
    "High frequency of complex joins (>3 tables) detected - consider denormalizing frequently joined tables",
    "Identify and pre-join common query patterns into wider tables",
    "Consider creating aggregate tables for common metrics"]

  const MediumAdvice: seq<string> := [
    "Moderate join activity - consider selective denormalization for hot query paths",
    "Analyze most frequent join pairs for potential denormalization"]

  const LowAdvice: seq<string> := ["Current join patterns appear manageable - maintain normalized structure"]

  /** The opportunity level of the join totals and its recommendations. */
  function Grade(complex: int, total: int): (r: (Level, seq<string>))
    ensures r.0 == High <==> complex > 1000
    ensures r.0 == Medium <==> complex <= 1000 && total > 5000
    ensures r.0 == Low <==> complex <= 1000 && total <= 5000
    ensures |r.1| == if complex > 1000 then 3 else if total > 5000 then 2 else 1
  {
    if complex > 1000 then (High, HighAdvice)
    else if total > 5000 then (Medium, MediumAdvice)
    else (Low, LowAdvice)
  }

  /** What `_identify_denormalization_opportunities` reports. */
  function DenormalizationOf(tables: seq<Table>, queries: seq<QueryRecord>): Denormalization
  {
    if |tables| <= 1 then AlreadyDenormalized(Low, SingleTableReason, [])
    else
      var total := SumOf(queries, JoinRuns);
      var complex := SumOf(queries, ComplexRuns);
      var (level, recommendations) := Grade(complex, total);
      JoinActivity(level, total, complex, CountAll(FlatEvents(queries, JoinKindCredits)), recommendations)
  }

  /** `_identify_denormalization_opportunities`: one pass over the queries summing joins and counting join kinds. */
  method IdentifyDenormalizationOpportunities(tables: seq<Table>, queries: seq<QueryRecord>) returns (d: Denormalization)
    ensures d == DenormalizationOf(tables, queries)
  {
    if |tables| <= 1 {
      return AlreadyDenormalized(Low, SingleTableReason, []);
    }
    var total := 0;
    var complex := 0;
    var kinds: Counts<string> := [];
    for i := 0 to |queries|
      invariant total == SumOf(queries[..i], JoinRuns)
      invariant complex == SumOf(queries[..i], ComplexRuns)
      invariant kinds == CountAll(FlatEvents(queries[..i], JoinKindCredits))
    {
      total, complex := TallyJoins(total, complex, queries, i);
      kinds := BumpFor(kinds, queries, i, JoinKindCredits, JoinKindsIn(Upper(queries[i].query)), RunsOf(queries[i]));
    }
    assert queries[..|queries|] == queries;
    var (level, recommendations) := Grade(complex, total);
    d := JoinActivity(level, total, complex, kinds, recommendations);
  }

  /** The join totals after query `queries[i]`. */
  method TallyJoins(total0: int, complex0: int, queries: seq<QueryRecord>, i: nat)
    returns (total: int, complex: int)
    requires i < |queries|
    requires total0 == SumOf(queries[..i], JoinRuns)
    requires complex0 == SumOf(queries[..i], ComplexRuns)
    ensures total == SumOf(queries[..i + 1], JoinRuns)
    ensures complex == SumOf(queries[..i + 1], ComplexRuns)
  {
    SumOfSnoc(queries, i, JoinRuns);
    SumOfSnoc(queries, i, ComplexRuns);
    var q := queries[i];
    var runs := RunsOf(q);
    var joins := CountOccurrences(Upper(q.query), "JOIN");
    total := total0 + joins * runs;
    complex := if joins > 3 then complex0 + runs else complex0;
  }

  /** With no negative run counts, every complex query accounts for at least four join operations per run. */
  lemma ComplexJoinsBounded(tables: seq<Table>, queries: seq<QueryRecord>)
    requires |tables| > 1
    requires forall j :: 0 <= j < |queries| ==> RunsOf(queries[j]) >= 0
    ensures 4 * DenormalizationOf(tables, queries).complexJoinQueries <= DenormalizationOf(tables, queries).totalJoinOperations
  {
    forall j | 0 <= j < |queries| ensures 4 * ComplexRuns(queries[j]) <= JoinRuns(queries[j]) {
      if JoinWords(queries[j]) > 3 {
        assert JoinRuns(queries[j]) == JoinWords(queries[j]) * RunsOf(queries[j]);
        MoreRuns(JoinWords(queries[j]), RunsOf(queries[j]));
      }
    }
    SumOfScaled(queries, ComplexRuns, JoinRuns, 4);
  }

  lemma MoreRuns(n: int, w: int)
    requires n >= 4 && w >= 0
    ensures 4 * w <= n * w
  {
    NonnegProduct(n - 4, w);
  }

  /** A high level needs a complex query that was run. */
  lemma HighNeedsComplexQuery(tables: seq<Table>, queries: seq<QueryRecord>)
    requires DenormalizationOf(tables, queries).level == High
    ensures exists j :: 0 <= j < |queries| && JoinWords(queries[j]) > 3 && RunsOf(queries[j]) > 0
  {
    SumOfPositive(queries, ComplexRuns);
    var j :| 0 <= j < |queries| && ComplexRuns(queries[j]) > 0;
    assert JoinWords(queries[j]) > 3;
  }

  /** Without the word JOIN anywhere the report is the low level with nothing counted. */
  lemma NoJoinsIsLow(tables: seq<Table>, queries: seq<QueryRecord>)
    requires |tables| > 1
    requires forall j :: 0 <= j < |queries| ==> !Contains(Upper(queries[j].query), "JOIN")
    ensures DenormalizationOf(tables, queries) ==
      JoinActivity(Low, 0, 0, [], LowAdvice)
  {
    forall j | 0 <= j < |queries| ensures JoinWords(queries[j]) == 0 && JoinKindCredits(queries[j]) == [] {
      var u := Upper(queries[j].query);
      CountZeroIffAbsent(u, "JOIN");
      JoinPhrasesNeedJoin(u);
    }
    SumOfZero(queries, JoinRuns);
    SumOfZero(queries, ComplexRuns);
    NoCredits(queries);
  }

  /** Every join phrase contains the word JOIN. */
  lemma JoinPhrasesNeedJoin(u: string)
    requires !Contains(u, "JOIN")
    ensures JoinKindsIn(u) == []
  {
    var phrases := ["INNER JOIN", "LEFT JOIN", "LEFT OUTER JOIN", "RIGHT JOIN", "RIGHT OUTER JOIN"];
    forall k | 0 <= k < |phrases| ensures !Contains(u, phrases[k]) {
      var w := phrases[k];
      assert w == w[..|w| - 4] + "JOIN" + "";
      ContainsInfix(w[..|w| - 4], "JOIN", "");
      if Contains(u, w) {
        ContainsTransitive(u, w, "JOIN");
      }
    }
    assert !Contains(u, phrases[0]) && !Contains(u, phrases[1]) && !Contains(u, phrases[2]);
    assert !Contains(u, phrases[3]) && !Contains(u, phrases[4]);
  }

  lemma {:induction false} NoCredits(queries: seq<QueryRecord>)
    requires forall j :: 0 <= j < |queries| ==> JoinKindCredits(queries[j]) == []
    ensures FlatEvents(queries, JoinKindCredits) == []
    decreases |queries|
  {
    if queries != [] {
      NoCredits(queries[..|queries| - 1]);
    }
  }

  /** The runs of the queries that mention join kind `kind`. */
  function KindRuns(kind: string): QueryRecord -> int
  {
    (q: QueryRecord) => if kind in JoinKindsIn(Upper(q.query)) then RunsOf(q) else 0
  }

  /**
   * Each join kind is counted with the total runs of the queries that mention it, once
   * per query, and only INNER, LEFT and RIGHT are ever counted.
   */
  lemma JoinKindDistribution(tables: seq<Table>, queries: seq<QueryRecord>, kind: string)
    requires |tables| > 1
    ensures Get(DenormalizationOf(tables, queries).joinTypeDistribution, kind) == SumOf(queries, KindRuns(kind))
    ensures kind in Keys(DenormalizationOf(tables, queries).joinTypeDistribution) ==> kind in ["INNER", "LEFT", "RIGHT"]
  {
    var events := FlatEvents(queries, JoinKindCredits);
    CountAllSound(events);
    forall j | 0 <= j < |queries| ensures WeightOf(JoinKindCredits(queries[j]), kind) == KindRuns(kind)(queries[j]) {
      WeightedOnce(JoinKindsIn(Upper(queries[j].query)), RunsOf(queries[j]), kind);
    }
    FlatEventsWeight(queries, JoinKindCredits, kind, KindRuns(kind));
    if kind in Keys(CountAll(events)) {
      KindFromCredits(queries, kind);
    }
  }

  lemma KindFromCredits(queries: seq<QueryRecord>, kind: string)
    requires exists i :: 0 <= i < |FlatEvents(queries, JoinKindCredits)| && FlatEvents(queries, JoinKindCredits)[i].0 == kind
    ensures kind in ["INNER", "LEFT", "RIGHT"]
  {
    var events := FlatEvents(queries, JoinKindCredits);
    var i :| 0 <= i < |events| && events[i].0 == kind;
    FlatEventsFrom(queries, JoinKindCredits, i);
    var j, m :| 0 <= j < |queries| && 0 <= m < |JoinKindCredits(queries[j])| && JoinKindCredits(queries[j])[m] == events[i];
    assert JoinKindsIn(Upper(queries[j].query))[m] == kind;
  }
}
