/**
 * The DDL parser: finds the table name and the column block of each
 * `CREATE TABLE ... WITH (...)` statement, splits the columns on commas, and builds
 * per-schema and per-type histograms over the parsed tables.
 */
module DdlParser {
  import opened Wrappers
  import opened Text
  import opened Scan
  import opened Counters
  import opened Lists

  datatype Column = Column(name: string, dataType: string, nullable: bool, constraints: Option<seq<string>>)

  datatype Table = Table(
    catalog: string,
    schema: string,
    name: string,
    columns: seq<Column>,
    indexes: Option<seq<string>>,
    constraints: Option<seq<string>>)

  /** Characters of a table name: anything but whitespace and `(`. */
  predicate NameChar(c: char)
  {
    !IsSpace(c) && c != '('
  }

  /** `CREATE TABLE\s+([^\s(]+)` matched at `i`, ignoring case: the span of the name. */
  function TableNameAt(ddl: string, i: nat): (r: Option<(nat, nat)>)
    ensures r.Some? ==> i + 12 < r.value.0 < r.value.1 <= |ddl|
    ensures r.Some? ==> forall k :: i + 12 <= k < r.value.0 ==> IsSpace(ddl[k])
    ensures r.Some? ==> forall k :: r.value.0 <= k < r.value.1 ==> NameChar(ddl[k])
    ensures r.Some? && r.value.1 < |ddl| ==> !NameChar(ddl[r.value.1])
  {
    if KeywordAt(ddl, i, "CREATE TABLE") then
      var p := SkipSpaces(ddl, i + 12);
      if p > i + 12 && p < |ddl| && NameChar(ddl[p]) then Some((p, SkipWhile(ddl, p, NameChar))) else None
    else None
  }

  /** The name of the first match at or after `i`, or `""`. */
  function TableNameFrom(ddl: string, i: nat): (r: string)
    ensures forall k :: 0 <= k < |r| ==> NameChar(r[k])
    decreases |ddl| - i
  {
    if i >= |ddl| then ""
    else
      match TableNameAt(ddl, i)
      case Some((p, e)) =>
        assert forall k :: 0 <= k < e - p ==> ddl[p..e][k] == ddl[p + k];
        ddl[p..e]
      case None => TableNameFrom(ddl, i + 1)
  }

  /** `_extract_table_name`: the name after the first `CREATE TABLE`, or `""`. */
  function ExtractTableName(ddl: string): (r: string)
    ensures forall k :: 0 <= k < |r| ==> NameChar(r[k])
  {
    TableNameFrom(ddl, 0)
  }

  /** The name is empty exactly when `CREATE TABLE` followed by whitespace and a name character occurs nowhere. */
  lemma {:induction false} TableNameFromEmpty(ddl: string, i: nat)
    ensures TableNameFrom(ddl, i) == "" <==> forall j: nat :: i <= j ==> TableNameAt(ddl, j).None?
    decreases |ddl| - i
  {
    if i < |ddl| {
      match TableNameAt(ddl, i)
      case Some((p, e)) =>
        assert |TableNameFrom(ddl, i)| == e - p > 0;
      case None =>
        TableNameFromEmpty(ddl, i + 1);
        assert TableNameFrom(ddl, i) == TableNameFrom(ddl, i + 1);
        NoMatchFromNext(ddl, i);
    } else {
      forall j: nat | i <= j ensures TableNameAt(ddl, j).None? {
        NoMatchPastEnd(ddl, j);
      }
    }
  }

  lemma NoMatchPastEnd(ddl: string, j: nat)
    requires |ddl| <= j
    ensures TableNameAt(ddl, j).None?
  {
    assert !KeywordAt(ddl, j, "CREATE TABLE");
  }

  lemma NoMatchFromNext(ddl: string, i: nat)
    requires TableNameAt(ddl, i).None?
    ensures (forall j: nat :: i + 1 <= j ==> TableNameAt(ddl, j).None?) ==> forall j: nat :: i <= j ==> TableNameAt(ddl, j).None?
  {
  }

  /** Without the keyword `CREATE TABLE` (in any case) the table name is empty. */
  lemma TableNameWithoutKeyword(ddl: string)
    requires !Contains(Upper(ddl), "CREATE TABLE")
    ensures ExtractTableName(ddl) == ""
  {
    forall j: nat | 0 <= j ensures TableNameAt(ddl, j).None? {
      if KeywordAt(ddl, j, "CREATE TABLE") {
        UpperSlice(ddl, j, j + 12);
        ContainsAt(Upper(ddl), "CREATE TABLE", j);
      }
    }
    TableNameFromEmpty(ddl, 0);
  }

  /** A statement that starts with `CREATE TABLE ` yields the maximal name run that follows. */
  lemma TableNameOfStatement(name: string, rest: string)
    requires |name| > 0 && forall k :: 0 <= k < |name| ==> NameChar(name[k])
    requires rest == [] || !NameChar(rest[0])
    ensures ExtractTableName("CREATE TABLE " + name + rest) == name
  {
    var ddl := "CREATE TABLE " + name + rest;
    UpperUnchanged("CREATE TABLE");
    assert ddl[0..12] == "CREATE TABLE";
    assert SkipSpaces(ddl, 12) == 13 by {
      assert IsSpace(ddl[12]) && !IsSpace(ddl[13]);
    }
    var e := SkipWhile(ddl, 13, NameChar);
    assert e == 13 + |name| by {
      SkipWhileOver(ddl, 13, 13 + |name|, NameChar);
    }
    assert ddl[13..e] == name;
  }

  /** A run of characters satisfying `p` that ends before a character failing `p` is skipped whole. */
  lemma {:induction false} SkipWhileOver(q: string, i: nat, j: nat, p: char -> bool)
    requires i <= j <= |q|
    requires forall k :: i <= k < j ==> p(q[k])
    requires j == |q| || !p(q[j])
    ensures SkipWhile(q, i, p) == j
    decreases j - i
  {
    if i < j {
      SkipWhileOver(q, i + 1, j, p);
    }
  }

  /**
   * `_parse_full_table_name`: three dot-separated parts are catalog, schema and name;
   * two are schema and name; any other count keeps the first part as the name.
   */
  function ParseFullTableName(full: string): (r: (string, string, string))
    ensures '.' !in r.0 && '.' !in r.1 && '.' !in r.2
    ensures CountChar(full, '.') == 2 ==> r.0 + "." + r.1 + "." + r.2 == full
    ensures CountChar(full, '.') == 1 ==> r.0 == "" && r.1 + "." + r.2 == full
    ensures CountChar(full, '.') == 0 ==> r == ("", "", full)
    ensures CountChar(full, '.') >= 3 ==> r.0 == "" && r.1 == "" && r.2 + "." <= full
  {
    var parts := Split(full, '.');
    JoinSplit(full, '.');
    SplitFirst(full, '.');
    if |parts| == 3 then
      assert parts[1..][1..] == [parts[2]];
      assert Join(parts[1..], ".") == parts[1] + "." + parts[2];
      assert Join(parts, ".") == parts[0] + "." + (parts[1] + "." + parts[2]);
      (parts[0], parts[1], parts[2])
    else if |parts| == 2 then
      assert Join(parts, ".") == parts[0] + "." + parts[1];
      ("", parts[0], parts[1])
    else
      ("", "", parts[0])
  }

  /** `\)\s*WITH` at `j`, ignoring case. */
  predicate CloseWithAt(q: string, j: nat)
  {
    j < |q| && q[j] == ')' && KeywordAt(q, SkipSpaces(q, j + 1), "WITH")
  }

  /** The greatest `j` with `lo <= j < hi` where `\)\s*WITH` matches. */
  function LastCloseWith(q: string, lo: nat, hi: nat): (r: Option<nat>)
    ensures r.Some? ==> lo <= r.value < hi && CloseWithAt(q, r.value)
    ensures r.Some? ==> forall j :: r.value < j < hi ==> !CloseWithAt(q, j)
    ensures r.None? ==> forall j :: lo <= j < hi ==> !CloseWithAt(q, j)
    decreases hi
  {
    if hi <= lo then None
    else if CloseWithAt(q, hi - 1) then Some(hi - 1)
    else LastCloseWith(q, lo, hi - 1)
  }

  /**
   * `CREATE TABLE[^(]+\((.*)\)\s*WITH` matched at `i` (ignoring case, `.` matching
   * newlines): the span of the group, from after the first `(` to the last `)`
   * followed by `WITH`.
   */
  function ColumnsBlockAt(ddl: string, i: nat): (r: Option<(nat, nat)>)
    ensures r.Some? ==> i + 12 < r.value.0 <= r.value.1 < |ddl|
    ensures r.Some? ==> ddl[r.value.0 - 1] == '(' && CloseWithAt(ddl, r.value.1)
    ensures r.Some? ==> forall k :: i + 12 <= k < r.value.0 - 1 ==> ddl[k] != '('
  {
    if KeywordAt(ddl, i, "CREATE TABLE") then
      var o := SkipWhile(ddl, i + 12, c => c != '(');
      if o > i + 12 && o < |ddl| then
        match LastCloseWith(ddl, o + 1, |ddl|)
        case Some(c) => Some((o + 1, c))
        case None => None
      else None
    else None
  }

  /** `re.search` of the column-block pattern from `i`. */
  function ColumnsBlockFrom(ddl: string, i: nat): (r: Option<(nat, nat)>)
    ensures r.Some? ==> r.value.0 <= r.value.1 <= |ddl|
    decreases |ddl| - i
  {
    if i >= |ddl| then None
    else if ColumnsBlockAt(ddl, i).Some? then ColumnsBlockAt(ddl, i)
    else ColumnsBlockFrom(ddl, i + 1)
  }

  /** Without a `)` the column block is never found. */
  lemma {:induction false} ColumnsBlockNeedsClose(ddl: string, i: nat)
    requires ')' !in ddl
    ensures ColumnsBlockFrom(ddl, i).None?
    decreases |ddl| - i
  {
    if i < |ddl| {
      ColumnsBlockNeedsClose(ddl, i + 1);
      assert forall k :: 0 <= k < |ddl| ==> ddl[k] != ')';
      assert ColumnsBlockAt(ddl, i).None?;
    }
  }

  /** `_split_column_definitions`: the comma-separated pieces, stripped, without blank ones. */
  function SplitColumnDefinitions(text: string): (r: seq<string>)
    ensures |r| <= CountChar(text, ',') + 1
    ensures forall k :: 0 <= k < |r| ==> Trimmed(r[k]) && ',' !in r[k]
  {
    NonBlankStrippedCommaFree(Split(text, ','));
    NonBlankStripped(Split(text, ','))
  }

  /** Non-empty, no leading or trailing whitespace. */
  predicate Trimmed(s: string)
  {
    |s| > 0 && !IsSpace(s[0]) && !IsSpace(s[|s| - 1])
  }

  function NonBlankStripped(pieces: seq<string>): (r: seq<string>)
    ensures |r| <= |pieces|
    ensures forall k :: 0 <= k < |r| ==> Trimmed(r[k])
  {
    if pieces == [] then []
    else
      var s := Strip(pieces[0]);
      var rest := NonBlankStripped(pieces[1..]);
      if s == [] then rest else [s] + rest
  }

  /** Stripping adds no character, so comma-free pieces stay comma-free. */
  lemma {:induction false} NonBlankStrippedCommaFree(pieces: seq<string>)
    requires forall k :: 0 <= k < |pieces| ==> ',' !in pieces[k]
    ensures forall k :: 0 <= k < |NonBlankStripped(pieces)| ==> ',' !in NonBlankStripped(pieces)[k]
  {
    if pieces != [] {
      NonBlankStrippedCommaFree(pieces[1..]);
    }
  }

  /** Pieces that are already trimmed pass through unchanged. */
  lemma {:induction false} NonBlankStrippedTrimmed(pieces: seq<string>)
    requires forall k :: 0 <= k < |pieces| ==> Trimmed(pieces[k])
    ensures NonBlankStripped(pieces) == pieces
  {
    if pieces != [] {
      StripTrimmed(pieces[0]);
      NonBlankStrippedTrimmed(pieces[1..]);
    }
  }

  /**
   * Definitions that are trimmed and comma-free, joined with commas, are split back
   * into the same definitions.
   */
  lemma SplitColumnDefinitionsOfJoin(defs: seq<string>)
    requires |defs| > 0
    requires forall k :: 0 <= k < |defs| ==> Trimmed(defs[k]) && ',' !in defs[k]
    ensures SplitColumnDefinitions(Join(defs, ",")) == defs
  {
    SplitJoin(defs, ',');
    NonBlankStrippedTrimmed(defs);
  }

  /** The split ignores parentheses: a `decimal(10,2)` column is cut in two. */
  lemma SplitIgnoresParentheses()
    ensures SplitColumnDefinitions("price decimal(10,2)") == ["price decimal(10", "2)"]
  {
    var defs := ["price decimal(10", "2)"];
    assert Join(defs, ",") == "price decimal(10,2)";
    SplitColumnDefinitionsOfJoin(defs);
  }

  /**
   * `_parse_column_definition`: fewer than two whitespace-separated tokens give no
   * column; otherwise token 0 is the name and token 1 the type, with token 2
   * appended when token 1 opens a parenthesis it does not close.
   */
  function ParseColumnDefinition(def: string): (r: Option<Column>)
    ensures r.Some? <==> |Words(def)| >= 2
    ensures r.Some? ==> r.value.name == Words(def)[0] && r.value.nullable && r.value.constraints.None?
    ensures r.Some? ==> Words(def)[1] <= r.value.dataType
  {
    var parts := Words(def);
    if |parts| < 2 then None
    else
      var dataType := if '(' in parts[1] && ')' !in parts[1] && |parts| > 2 then parts[1] + parts[2] else parts[1];
      Some(Column(parts[0], dataType, true, None))
  }

  /** A definition written as space-separated tokens is read back token by token. */
  lemma ParseColumnOfTokens(tokens: seq<string>)
    requires forall k :: 0 <= k < |tokens| ==> |tokens[k]| > 0 && NoSpace(tokens[k])
    ensures var r := ParseColumnDefinition(Join(tokens, " "));
      && (r.Some? <==> |tokens| >= 2)
      && (r.Some? ==> r.value.name == tokens[0])
      && (r.Some? && |tokens| > 2 && '(' in tokens[1] && ')' !in tokens[1] ==> r.value.dataType == tokens[1] + tokens[2])
      && (r.Some? && !(|tokens| > 2 && '(' in tokens[1] && ')' !in tokens[1]) ==> r.value.dataType == tokens[1])
  {
    WordsOfJoin(tokens);
  }

  /** The columns parsed from a list of definitions, in order. */
  function ParseColumns(defs: seq<string>): (r: seq<Column>)
    ensures |r| <= |defs|
    ensures forall k :: 0 <= k < |r| ==> r[k].nullable && r[k].constraints.None?
  {
    if defs == [] then []
    else
      var c := ParseColumnDefinition(Strip(defs[|defs| - 1]));
      ParseColumns(defs[..|defs| - 1]) + (if c.Some? then [c.value] else [])
  }

  lemma ParseColumnsSnoc(defs: seq<string>, i: nat)
    requires i < |defs|
    ensures ParseColumns(defs[..i + 1])
      == ParseColumns(defs[..i]) + match ParseColumnDefinition(Strip(defs[i])) case Some(c) => [c] case None => []
  {
    assert defs[..i + 1][..i] == defs[..i];
  }

  /** The columns `_extract_columns` returns for a statement. */
  function ColumnsOf(ddl: string): (r: seq<Column>)
    ensures ColumnsBlockFrom(ddl, 0).None? ==> r == []
    ensures forall k :: 0 <= k < |r| ==> r[k].nullable && r[k].constraints.None?
  {
    match ColumnsBlockFrom(ddl, 0)
    case None => []
    case Some((s, e)) => ParseColumns(SplitColumnDefinitions(ddl[s..e]))
  }

  /** `_extract_columns` */
  method ExtractColumns(ddl: string) returns (columns: seq<Column>)
    ensures columns == ColumnsOf(ddl)
    ensures ColumnsBlockFrom(ddl, 0).None? ==> columns == []
  {
    columns := [];
    var block := ColumnsBlockFrom(ddl, 0);
    if block.None? {
      return;
    }
    var defs := SplitColumnDefinitions(ddl[block.value.0..block.value.1]);
    var i := 0;
    while i < |defs|
      invariant 0 <= i <= |defs|
      invariant columns == ParseColumns(defs[..i])
    {
      ParseColumnsSnoc(defs, i);
      var column := ParseColumnDefinition(Strip(defs[i]));
      if column.Some? {
        columns := columns + [column.value];
      }
      i := i + 1;
    }
    assert defs[..i] == defs;
  }

  /**
   * The table `_parse_create_table` builds, when the statement tokenizes: the split
   * name and the extracted columns, with no indexes and no constraints.
   */
  function CreateTable(ddl: string): (t: Table)
    ensures t.indexes.None? && t.constraints.None?
    ensures (t.catalog, t.schema, t.name) == ParseFullTableName(ExtractTableName(ddl))
    ensures t.columns == ColumnsOf(ddl)
  {
    var (catalog, schema, name) := ParseFullTableName(ExtractTableName(ddl));
    Table(catalog, schema, name, ColumnsOf(ddl), None, None)
  }

  /**
   * `_parse_create_table`. `tokenizes` stands for `sqlparse.parse(ddl)[0]`, which
   * raises for text that yields no statement; the exception makes the result `None`.
   * Nothing else in the function can raise.
   */
  method ParseCreateTable(ddl: string, tokenizes: string -> bool) returns (t: Option<Table>)
    ensures t.Some? <==> tokenizes(ddl)
    ensures t.Some? ==> t.value == CreateTable(ddl)
    ensures t.Some? && ColumnsBlockFrom(ddl, 0).None? ==> t.value.columns == []
  {
    if !tokenizes(ddl) {
      return None;
    }
    var (catalog, schema, name) := ParseFullTableName(ExtractTableName(ddl));
    var columns := ExtractColumns(ddl);
    t := Some(Table(catalog, schema, name, columns, None, None));
  }

  /** The tables of the statements that tokenize, in input order. */
  function ParsedTables(statements: seq<string>, tokenizes: string -> bool): (r: seq<Table>)
    ensures |r| == |statements| - Failing(statements, tokenizes)
  {
    Kept(statements, tokenizes, CreateTable)
  }

  /** `parse_ddl_statements` */
  method ParseDdlStatements(statements: seq<string>, tokenizes: string -> bool) returns (tables: seq<Table>)
    ensures tables == ParsedTables(statements, tokenizes)
    ensures |tables| == |statements| - Failing(statements, tokenizes)
  {
    tables := [];
    var i := 0;
    while i < |statements|
      invariant 0 <= i <= |statements|
      invariant tables == Kept(statements[..i], tokenizes, CreateTable)
    {
      assert statements[..i + 1][..i] == statements[..i];
      var table := ParseCreateTable(statements[i], tokenizes);
      if table.Some? {
        tables := tables + [table.value];
      }
      i := i + 1;
    }
    assert statements[..i] == statements;
  }

  /**
   * Only statements that fail to tokenize are dropped, and the others keep their
   * order: the table of statement `i` comes after those of the earlier statements.
   */
  lemma ParsedTablesOrder(statements: seq<string>, tokenizes: string -> bool, i: nat)
    requires i < |statements| && tokenizes(statements[i])
    ensures i - Failing(statements[..i], tokenizes) < |ParsedTables(statements, tokenizes)|
    ensures ParsedTables(statements, tokenizes)[i - Failing(statements[..i], tokenizes)] == CreateTable(statements[i])
  {
    KeptAt(statements, tokenizes, CreateTable, i);
  }

  /** `f"{table.catalog}.{table.schema}"` */
  function SchemaKey(t: Table): string
  {
    t.catalog + "." + t.schema
  }

  /** `column.data_type.split('(')[0].lower()` */
  function BaseType(c: Column): (r: string)
    ensures |r| <= |c.dataType|
  {
    SplitFirst(c.dataType, '(');
    Lower(Split(c.dataType, '(')[0])
  }

  /** One count per table under its schema key. */
  function SchemaEvents(tables: seq<Table>): (r: seq<(string, int)>)
    ensures |r| == |tables| && SumWeights(r) == |tables|
  {
    if tables == [] then []
    else
      var init := SchemaEvents(tables[..|tables| - 1]);
      var r := init + [(SchemaKey(tables[|tables| - 1]), 1)];
      assert r[..|r| - 1] == init;
      r
  }

  /** One count per column under its base type. */
  function ColumnEvents(columns: seq<Column>): (r: seq<(string, int)>)
    ensures |r| == |columns| && SumWeights(r) == |columns|
  {
    if columns == [] then []
    else
      var init := ColumnEvents(columns[..|columns| - 1]);
      var r := init + [(BaseType(columns[|columns| - 1]), 1)];
      assert r[..|r| - 1] == init;
      r
  }

  /** The column events of all tables, table by table. */
  function TypeEvents(tables: seq<Table>): (r: seq<(string, int)>)
    ensures |r| == ColumnCount(tables) && SumWeights(r) == ColumnCount(tables)
  {
    if tables == [] then []
    else
      var init := TypeEvents(tables[..|tables| - 1]);
      var cols := ColumnEvents(tables[|tables| - 1].columns);
      SumWeightsAppend(init, cols);
      init + cols
  }

  /** `sum(len(table.columns) for table in tables)` */
  function ColumnCount(tables: seq<Table>): nat
  {
    if tables == [] then 0 else ColumnCount(tables[..|tables| - 1]) + |tables[|tables| - 1].columns|
  }

  /** `_group_by_schema` */
  method GroupBySchema(tables: seq<Table>) returns (counts: Counts<string>)
    ensures counts == CountAll(SchemaEvents(tables))
    ensures Total(counts) == |tables| && Distinct(Keys(counts))
    ensures forall k :: Get(counts, k) == WeightOf(SchemaEvents(tables), k)
  {
    counts := [];
    var i := 0;
    while i < |tables|
      invariant 0 <= i <= |tables|
      invariant counts == CountAll(SchemaEvents(tables[..i]))
    {
      assert tables[..i + 1][..i] == tables[..i];
      CountAllSnoc(SchemaEvents(tables[..i]), (SchemaKey(tables[i]), 1));
      counts := Bump(counts, SchemaKey(tables[i]), 1);
      i := i + 1;
    }
    assert tables[..i] == tables;
    CountAllSound(SchemaEvents(tables));
  }

  /** `_get_column_types_stats` */
  method ColumnTypesStats(tables: seq<Table>) returns (counts: Counts<string>)
    ensures counts == CountAll(TypeEvents(tables))
    ensures Total(counts) == ColumnCount(tables) && Distinct(Keys(counts))
    ensures forall k :: Get(counts, k) == WeightOf(TypeEvents(tables), k)
  {
    counts := [];
    var i := 0;
    while i < |tables|
      invariant 0 <= i <= |tables|
      invariant counts == CountAll(TypeEvents(tables[..i]))
    {
      assert tables[..i + 1][..i] == tables[..i];
      counts := CountColumnTypes(counts, tables[i].columns, TypeEvents(tables[..i]));
      i := i + 1;
    }
    assert tables[..i] == tables;
    CountAllSound(TypeEvents(tables));
  }

  lemma ColumnEventsSnoc(columns: seq<Column>, j: nat, before: seq<(string, int)>)
    requires j < |columns|
    ensures before + ColumnEvents(columns[..j + 1]) == (before + ColumnEvents(columns[..j])) + [(BaseType(columns[j]), 1)]
  {
    assert columns[..j + 1][..j] == columns[..j];
  }

  /** The inner loop of `_get_column_types_stats`: counts the base types of one table's columns. */
  method CountColumnTypes(counts0: Counts<string>, columns: seq<Column>, ghost before: seq<(string, int)>) returns (counts: Counts<string>)
    requires counts0 == CountAll(before)
    ensures counts == CountAll(before + ColumnEvents(columns))
  {
    counts := counts0;
    assert before + ColumnEvents(columns[..0]) == before;
    for j := 0 to |columns|
      invariant counts == CountAll(before + ColumnEvents(columns[..j]))
    {
      ghost var done := before + ColumnEvents(columns[..j]);
      var e := (BaseType(columns[j]), 1);
      ColumnEventsSnoc(columns, j, before);
      CountAllSnoc(done, e);
      counts := Bump(counts, e.0, 1);
    }
    assert columns[..|columns|] == columns;
  }

  datatype TableStats = TableStats(
    totalTables: nat,
    totalColumns: nat,
    tablesBySchema: Counts<string>,
    columnTypesDistribution: Counts<string>)

  /**
   * `get_table_stats`: the schema histogram adds up to the number of tables and the
   * type histogram to the number of columns.
   */
  method GetTableStats(tables: seq<Table>) returns (stats: TableStats)
    ensures stats.totalTables == |tables| && stats.totalColumns == ColumnCount(tables)
    ensures stats.tablesBySchema == CountAll(SchemaEvents(tables))
    ensures stats.columnTypesDistribution == CountAll(TypeEvents(tables))
    ensures Total(stats.tablesBySchema) == stats.totalTables
    ensures Total(stats.columnTypesDistribution) == stats.totalColumns
  {
    var bySchema := GroupBySchema(tables);
    var byType := ColumnTypesStats(tables);
    stats := TableStats(|tables|, ColumnCount(tables), bySchema, byType);
  }
}
