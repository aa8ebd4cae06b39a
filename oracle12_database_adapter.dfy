/**
 * SQL generation of the Oracle 12+ database adapter: paged SELECT statements
 * (`OFFSET … ROWS FETCH NEXT … ROWS ONLY`, or a range predicate on a
 * partitioning column) and MERGE-based upserts.
 *
 * A Java `null` string or collection is modelled as the empty one: the
 * adapter tests every such argument with a null-or-empty check, so the two
 * are never told apart.
 */
module Oracle12 {
  import opened Wrappers
  import opened Text
  import opened JavaLong

  /** The `IllegalArgumentException` the adapter throws, with its message. */
  datatype SqlError = IllegalArgument(message: string)

  const SELECT_TABLE_REQUIRED := "Table name cannot be null or empty"
  const UPSERT_TABLE_REQUIRED := "Table name cannot be null or blank"
  const COLUMNS_REQUIRED := "Column names cannot be null or empty"
  const KEYS_REQUIRED := "Key column names cannot be null or empty"

  /** The alias the MERGE statement gives to the row of new values. */
  const NEW_VALUES_ALIAS := "n"

  /** The select list: `*` for an empty (or, after trimming, starred) list, else the list as given. */
  function SelectList(columnNames: string): (s: string)
    ensures s == "*" || s == columnNames
    ensures columnNames == "" ==> s == "*"
    ensures Trim(columnNames) != "*" && columnNames != "" ==> s == columnNames
    ensures Trim(columnNames) == "*" ==> s == "*"
  {
    if columnNames == "" || Trim(columnNames) == "*" then "*" else columnNames
  }

  /** `SELECT <list> FROM <table>`, the head every generated query starts with. */
  function SelectHead(tableName: string, columnNames: string): string {
    "SELECT " + SelectList(columnNames) + " FROM " + tableName
  }

  /** The decimal text of an optional long, `0` when it is null. */
  function OffsetText(offset: Option<int64>): string {
    match offset
    case Some(o) => LongToString(o)
    case None => "0"
  }

  function OffsetOrZero(offset: Option<int64>): int64 {
    match offset
    case Some(o) => o
    case None => 0
  }

  /**
   * `getSelectStatement` with a partitioning column (the seven-argument form),
   * written as the sequence of appends the adapter makes to its query
   * builder. With a partitioning column, paging becomes a range on that
   * column (at least the offset, below offset + limit, a wrapping long
   * addition) added to a non-empty WHERE clause, and neither ORDER BY nor
   * OFFSET/FETCH is written; without one, ORDER BY is written when given,
   * `OFFSET o ROWS` for a positive offset and `FETCH NEXT n ROWS ONLY` for a
   * limit.
   */
  function GetSelectStatementPartitioned(
    tableName: string, columnNames: string, whereClause: string, orderByClause: string,
    limit: Option<int64>, offset: Option<int64>, columnForPartitioning: string): (r: Result<string, SqlError>)
    ensures r.Failure? <==> tableName == ""
    ensures r.Failure? ==> r.error == IllegalArgument(SELECT_TABLE_REQUIRED)
  {
    if tableName == "" then Failure(IllegalArgument(SELECT_TABLE_REQUIRED))
    else
      var partitioned := columnForPartitioning != "";
      var q := SelectHead(tableName, columnNames);
      var q := if whereClause != "" then q + " WHERE " + whereClause else q;
      var q := if whereClause != "" && partitioned
        then q + " AND " + columnForPartitioning + " >= " + OffsetText(offset) else q;
      var q := if whereClause != "" && partitioned && limit.Some?
        then q + " AND " + columnForPartitioning + " < " + LongToString(Add(OffsetOrZero(offset), limit.value)) else q;
      var q := if orderByClause != "" && !partitioned then q + " ORDER BY " + orderByClause else q;
      var q := if !partitioned && offset.Some? && offset.value > 0
        then q + " OFFSET " + LongToString(offset.value) + " ROWS" else q;
      var q := if !partitioned && limit.Some? then q + " FETCH NEXT " + LongToString(limit.value) + " ROWS ONLY" else q;
      Success(q)
  }

  /** `getSelectStatement` without a partitioning column (the six-argument form). */
  function GetSelectStatement(
    tableName: string, columnNames: string, whereClause: string, orderByClause: string,
    limit: Option<int64>, offset: Option<int64>): (r: Result<string, SqlError>)
    ensures r.Failure? <==> tableName == ""
    ensures r.Failure? ==> r.error == IllegalArgument(SELECT_TABLE_REQUIRED)
  {
    GetSelectStatementPartitioned(tableName, columnNames, whereClause, orderByClause, limit, offset, "")
  }

  /** The adapter supports upserts. */
  function SupportsUpsert(): (b: bool)
    ensures b
  {
    true
  }

  /** `table.column`. */
  function TableDotColumn(table: string, column: string): string {
    table + "." + column
  }

  /** `table.column = n.column` for each column, in order. */
  function Assignments(table: string, columns: seq<string>): (r: seq<string>)
    ensures |r| == |columns|
    ensures forall i :: 0 <= i < |columns| ==>
      r[i] == TableDotColumn(table, columns[i]) + " = " + NEW_VALUES_ALIAS + "." + columns[i]
  {
    seq(|columns|, i requires 0 <= i < |columns| =>
      TableDotColumn(table, columns[i]) + " = " + NEW_VALUES_ALIAS + "." + columns[i])
  }

  /** The columns that are not key columns, in their original order. */
  function NonKeyColumns(columns: seq<string>, keys: seq<string>): (r: seq<string>)
    ensures |r| <= |columns|
    decreases |columns|
  {
    if columns == [] then []
    else (if columns[0] in keys then [] else [columns[0]]) + NonKeyColumns(columns[1..], keys)
  }

  /**
   * `getUpsertStatement`: the arguments are checked in order (table, columns,
   * keys); then a MERGE of one row of bind parameters selected from DUAL,
   * matched on the key columns, inserting every column when no row matches
   * and updating the non-key columns when one does.
   */
  function GetUpsertStatement(table: string, columnNames: seq<string>, uniqueKeyColumnNames: seq<string>): (r: Result<string, SqlError>)
    ensures table == "" ==> r == Failure(IllegalArgument(UPSERT_TABLE_REQUIRED))
    ensures table != "" && columnNames == [] ==> r == Failure(IllegalArgument(COLUMNS_REQUIRED))
    ensures table != "" && columnNames != [] && uniqueKeyColumnNames == [] ==> r == Failure(IllegalArgument(KEYS_REQUIRED))
    ensures r.Success? <==> table != "" && columnNames != [] && uniqueKeyColumnNames != []
  {
    if table == "" then Failure(IllegalArgument(UPSERT_TABLE_REQUIRED))
    else if columnNames == [] then Failure(IllegalArgument(COLUMNS_REQUIRED))
    else if uniqueKeyColumnNames == [] then Failure(IllegalArgument(KEYS_REQUIRED))
    else
      var columns := "? " + Join(columnNames, ", ? ");
      var conflictClause := "(" + Join(Assignments(table, uniqueKeyColumnNames), " AND ") + ")";
      var insertValues := NEW_VALUES_ALIAS + "." + Join(columnNames, ", " + NEW_VALUES_ALIAS + ".");
      var updateValues := Join(Assignments(table, NonKeyColumns(columnNames, uniqueKeyColumnNames)), ", ");
      Success("MERGE INTO " + table + " USING (SELECT " + columns + " FROM DUAL) " + NEW_VALUES_ALIAS
        + " ON " + conflictClause
        + " WHEN NOT MATCHED THEN INSERT (" + Join(columnNames, ", ") + ") VALUES (" + insertValues + ")"
        + " WHEN MATCHED THEN UPDATE SET " + updateValues)
  }

  // Properties of the generated SELECT statements

  /** `keyword + text`, or nothing when `text` is empty. */
  function Clause(keyword: string, text: string): string {
    if text == "" then "" else keyword + text
  }

  /** The `OFFSET o ROWS` clause, written only for a positive offset. */
  function OffsetRows(offset: Option<int64>): string {
    if offset.Some? && offset.value > 0 then " OFFSET " + LongToString(offset.value) + " ROWS" else ""
  }

  lemma AppendClause(q: string, keyword: string, text: string)
    ensures q + Clause(keyword, text) == if text == "" then q else q + keyword + text
  {
  }

  lemma AppendOffsetRows(q: string, offset: Option<int64>)
    ensures q + OffsetRows(offset) ==
      if offset.Some? && offset.value > 0 then q + " OFFSET " + LongToString(offset.value) + " ROWS" else q
  {
  }

  /** Without paging, the query is the head, then WHERE, then ORDER BY, each only when given. */
  lemma SelectWithoutPaging(tableName: string, columnNames: string, whereClause: string, orderByClause: string)
    requires tableName != ""
    ensures GetSelectStatement(tableName, columnNames, whereClause, orderByClause, None, None)
      == Success(SelectHead(tableName, columnNames) + Clause(" WHERE ", whereClause) + Clause(" ORDER BY ", orderByClause))
  {
    var head := SelectHead(tableName, columnNames);
    AppendClause(head, " WHERE ", whereClause);
    AppendClause(head + Clause(" WHERE ", whereClause), " ORDER BY ", orderByClause);
  }

  /**
   * With a limit and no partitioning column the query ends in
   * `FETCH NEXT <limit> ROWS ONLY`, preceded by `OFFSET <offset> ROWS` exactly
   * when the offset is positive; both come after ORDER BY.
   */
  lemma SelectPaging(tableName: string, columnNames: string, whereClause: string, orderByClause: string,
                     limit: int64, offset: Option<int64>)
    requires tableName != ""
    ensures GetSelectStatement(tableName, columnNames, whereClause, orderByClause, Some(limit), offset)
      == Success(SelectHead(tableName, columnNames) + Clause(" WHERE ", whereClause) + Clause(" ORDER BY ", orderByClause)
        + OffsetRows(offset) + " FETCH NEXT " + LongToString(limit) + " ROWS ONLY")
  {
    var head := SelectHead(tableName, columnNames);
    AppendClause(head, " WHERE ", whereClause);
    AppendClause(head + Clause(" WHERE ", whereClause), " ORDER BY ", orderByClause);
    AppendOffsetRows(head + Clause(" WHERE ", whereClause) + Clause(" ORDER BY ", orderByClause), offset);
  }

  /**
   * With a partitioning column and a WHERE clause, paging turns into a range
   * on that column appended to the WHERE clause; no ORDER BY, OFFSET or
   * FETCH is written.
   */
  lemma SelectPartitioned(tableName: string, columnNames: string, whereClause: string, orderByClause: string,
                          limit: int64, offset: Option<int64>, column: string)
    requires tableName != "" && whereClause != "" && column != ""
    ensures GetSelectStatementPartitioned(tableName, columnNames, whereClause, orderByClause, Some(limit), offset, column)
      == Success(SelectHead(tableName, columnNames) + " WHERE " + whereClause
        + " AND " + column + " >= " + OffsetText(offset)
        + " AND " + column + " < " + LongToString(Add(OffsetOrZero(offset), limit)))
  {
  }

  /** With a partitioning column but no WHERE clause, ordering and paging are dropped. */
  lemma SelectPartitionedWithoutWhere(tableName: string, columnNames: string, orderByClause: string,
                                      limit: Option<int64>, offset: Option<int64>, column: string)
    requires tableName != "" && column != ""
    ensures GetSelectStatementPartitioned(tableName, columnNames, "", orderByClause, limit, offset, column)
      == Success(SelectHead(tableName, columnNames))
  {
  }

  // The statements the adapter's tests expect, split where the adapter appends

  const TEST_TABLE: string := "database.tablename"
  const TEST_COLUMNS: string := "some(set),of(columns),that,might,contain,methods,a.*"
  const TEST_WHERE: string := "that='some\"' value'"

  /** A character that `trim` keeps lies outside the trimmed ends. */
  lemma VisibleBetweenTrimmedEnds(s: string, i: nat, j: nat, a: nat)
    requires i <= j <= |s| && a < |s| && !IsTrimmed(s[a])
    requires AllTrimmed(s[..i]) && AllTrimmed(s[j..])
    ensures i <= a < j
  {
  }

  /** A column list with two non-blank characters is not selected as `*`. */
  lemma NotStarWithTwoVisible(columnNames: string, a: nat, b: nat)
    requires a < b < |columnNames|
    requires !IsTrimmed(columnNames[a]) && !IsTrimmed(columnNames[b])
    ensures SelectList(columnNames) == columnNames
  {
    var t := Trim(columnNames);
    var i, j :| 0 <= i <= j <= |columnNames| && t == columnNames[i..j]
      && AllTrimmed(columnNames[..i]) && AllTrimmed(columnNames[j..]);
    VisibleBetweenTrimmedEnds(columnNames, i, j, a);
    VisibleBetweenTrimmedEnds(columnNames, i, j, b);
  }

  lemma TestColumnsAreNotStar()
    ensures SelectList(TEST_COLUMNS) == TEST_COLUMNS
  {
    NotStarWithTwoVisible(TEST_COLUMNS, |TEST_COLUMNS| - 2, |TEST_COLUMNS| - 1);
  }

  /** The column list, WHERE and ORDER BY without paging. */
  lemma GenerationExamples()
    ensures GetSelectStatement(TEST_TABLE, TEST_COLUMNS, "", "", None, None)
      == Success("SELECT " + TEST_COLUMNS + " FROM " + TEST_TABLE)
    ensures GetSelectStatement(TEST_TABLE, TEST_COLUMNS, TEST_WHERE, "", None, None)
      == Success("SELECT " + TEST_COLUMNS + " FROM " + TEST_TABLE + " WHERE " + TEST_WHERE)
    ensures GetSelectStatement(TEST_TABLE, TEST_COLUMNS, TEST_WHERE, "might DESC", None, None)
      == Success("SELECT " + TEST_COLUMNS + " FROM " + TEST_TABLE + " WHERE " + TEST_WHERE + " ORDER BY " + "might DESC")
    ensures GetSelectStatement(TEST_TABLE, "", TEST_WHERE, "might DESC", None, None)
      == Success("SELECT " + "*" + " FROM " + TEST_TABLE + " WHERE " + TEST_WHERE + " ORDER BY " + "might DESC")
    ensures GetSelectStatement("", TEST_COLUMNS, "", "", None, None).Failure?
  {
    TestColumnsAreNotStar();
  }

  lemma TestHead()
    ensures SelectHead(TEST_TABLE, TEST_COLUMNS) == "SELECT " + TEST_COLUMNS + " FROM " + TEST_TABLE
  {
    TestColumnsAreNotStar();
  }

  lemma TestNumbers()
    ensures LongToString(0) == "0" && LongToString(100) == "100"
    ensures LongToString(10000) == "10000" && LongToString(123456) == "123456"
    ensures LongToString(133456) == "133456"
  {
  }

  /** A zero offset writes no OFFSET clause; the limit comes after ORDER BY. */
  lemma PagingZeroOffsetExample()
    ensures GetSelectStatement(TEST_TABLE, TEST_COLUMNS, "", "contain", Some(100), Some(0))
      == Success("SELECT " + TEST_COLUMNS + " FROM " + TEST_TABLE + " ORDER BY " + "contain"
        + " FETCH NEXT " + "100" + " ROWS ONLY")
  {
    TestHead();
    TestNumbers();
    var head := SelectHead(TEST_TABLE, TEST_COLUMNS);
    assert head + Clause(" WHERE ", "") == head;
    SelectPaging(TEST_TABLE, TEST_COLUMNS, "", "contain", 100, Some(0));
  }

  /** A positive offset writes `OFFSET … ROWS` between ORDER BY and FETCH. */
  lemma PagingOffsetExamples()
    ensures GetSelectStatement(TEST_TABLE, TEST_COLUMNS, "", "contain", Some(10000), Some(123456))
      == Success("SELECT " + TEST_COLUMNS + " FROM " + TEST_TABLE + " ORDER BY " + "contain"
        + " OFFSET " + "123456" + " ROWS" + " FETCH NEXT " + "10000" + " ROWS ONLY")
    ensures GetSelectStatement(TEST_TABLE, TEST_COLUMNS, "methods='strange'", "contain", Some(10000), Some(123456))
      == Success("SELECT " + TEST_COLUMNS + " FROM " + TEST_TABLE + " WHERE " + "methods='strange'" + " ORDER BY " + "contain"
        + " OFFSET " + "123456" + " ROWS" + " FETCH NEXT " + "10000" + " ROWS ONLY")
  {
    TestHead();
    TestNumbers();
    var head := SelectHead(TEST_TABLE, TEST_COLUMNS);
    assert head + Clause(" WHERE ", "") == head;
    SelectPaging(TEST_TABLE, TEST_COLUMNS, "", "contain", 10000, Some(123456));
    SelectPaging(TEST_TABLE, TEST_COLUMNS, "methods='strange'", "contain", 10000, Some(123456));
  }

  /** A limit with neither ORDER BY nor offset is written straight after the head. */
  lemma PagingLimitOnlyExample()
    ensures GetSelectStatement(TEST_TABLE, TEST_COLUMNS, "", "", Some(100), None)
      == Success("SELECT " + TEST_COLUMNS + " FROM " + TEST_TABLE + " FETCH NEXT " + "100" + " ROWS ONLY")
  {
    TestHead();
    TestNumbers();
    var head := SelectHead(TEST_TABLE, TEST_COLUMNS);
    assert head + Clause(" WHERE ", "") == head;
    assert head + Clause(" ORDER BY ", "") + OffsetRows(None) == head;
    SelectPaging(TEST_TABLE, TEST_COLUMNS, "", "", 100, None);
  }

  /** A partitioning column turns paging into a range in the WHERE clause, or drops it. */
  lemma PartitioningExamples()
    ensures GetSelectStatementPartitioned(TEST_TABLE, TEST_COLUMNS, "1=1", "contain", Some(100), Some(0), "contain")
      == Success("SELECT " + TEST_COLUMNS + " FROM " + TEST_TABLE + " WHERE " + "1=1"
        + " AND " + "contain" + " >= " + "0" + " AND " + "contain" + " < " + "100")
    ensures GetSelectStatementPartitioned(TEST_TABLE, TEST_COLUMNS, "1=1", "contain", Some(10000), Some(123456), "contain")
      == Success("SELECT " + TEST_COLUMNS + " FROM " + TEST_TABLE + " WHERE " + "1=1"
        + " AND " + "contain" + " >= " + "123456" + " AND " + "contain" + " < " + "133456")
    ensures GetSelectStatementPartitioned(TEST_TABLE, TEST_COLUMNS, "methods='strange'", "contain", Some(10000), Some(123456), "contain")
      == Success("SELECT " + TEST_COLUMNS + " FROM " + TEST_TABLE + " WHERE " + "methods='strange'"
        + " AND " + "contain" + " >= " + "123456" + " AND " + "contain" + " < " + "133456")
    ensures GetSelectStatementPartitioned(TEST_TABLE, TEST_COLUMNS, "", "", Some(100), None, "contain")
      == Success("SELECT " + TEST_COLUMNS + " FROM " + TEST_TABLE)
  {
    TestHead();
    TestNumbers();
    assert Add(0, 100) == 100 && Add(123456, 10000) == 133456;
    SelectPartitioned(TEST_TABLE, TEST_COLUMNS, "1=1", "contain", 100, Some(0), "contain");
    SelectPartitioned(TEST_TABLE, TEST_COLUMNS, "1=1", "contain", 10000, Some(123456), "contain");
    SelectPartitioned(TEST_TABLE, TEST_COLUMNS, "methods='strange'", "contain", 10000, Some(123456), "contain");
    SelectPartitionedWithoutWhere(TEST_TABLE, TEST_COLUMNS, "", Some(100), None, "contain");
  }

  // Properties of the generated upsert

  /** A column survives the key filter exactly when it is a column and not a key. */
  lemma {:induction false} NonKeyColumnsMembers(columns: seq<string>, keys: seq<string>, c: string)
    ensures c in NonKeyColumns(columns, keys) <==> c in columns && c !in keys
    decreases |columns|
  {
    if columns != [] {
      NonKeyColumnsMembers(columns[1..], keys, c);
      assert columns == [columns[0]] + columns[1..];
    }
  }

  /** The key filter keeps the columns' order: it distributes over concatenation. */
  lemma {:induction false} NonKeyColumnsAppend(a: seq<string>, b: seq<string>, keys: seq<string>)
    ensures NonKeyColumns(a + b, keys) == NonKeyColumns(a, keys) + NonKeyColumns(b, keys)
    decreases |a|
  {
    if a == [] {
      assert a + b == b;
    } else {
      NonKeyColumnsAppend(a[1..], b, keys);
      var head := if a[0] in keys then [] else [a[0]];
      assert (a + b)[0] == a[0] && (a + b)[1..] == a[1..] + b;
      assert NonKeyColumns(a + b, keys) == head + NonKeyColumns(a[1..] + b, keys);
      assert NonKeyColumns(a, keys) == head + NonKeyColumns(a[1..], keys);
    }
  }

  /**
   * The upsert in terms of its parts: one bind parameter `? c` per column, the
   * key equalities joined by AND, every column inserted from `n.c`, and the
   * non-key columns assigned.
   */
  lemma UpsertLayout(table: string, columnNames: seq<string>, keys: seq<string>)
    requires table != "" && columnNames != [] && keys != []
    ensures GetUpsertStatement(table, columnNames, keys)
      == Success("MERGE INTO " + table + " USING (SELECT " + Join(Prefixed("? ", columnNames), ", ") + " FROM DUAL) " + NEW_VALUES_ALIAS
        + " ON " + ("(" + Join(Assignments(table, keys), " AND ") + ")")
        + " WHEN NOT MATCHED THEN INSERT (" + Join(columnNames, ", ") + ") VALUES (" + Join(Prefixed("n.", columnNames), ", ") + ")"
        + " WHEN MATCHED THEN UPDATE SET " + Join(Assignments(table, NonKeyColumns(columnNames, keys)), ", "))
  {
    JoinWithPrefix(columnNames, ", ", "? ");
    assert ", " + "? " == ", ? ";
    JoinWithPrefix(columnNames, ", ", "n.");
    assert ", " + "n." == ", " + NEW_VALUES_ALIAS + ".";
    assert "n." == NEW_VALUES_ALIAS + ".";
  }

  lemma JoinOfTwo(a: string, b: string, sep: string)
    ensures Join([a, b], sep) == a + sep + b
  {
    assert [a, b][1..] == [b];
  }

  lemma JoinOfFour(a: string, b: string, c: string, d: string, sep: string)
    ensures Join([a, b, c, d], sep) == a + sep + b + sep + c + sep + d
  {
    assert [a, b, c, d][1..] == [b, c, d];
    assert [b, c, d][1..] == [c, d];
    JoinOfTwo(c, d, sep);
  }

  /** `table.column = n.column`, split where the adapter appends. */
  function TestAssignment(c: string): string {
    "table" + "." + c + " = " + "n" + "." + c
  }

  /**
   * The upsert of four columns keyed on the second and the fourth, split where
   * the adapter appends.
   */
  lemma UpsertExample()
    ensures GetUpsertStatement("table", ["column1", "column2", "column3", "column4"], ["column2", "column4"])
      == Success("MERGE INTO " + "table" + " USING (SELECT "
        + (("? " + "column1") + ", " + ("? " + "column2") + ", " + ("? " + "column3") + ", " + ("? " + "column4"))
        + " FROM DUAL) " + "n"
        + " ON " + ("(" + (TestAssignment("column2") + " AND " + TestAssignment("column4")) + ")")
        + " WHEN NOT MATCHED THEN INSERT (" + ("column1" + ", " + "column2" + ", " + "column3" + ", " + "column4")
        + ") VALUES (" + (("n." + "column1") + ", " + ("n." + "column2") + ", " + ("n." + "column3") + ", " + ("n." + "column4")) + ")"
        + " WHEN MATCHED THEN UPDATE SET " + (TestAssignment("column1") + ", " + TestAssignment("column3")))
  {
    var cols := ["column1", "column2", "column3", "column4"];
    var keys := ["column2", "column4"];
    UpsertLayout("table", cols, keys);
    assert Prefixed("? ", cols) == ["? " + "column1", "? " + "column2", "? " + "column3", "? " + "column4"];
    JoinOfFour("? " + "column1", "? " + "column2", "? " + "column3", "? " + "column4", ", ");
    assert Assignments("table", keys) == [TestAssignment("column2"), TestAssignment("column4")];
    JoinOfTwo(TestAssignment("column2"), TestAssignment("column4"), " AND ");
    JoinOfFour("column1", "column2", "column3", "column4", ", ");
    assert Prefixed("n.", cols) == ["n." + "column1", "n." + "column2", "n." + "column3", "n." + "column4"];
    JoinOfFour("n." + "column1", "n." + "column2", "n." + "column3", "n." + "column4", ", ");
    assert NonKeyColumns(cols, keys) == ["column1", "column3"];
    assert Assignments("table", ["column1", "column3"]) == [TestAssignment("column1"), TestAssignment("column3")];
    JoinOfTwo(TestAssignment("column1"), TestAssignment("column3"), ", ");
  }

  lemma UpsertErrorExamples()
    ensures GetUpsertStatement("", ["notEmpty"], ["notEmpty"]) == Failure(IllegalArgument("Table name cannot be null or blank"))
    ensures GetUpsertStatement("notEmpty", [], ["notEmpty"]) == Failure(IllegalArgument("Column names cannot be null or empty"))
    ensures GetUpsertStatement("notEmpty", ["notEmpty"], []) == Failure(IllegalArgument("Key column names cannot be null or empty"))
  {
  }
}
