// The statement builder of src/lib/query.ts: one mutable record that the
// chain methods fill in, each after checking its precondition, and `build`,
// which assembles the SQL text from it.

module Query {
  import opened Text
  import opened Values
  import opened Utils

  // ---------------------------------------------------------------------------
  // The record

  /** The statement kind, `_data.type`; Unset is the initial "". */
  datatype Kind = Unset | SelectKind | InsertKind | UpdateKind | InsertOrUpdateKind | DeleteKind | CustomKind

  function KindName(k: Kind): string
  {
    match k
    case Unset => ""
    case SelectKind => "SELECT"
    case InsertKind => "INSERT"
    case UpdateKind => "UPDATE"
    case InsertOrUpdateKind => "INSERT_OR_UPDATE"
    case DeleteKind => "DELETE"
    case CustomKind => "CUSTOM"
  }

  datatype JoinKind = PlainJoin | LeftJoin | RightJoin

  function JoinKeyword(k: JoinKind): string
  {
    match k
    case PlainJoin => "JOIN"
    case LeftJoin => "LEFT JOIN"
    case RightJoin => "RIGHT JOIN"
  }

  datatype JoinTable = JoinTable(table: string, fields: seq<string>, joinKind: JoinKind, on: string)

  /** `_data`; the optional table names are absent until `table()` is called. */
  datatype QueryData = QueryData(
    tableName: Option<string>,
    tableNameEscaped: Option<string>,
    fields: string,
    conditions: seq<string>,
    kind: Kind,
    update: seq<string>,
    insert: string,
    insertRows: nat,
    sql: string,
    sqlTpl: string,
    sqlValues: seq<Value>,
    orderFields: string,
    orderBy: string,
    groupBy: string,
    groupByFields: string,
    offsetRows: nat,
    limitRows: nat,
    limit: string,
    tableAlias: AliasMap,
    currentJoinTableName: string,
    joinTables: seq<JoinTable>)

  /** The record a new builder starts with. */
  const Initial: QueryData := QueryData(
    None, None, "*", [], Unset, [], "", 0, "", "", [], "", "", "", "", 0, 0, "", map[], "", [])

  /** A table name has been set: `!!_data.tableName`. */
  predicate TableSet(d: QueryData)
  {
    d.tableName.Some? && d.tableName.value != ""
  }

  /** Both the table name and its escaped form are set and non-empty, as `build` demands. */
  predicate HasTable(d: QueryData)
  {
    TableSet(d) && d.tableNameEscaped.Some? && d.tableNameEscaped.value != ""
  }

  /**
   * `tableAlias`: a name maps to its partner, or to None for JavaScript's
   * `undefined`, which `as()` stores when no table is set yet.
   */
  type AliasMap = map<string, Option<string>>

  /** The property key JavaScript derives from a table name that may be `undefined`. */
  function NameKey(name: Option<string>): string
  {
    if name.Some? then name.value else "undefined"
  }

  /**
   * Every name in the alias map is paired with its partner: table to alias and
   * alias to table. An alias registered for an `undefined` table maps to None,
   * and its partner is the key "undefined".
   */
  predicate AliasPaired(m: AliasMap)
  {
    forall k :: k in m ==> PairedAt(m, k)
  }

  /** The entry under `k` points back: to its partner, or, for None, from "undefined". */
  predicate PairedAt(m: AliasMap, k: string)
    requires k in m
  {
    match m[k]
    case Some(v) => v in m && (m[v] == Some(k) || (k == "undefined" && m[v] == None))
    case None => "undefined" in m && m["undefined"] == Some(k)
  }

  /** The escaped table name is the escape of the table name. */
  predicate TableEscaped(p: Provider, d: QueryData)
  {
    && (d.tableName.Some? <==> d.tableNameEscaped.Some?)
    && (d.tableName.Some? ==> d.tableNameEscaped.value == EscapeName(p, d.tableName.value))
  }

  /** No LIMIT clause before any `offset`/`limit` call, and the encoding of the two counts after one. */
  predicate LimitConsistent(d: QueryData)
  {
    (d.limit == "" && d.offsetRows == 0 && d.limitRows == 0) || d.limit == SqlLimitString(d.offsetRows, d.limitRows)
  }

  /** The state invariant every chain method keeps. */
  predicate Consistent(p: Provider, d: QueryData)
  {
    && AliasPaired(d.tableAlias)
    && TableEscaped(p, d)
    && LimitConsistent(d)
    && (d.kind == InsertOrUpdateKind ==> d.insertRows == 1)
    && (forall j :: 0 <= j < |d.joinTables| ==> d.joinTables[j].fields != [])
  }

  lemma InitialConsistent(p: Provider)
    ensures Consistent(p, Initial)
  {
  }

  /** Registering a fresh pair keeps the map paired, and the two new entries point at each other. */
  lemma AliasPairedAdd(m: AliasMap, table: Option<string>, alias: string)
    requires AliasPaired(m) && NameKey(table) !in m && alias !in m
    ensures AliasPaired(m[alias := table][NameKey(table) := Some(alias)])
    ensures var m' := m[alias := table][NameKey(table) := Some(alias)];
      m'[NameKey(table)] == Some(alias) && (alias != NameKey(table) ==> m'[alias] == table)
  {
    var m' := m[alias := table][NameKey(table) := Some(alias)];
    forall k | k in m' ensures PairedAt(m', k) {
      AliasPairedAddAt(m, table, alias, k);
    }
  }

  /** One entry of the extended map is paired: the two new ones by construction, the old ones as before. */
  lemma AliasPairedAddAt(m: AliasMap, table: Option<string>, alias: string, k: string)
    requires AliasPaired(m) && NameKey(table) !in m && alias !in m
    requires k in m[alias := table][NameKey(table) := Some(alias)]
    ensures PairedAt(m[alias := table][NameKey(table) := Some(alias)], k)
  {
    var key := NameKey(table);
    var m' := m[alias := table][key := Some(alias)];
    if k == key {
      assert m'[k] == Some(alias);
    } else if k == alias {
      assert m'[k] == table;
      assert m'[key] == Some(alias);
    } else {
      assert k in m && m'[k] == m[k];
      assert PairedAt(m, k);
      match m[k]
      case Some(v) =>
        assert v in m && v != key && v != alias;
        assert m'[v] == m[v];
      case None =>
        assert "undefined" in m && "undefined" != key && "undefined" != alias;
        assert m'["undefined"] == m["undefined"];
    }
  }

  // ---------------------------------------------------------------------------
  // Chain inputs

  /** The first argument of `update`/`set`: a template string or an update object. */
  datatype Assign = AssignText(tpl: string) | AssignMap(record: Record)

  /** The argument of `insert`: one row or an array of rows. */
  datatype InsertData = OneRow(row: Record) | Rows(rows: seq<Record>)

  function RowsOf(input: InsertData): seq<Record>
  {
    match input
    case OneRow(row) => [row]
    case Rows(rows) => rows
  }

  /** The argument of `options`; a missing property is None. */
  datatype QueryOptions = QueryOptions(
    skip: Option<int>,
    offset: Option<int>,
    limit: Option<int>,
    orderBy: Option<string>,
    groupBy: Option<string>,
    fields: Option<seq<string>>)

  // ---------------------------------------------------------------------------
  // Field lists

  /** One name of a `fields()` call: "*" is kept, any other name is escaped. */
  function FieldName(p: Provider, name: string): string
  {
    if name == "*" then name else EscapeName(p, name)
  }

  function FieldNames(p: Provider, names: seq<string>): (r: seq<string>)
    ensures |r| == |names| && forall i :: 0 <= i < |names| ==> r[i] == FieldName(p, names[i])
  {
    seq(|names|, i requires 0 <= i < |names| => FieldName(p, names[i]))
  }

  /** The field text of `fields(...names)`; an empty name is refused. */
  function FieldList(p: Provider, names: seq<string>): (r: Result<string>)
    ensures r.Err? <==> exists i :: 0 <= i < |names| && names[i] == ""
    ensures r.Err? ==> r.error == EmptyFieldName
  {
    if exists i :: 0 <= i < |names| && names[i] == "" then Err(EmptyFieldName)
    else Ok(Join(FieldNames(p, names), ", "))
  }

  /** As long as the rendered names are split-safe, splitting the field text gives them back one by one. */
  lemma FieldListSplit(p: Provider, names: seq<string>)
    requires |names| >= 1 && FieldList(p, names).Ok?
    requires forall i :: 0 <= i < |names| ==> SplitSafe(FieldName(p, names[i]))
    ensures SplitFields(FieldList(p, names).value) == FieldNames(p, names)
  {
    SplitJoin(FieldNames(p, names));
  }

  // ---------------------------------------------------------------------------
  // The steps `options` chains

  /** `offset(rows)` */
  function OffsetStep(d: QueryData, rows: int): (r: (Outcome, QueryData))
    ensures r.0.Fail? <==> rows < 0
    ensures r.0.Fail? ==> r.0.error == NegativeRows(rows) && r.1 == d
    ensures r.0.Pass? ==> r.1.offsetRows == rows && r.1 == d.(offsetRows := rows, limit := r.1.limit)
    ensures r.0.Pass? ==> r.1.limit == SqlLimitString(r.1.offsetRows, r.1.limitRows)
  {
    if rows < 0 then (Fail(NegativeRows(rows)), d)
    else (Pass, d.(offsetRows := rows, limit := SqlLimitString(rows, d.limitRows)))
  }

  /** `limit(rows)` */
  function LimitStep(d: QueryData, rows: int): (r: (Outcome, QueryData))
    ensures r.0.Fail? <==> rows < 0
    ensures r.0.Fail? ==> r.0.error == NegativeRows(rows) && r.1 == d
    ensures r.0.Pass? ==> r.1.limitRows == rows && r.1 == d.(limitRows := rows, limit := r.1.limit)
    ensures r.0.Pass? ==> r.1.limit == SqlLimitString(r.1.offsetRows, r.1.limitRows)
  {
    if rows < 0 then (Fail(NegativeRows(rows)), d)
    else (Pass, d.(limitRows := rows, limit := SqlLimitString(d.offsetRows, rows)))
  }

  /** The ORDER BY / GROUP BY text: a quoted 'DESC' or 'ASC' in any letter case loses its quotes. */
  function Direction(clause: string): string
  {
    ReplaceQuoted(ReplaceQuoted(clause, "DESC"), "ASC")
  }

  /**
   * The un-quoting `orderBy` and `groupBy` apply: after a quote-free head, every
   * quoted DESC or ASC, in any letter case, becomes the bare keyword, and the
   * quote-free text between and after them is kept.
   */
  lemma DirectionUnquotes(head: string, items: seq<(string, string)>, rest: string)
    requires '\'' !in head && '\'' !in rest && DirectionItems(items, "DESC", "ASC")
    ensures Direction(head + Quoted(items) + rest) == head + Bare(items, "DESC", "ASC") + rest
  {
    assert KeywordPair("DESC", "ASC");
    Regroup2(head, Quoted(items), rest);
    FirstPass(items, rest, "DESC", "ASC");
    ReplaceQuotedPrefix(head, Quoted(items) + rest, "DESC");
    SecondPass(items, rest, "DESC", "ASC");
    ReplaceQuotedPrefix(head, HalfBare(items, "DESC") + rest, "ASC");
    Regroup2(head, Bare(items, "DESC", "ASC"), rest);
  }

  /** `orderBy(tpl, values)`; a failing format leaves the record as it was. */
  function OrderByStep(p: Provider, d: QueryData, tpl: string, args: Args): (r: (Outcome, QueryData))
    ensures r.0.Fail? ==> r.1 == d
    ensures r.0.Fail? <==> Format(p, tpl, args).Err?
    ensures r.0.Fail? ==> r.0.error == Format(p, tpl, args).error
    ensures Format(p, tpl, args).Ok? ==> var f := Format(p, tpl, args).value;
      r == (Pass, d.(orderFields := f, orderBy := Direction("ORDER BY " + f)))
    ensures args.NoArgs? ==> r.0 == Pass && r.1 == d.(orderFields := tpl, orderBy := Direction("ORDER BY " + tpl))
  {
    match Format(p, tpl, args)
    case Err(e) => (Fail(e), d)
    case Ok(f) => (Pass, d.(orderFields := f, orderBy := Direction("ORDER BY " + f)))
  }

  /** `groupBy(tpl, values)`; a failing format leaves the record as it was. */
  function GroupByStep(p: Provider, d: QueryData, tpl: string, args: Args): (r: (Outcome, QueryData))
    ensures r.0.Fail? ==> r.1 == d
    ensures r.0.Fail? <==> Format(p, tpl, args).Err?
    ensures r.0.Fail? ==> r.0.error == Format(p, tpl, args).error
    ensures Format(p, tpl, args).Ok? ==> var f := Format(p, tpl, args).value;
      r == (Pass, d.(groupByFields := f, groupBy := Direction("GROUP BY " + f)))
    ensures args.NoArgs? ==> r.0 == Pass && r.1 == d.(groupByFields := tpl, groupBy := Direction("GROUP BY " + tpl))
  {
    match Format(p, tpl, args)
    case Err(e) => (Fail(e), d)
    case Ok(f) => (Pass, d.(groupByFields := f, groupBy := Direction("GROUP BY " + f)))
  }

  /** An ORDER BY whose formatted text quotes its directions gets them bare. */
  lemma OrderByUnquotes(p: Provider, d: QueryData, tpl: string, args: Args, items: seq<(string, string)>, rest: string)
    requires Format(p, tpl, args) == Ok(Quoted(items) + rest)
    requires '\'' !in rest && DirectionItems(items, "DESC", "ASC")
    ensures OrderByStep(p, d, tpl, args).0 == Pass
    ensures OrderByStep(p, d, tpl, args).1.orderFields == Quoted(items) + rest
    ensures OrderByStep(p, d, tpl, args).1.orderBy == "ORDER BY " + Bare(items, "DESC", "ASC") + rest
  {
    DirectionUnquotes("ORDER BY ", items, rest);
    Regroup2("ORDER BY ", Quoted(items), rest);
  }

  /** A GROUP BY whose formatted text quotes its directions gets them bare. */
  lemma GroupByUnquotes(p: Provider, d: QueryData, tpl: string, args: Args, items: seq<(string, string)>, rest: string)
    requires Format(p, tpl, args) == Ok(Quoted(items) + rest)
    requires '\'' !in rest && DirectionItems(items, "DESC", "ASC")
    ensures GroupByStep(p, d, tpl, args).0 == Pass
    ensures GroupByStep(p, d, tpl, args).1.groupByFields == Quoted(items) + rest
    ensures GroupByStep(p, d, tpl, args).1.groupBy == "GROUP BY " + Bare(items, "DESC", "ASC") + rest
  {
    DirectionUnquotes("GROUP BY ", items, rest);
    Regroup2("GROUP BY ", Quoted(items), rest);
  }

  /** The fields text may still be changed: it is "" or "*". */
  predicate FieldsOpen(d: QueryData)
  {
    d.fields == "" || d.fields == "*"
  }

  /** `fields(...names)`: allowed only while the fields are still open. */
  function FieldsStep(p: Provider, d: QueryData, names: seq<string>): (r: (Outcome, QueryData))
    ensures r.0.Fail? ==> r.1 == d
    ensures !FieldsOpen(d) ==> r.0 == Fail(FieldsAlreadySet)
    ensures FieldsOpen(d) && FieldList(p, names).Err? ==> r.0 == Fail(EmptyFieldName)
    ensures r.0.Pass? <==> FieldsOpen(d) && FieldList(p, names).Ok?
    ensures r.0.Pass? ==> r.1 == d.(fields := FieldList(p, names).value)
  {
    if !FieldsOpen(d) then (Fail(FieldsAlreadySet), d)
    else
      match FieldList(p, names)
      case Err(e) => (Fail(e), d)
      case Ok(f) => (Pass, d.(fields := f))
  }

  /** The `skip` and `offset` options, in that order. */
  function OffsetOptions(d: QueryData, opts: QueryOptions): (Outcome, QueryData)
  {
    var s1 := if opts.skip.Some? then OffsetStep(d, opts.skip.value) else (Pass, d);
    if s1.0.Fail? || opts.offset.None? then s1 else OffsetStep(s1.1, opts.offset.value)
  }

  /** `options(opts)`: skip, offset, limit, orderBy, groupBy, fields, in that order, up to the first failure. */
  function ApplyOptions(p: Provider, d: QueryData, opts: QueryOptions): (Outcome, QueryData)
  {
    var s2 := OffsetOptions(d, opts);
    if s2.0.Fail? then s2 else LaterOptions(p, s2.1, opts)
  }

  /** The options after the row offset: limit, ordering, grouping and fields, each stopping at a throw. */
  function LaterOptions(p: Provider, d: QueryData, opts: QueryOptions): (Outcome, QueryData)
  {
    var s3 := if opts.limit.Some? then LimitStep(d, opts.limit.value) else (Pass, d);
    if s3.0.Fail? then s3 else
    var s4 := if opts.orderBy.Some? then OrderByStep(p, s3.1, opts.orderBy.value, NoArgs) else s3;
    if s4.0.Fail? then s4 else
    var s5 := if opts.groupBy.Some? then GroupByStep(p, s4.1, opts.groupBy.value, NoArgs) else s4;
    if s5.0.Fail? then s5 else
    if opts.fields.Some? then FieldsStep(p, s5.1, opts.fields.value) else s5
  }

  /** Given both, `offset` is applied after `skip`, so the offset wins. */
  lemma OptionsOffsetAfterSkip(d: QueryData, opts: QueryOptions)
    requires opts.skip.Some? && opts.offset.Some? && opts.skip.value >= 0 && opts.offset.value >= 0
    ensures OffsetOptions(d, opts).0 == Pass
    ensures OffsetOptions(d, opts).1 == d.(offsetRows := opts.offset.value, limit := SqlLimitString(opts.offset.value, d.limitRows))
  {
  }

  /** A negative limit stops `options` there: ordering, grouping and fields are not applied. */
  lemma OptionsStopAtNegativeLimit(p: Provider, d: QueryData, opts: QueryOptions)
    requires opts.skip.None? && opts.offset.None?
    requires opts.limit.Some? && opts.limit.value < 0
    ensures ApplyOptions(p, d, opts) == (Fail(NegativeRows(opts.limit.value)), d)
  {
  }

  /** Options that hold only ordering leave the counts and the LIMIT clause alone. */
  lemma OptionsOrderOnly(p: Provider, d: QueryData, opts: QueryOptions, tpl: string)
    requires opts == QueryOptions(None, None, None, Some(tpl), None, None)
    ensures ApplyOptions(p, d, opts) == (Pass, d.(orderFields := tpl, orderBy := Direction("ORDER BY " + tpl)))
  {
  }

  /** Setting the offset or the limit keeps the LIMIT clause the encoding of the two counts. */
  lemma RowStepsConsistent(p: Provider, d: QueryData, rows: int)
    requires Consistent(p, d)
    ensures Consistent(p, OffsetStep(d, rows).1) && Consistent(p, LimitStep(d, rows).1)
  {
  }

  lemma ClauseStepsConsistent(p: Provider, d: QueryData, tpl: string, names: seq<string>)
    requires Consistent(p, d)
    ensures Consistent(p, OrderByStep(p, d, tpl, NoArgs).1) && Consistent(p, GroupByStep(p, d, tpl, NoArgs).1)
    ensures Consistent(p, FieldsStep(p, d, names).1)
  {
  }

  /** `skip` and `offset` keep the state invariant. */
  lemma OffsetOptionsConsistent(p: Provider, d: QueryData, opts: QueryOptions)
    requires Consistent(p, d)
    ensures Consistent(p, OffsetOptions(d, opts).1)
  {
    var s1 := if opts.skip.Some? then OffsetStep(d, opts.skip.value) else (Pass, d);
    if opts.skip.Some? { RowStepsConsistent(p, d, opts.skip.value); }
    if s1.0.Pass? && opts.offset.Some? { RowStepsConsistent(p, s1.1, opts.offset.value); }
  }

  /** The later options keep the state invariant. */
  lemma LaterOptionsConsistent(p: Provider, d: QueryData, opts: QueryOptions)
    requires Consistent(p, d)
    ensures Consistent(p, LaterOptions(p, d, opts).1)
  {
    var s3 := if opts.limit.Some? then LimitStep(d, opts.limit.value) else (Pass, d);
    if opts.limit.Some? { RowStepsConsistent(p, d, opts.limit.value); }
    if s3.0.Pass? {
      var s4 := if opts.orderBy.Some? then OrderByStep(p, s3.1, opts.orderBy.value, NoArgs) else s3;
      if opts.orderBy.Some? { ClauseStepsConsistent(p, s3.1, opts.orderBy.value, []); }
      if s4.0.Pass? {
        var s5 := if opts.groupBy.Some? then GroupByStep(p, s4.1, opts.groupBy.value, NoArgs) else s4;
        if opts.groupBy.Some? { ClauseStepsConsistent(p, s4.1, opts.groupBy.value, []); }
        if s5.0.Pass? && opts.fields.Some? { ClauseStepsConsistent(p, s5.1, "", opts.fields.value); }
      }
    }
  }

  /** Every step `options` runs keeps the state invariant. */
  lemma ApplyOptionsConsistent(p: Provider, d: QueryData, opts: QueryOptions)
    requires Consistent(p, d)
    ensures Consistent(p, ApplyOptions(p, d, opts).1)
  {
    OffsetOptionsConsistent(p, d, opts);
    var s2 := OffsetOptions(d, opts);
    if s2.0.Pass? { LaterOptionsConsistent(p, s2.1, opts); }
  }

  // ---------------------------------------------------------------------------
  // Rendering the insert payload

  /** The escaped value of one column of a row; the row must have the column. */
  function Cell(p: Provider, row: Record, column: string): Result<string>
  {
    if HasKey(row, column) then Ok(p.escape(Lookup(row, column))) else Err(MissingInsertField(column))
  }

  function CellOf(p: Provider, row: Record): string -> Result<string>
  {
    c => Cell(p, row, c)
  }

  /** The row has every one of the columns. */
  predicate HasColumns(row: Record, columns: seq<string>)
  {
    forall j :: 0 <= j < |columns| ==> HasKey(row, columns[j])
  }

  /** One row as `(v1, v2, ...)`, in the given column order; a missing column is reported by name. */
  function RowTuple(p: Provider, columns: seq<string>, row: Record): (r: Result<string>)
    ensures r.Ok? <==> HasColumns(row, columns)
    ensures r.Err? ==>
      exists j :: 0 <= j < |columns| && !HasKey(row, columns[j]) && r.error == MissingInsertField(columns[j]) &&
        (forall k :: 0 <= k < j ==> HasKey(row, columns[k]))
  {
    match MapResult(CellOf(p, row), columns)
    case Err(e) => Err(e)
    case Ok(cells) => Ok("(" + Join(cells, ", ") + ")")
  }

  function TupleOf(p: Provider, columns: seq<string>): Record -> Result<string>
  {
    row => RowTuple(p, columns, row)
  }

  /** The escaped column names of an insert. */
  function ColumnNames(p: Provider, columns: seq<string>): seq<string>
  {
    seq(|columns|, j requires 0 <= j < |columns| => EscapeName(p, columns[j]))
  }

  /**
   * Column `j` is missing from row `i`, every earlier row has all the columns,
   * and row `i` has every earlier column: the first miss in row order, then
   * column order.
   */
  predicate FirstMissing(rows: seq<Record>, columns: seq<string>, i: int, j: int)
  {
    && 0 <= i < |rows| && 0 <= j < |columns|
    && !HasKey(rows[i], columns[j])
    && (forall k :: 0 <= k < i ==> HasColumns(rows[k], columns))
    && (forall k :: 0 <= k < j ==> HasKey(rows[i], columns[k]))
  }

  /**
   * The payload of `insert(rows)`: the escaped columns of the first row, then
   * one tuple per row. The array must not be empty and every row must have
   * every column of the first row.
   */
  function InsertPayload(p: Provider, rows: seq<Record>): (r: Result<string>)
    ensures rows == [] ==> r == Err(EmptyInsert)
    ensures r.Ok? <==> (rows != [] && forall i :: 0 <= i < |rows| ==> HasColumns(rows[i], Keys(rows[0])))
    ensures r.Err? && rows != [] ==>
      exists i, j :: FirstMissing(rows, Keys(rows[0]), i, j) && r.error == MissingInsertField(Keys(rows[0])[j])
  {
    if rows == [] then Err(EmptyInsert)
    else
      var columns := Keys(rows[0]);
      match MapResult(TupleOf(p, columns), rows)
      case Err(e) =>
        InsertPayloadErr(p, rows, e);
        Err(e)
      case Ok(tuples) =>
        Ok("(" + Join(ColumnNames(p, columns), ", ") + ") VALUES " + Join(tuples, ",\n"))
  }

  /** A refused payload fails at the first row that lacks a column; `i` is that row. */
  lemma FirstFailingRow(p: Provider, columns: seq<string>, rows: seq<Record>, e: Error) returns (i: int)
    requires MapResult(TupleOf(p, columns), rows) == Err(e)
    ensures 0 <= i < |rows| && RowTuple(p, columns, rows[i]) == Err(e)
    ensures forall k :: 0 <= k < i ==> HasColumns(rows[k], columns)
  {
    var f := TupleOf(p, columns);
    i :| 0 <= i < |rows| && f(rows[i]) == Err(e) && forall k :: 0 <= k < i ==> f(rows[k]).Ok?;
    forall k | 0 <= k < i ensures HasColumns(rows[k], columns) {
      assert RowTuple(p, columns, rows[k]) == f(rows[k]);
    }
    assert RowTuple(p, columns, rows[i]) == Err(e);
  }

  /** A refused row fails at its first missing column; `j` is that column. */
  lemma FirstFailingColumn(p: Provider, columns: seq<string>, row: Record, e: Error) returns (j: int)
    requires RowTuple(p, columns, row) == Err(e)
    ensures 0 <= j < |columns| && !HasKey(row, columns[j]) && e == MissingInsertField(columns[j])
    ensures forall k :: 0 <= k < j ==> HasKey(row, columns[k])
  {
    j :| 0 <= j < |columns| && !HasKey(row, columns[j]) && e == MissingInsertField(columns[j]) &&
      forall k :: 0 <= k < j ==> HasKey(row, columns[k]);
  }

  /** A refused payload names the first missing column of the first row that lacks one. */
  lemma InsertPayloadErr(p: Provider, rows: seq<Record>, e: Error)
    requires rows != [] && MapResult(TupleOf(p, Keys(rows[0])), rows) == Err(e)
    ensures exists i, j :: FirstMissing(rows, Keys(rows[0]), i, j) && e == MissingInsertField(Keys(rows[0])[j])
  {
    var columns := Keys(rows[0]);
    var i := FirstFailingRow(p, columns, rows, e);
    var j := FirstFailingColumn(p, columns, rows[i], e);
    assert FirstMissing(rows, columns, i, j);
  }

  // ---------------------------------------------------------------------------
  // Assembling the statement

  /** `d.tableAlias[name]`, with an absent name or an `undefined` value reading as "" (falsy). */
  function AliasOf(m: AliasMap, name: string): string
  {
    if name in m && m[name].Some? then m[name].value else ""
  }

  /** Each name qualified by a table prefix. */
  function Prefixed(prefix: string, names: seq<string>): (r: seq<string>)
    ensures |r| == |names| && forall i :: 0 <= i < |names| ==> r[i] == prefix + "." + names[i]
  {
    seq(|names|, i requires 0 <= i < |names| => prefix + "." + names[i])
  }

  /** The `WHERE` clause: trimmed, non-empty conditions joined by AND, or nothing. */
  function WhereClause(conditions: seq<string>): string
  {
    var c := TrimmedNonBlank(conditions);
    if c == [] then "" else "WHERE " + Join(c, " AND ")
  }

  /** The name a joined table's fields are qualified with: its escaped alias, or else its escaped name. */
  function JoinPrefix(p: Provider, m: AliasMap, item: JoinTable): string
  {
    var alias := AliasOf(m, item.table);
    if alias != "" then EscapeName(p, alias) else EscapeName(p, item.table)
  }

  /** `TYPE table[ AS alias][ ON condition]` */
  function JoinSegment(p: Provider, m: AliasMap, item: JoinTable): string
  {
    var alias := AliasOf(m, item.table);
    var named := JoinKeyword(item.joinKind) + " " + EscapeName(p, item.table);
    var aliased := if alias != "" then named + " AS " + EscapeName(p, alias) else named;
    if item.on != "" then aliased + " ON " + item.on else aliased
  }

  /** The text a joined table appends to the field list. */
  function JoinFieldsText(p: Provider, m: AliasMap, item: JoinTable): string
  {
    ", " + Join(Prefixed(JoinPrefix(p, m, item), seq(|item.fields|, i requires 0 <= i < |item.fields| =>
      if item.fields[i] == "*" then "*" else EscapeName(p, item.fields[i]))), ", ")
  }

  function JoinSegments(p: Provider, m: AliasMap, joins: seq<JoinTable>): (r: seq<string>)
    ensures |r| == |joins|
    decreases |joins|
  {
    if joins == [] then [] else JoinSegments(p, m, joins[..|joins| - 1]) + [JoinSegment(p, m, joins[|joins| - 1])]
  }

  function JoinedFields(p: Provider, m: AliasMap, joins: seq<JoinTable>): string
    decreases |joins|
  {
    if joins == [] then "" else JoinedFields(p, m, joins[..|joins| - 1]) + JoinFieldsText(p, m, joins[|joins| - 1])
  }

  /** One more join adds its segment and its fields at the end. */
  lemma JoinsSnoc(p: Provider, m: AliasMap, joins: seq<JoinTable>, i: nat)
    requires i < |joins|
    ensures JoinSegments(p, m, joins[..i + 1]) == JoinSegments(p, m, joins[..i]) + [JoinSegment(p, m, joins[i])]
    ensures JoinedFields(p, m, joins[..i + 1]) == JoinedFields(p, m, joins[..i]) + JoinFieldsText(p, m, joins[i])
  {
    assert joins[..i + 1][..i] == joins[..i];
  }

  /** The qualifier of the base table's fields: its escaped alias, or else the escaped table name. */
  function BasePrefix(p: Provider, d: QueryData): string
    requires HasTable(d)
  {
    var alias := AliasOf(d.tableAlias, d.tableName.value);
    if alias != "" then EscapeName(p, alias) else d.tableNameEscaped.value
  }

  /** The base table's `AS alias` segment, when it has an alias. */
  function BaseAlias(p: Provider, d: QueryData): seq<string>
    requires HasTable(d)
  {
    var alias := AliasOf(d.tableAlias, d.tableName.value);
    if alias != "" then ["AS " + EscapeName(p, alias)] else []
  }

  /** The field list of a SELECT: as it stands without joins, qualified and extended with joins. */
  function SelectFields(p: Provider, d: QueryData): string
    requires HasTable(d)
  {
    if d.joinTables == [] then d.fields
    else Join(Prefixed(BasePrefix(p, d), SplitFields(d.fields)), ", ") + JoinedFields(p, d.tableAlias, d.joinTables)
  }

  /** The segments after `FROM table`: joins, WHERE, GROUP BY, ORDER BY, LIMIT. */
  function SelectTail(p: Provider, d: QueryData): seq<string>
    requires HasTable(d)
  {
    (if d.joinTables == [] then [] else BaseAlias(p, d) + JoinSegments(p, d.tableAlias, d.joinTables))
      + [WhereClause(d.conditions), d.groupBy, d.orderBy, d.limit]
  }

  /** The values a custom statement's `:$name` macros refer to. */
  function Macros(d: QueryData): Record
    requires HasTable(d)
  {
    [("$table", Str(d.tableNameEscaped.value)), ("$orderBy", Str(d.orderBy)), ("$limit", Str(d.limit)),
     ("$fields", Str(d.fields)), ("$skipRows", Num(d.offsetRows)), ("$offsetRows", Num(d.offsetRows)),
     ("$limitRows", Num(d.limitRows))]
  }

  /** `SELECT fields FROM table` followed by the non-blank tail segments. */
  function SelectStatement(p: Provider, d: QueryData): string
    requires HasTable(d)
  {
    Trim("SELECT " + SelectFields(p, d) + " FROM " + d.tableNameEscaped.value + " " + JoinMultiString(SelectTail(p, d)))
  }

  function InsertStatement(d: QueryData): string
    requires HasTable(d)
  {
    Trim("INSERT INTO " + d.tableNameEscaped.value + " " + d.insert)
  }

  function UpdateStatement(d: QueryData): string
    requires HasTable(d)
  {
    Trim("UPDATE " + d.tableNameEscaped.value + " SET " + Join(d.update, ", ") + " "
      + JoinMultiString([WhereClause(d.conditions), d.limit]))
  }

  function InsertOrUpdateStatement(d: QueryData): string
    requires HasTable(d)
  {
    Trim("INSERT INTO " + d.tableNameEscaped.value + " " + d.insert + " ON DUPLICATE KEY UPDATE " + Join(d.update, ", "))
  }

  function DeleteStatement(d: QueryData): string
    requires HasTable(d)
  {
    Trim("DELETE FROM " + d.tableNameEscaped.value + " " + JoinMultiString([WhereClause(d.conditions), d.limit]))
  }

  /** A custom statement: the macros filled in raw, then the positional values by the provider's formatter. */
  function CustomSql(p: Provider, d: QueryData): Result<string>
    requires HasTable(d)
  {
    p.format(SqlFormatObject(p, d.sqlTpl, Some(Macros(d)), true), d.sqlValues)
  }

  /** What `build()` returns for a record, read and not changed. */
  function BuildSql(p: Provider, d: QueryData): (r: Result<string>)
    ensures !HasTable(d) ==> r == Err(MissingTable)
    ensures HasTable(d) && d.kind == Unset ==> r == Err(InvalidKind(""))
    ensures HasTable(d) && (d.kind == UpdateKind || d.kind == InsertOrUpdateKind) && d.update == [] ==> r == Err(EmptyUpdate)
    ensures r.Err? <==> (!HasTable(d) || d.kind == Unset || ((d.kind == UpdateKind || d.kind == InsertOrUpdateKind) && d.update == [])
      || (d.kind == CustomKind && CustomSql(p, d).Err?))
    ensures r.Ok? ==> Clean(r.value)
  {
    if !HasTable(d) then Err(MissingTable)
    else
      match d.kind
      case SelectKind => Ok(SelectStatement(p, d))
      case InsertKind => Ok(InsertStatement(d))
      case UpdateKind => if d.update == [] then Err(EmptyUpdate) else Ok(UpdateStatement(d))
      case InsertOrUpdateKind => if d.update == [] then Err(EmptyUpdate) else Ok(InsertOrUpdateStatement(d))
      case DeleteKind => Ok(DeleteStatement(d))
      case CustomKind =>
        (match CustomSql(p, d)
         case Err(e) => Err(e)
         case Ok(s) => Ok(Trim(s)))
      case Unset => Err(InvalidKind(""))
  }

  /** The WHERE clause depends only on the trimmed, non-blank conditions. */
  lemma WhereNormalised(conditions: seq<string>)
    ensures WhereClause(TrimmedNonBlank(conditions)) == WhereClause(conditions)
  {
    TrimmedNonBlankClean(TrimmedNonBlank(conditions));
  }

  /** The statement reads the conditions only through the WHERE clause they make. */
  lemma BuildSameWhere(p: Provider, d: QueryData, conditions: seq<string>)
    requires WhereClause(conditions) == WhereClause(d.conditions)
    ensures BuildSql(p, d.(conditions := conditions)) == BuildSql(p, d)
  {
    var d' := d.(conditions := conditions);
    if HasTable(d) {
      StatementsSameWhere(p, d, conditions);
      match d.kind
      case SelectKind =>
        assert BuildSql(p, d) == Ok(SelectStatement(p, d));
        assert BuildSql(p, d') == Ok(SelectStatement(p, d'));
      case UpdateKind =>
        assert d'.update == d.update;
      case DeleteKind =>
        assert BuildSql(p, d) == Ok(DeleteStatement(d));
        assert BuildSql(p, d') == Ok(DeleteStatement(d'));
      case CustomKind =>
        assert d'.kind == CustomKind;
      case _ =>
        assert InsertStatement(d') == InsertStatement(d);
        assert InsertOrUpdateStatement(d') == InsertOrUpdateStatement(d);
    }
  }

  /** Each statement text, and the custom statement's result, reads the conditions only through WHERE. */
  lemma StatementsSameWhere(p: Provider, d: QueryData, conditions: seq<string>)
    requires HasTable(d) && WhereClause(conditions) == WhereClause(d.conditions)
    ensures var d' := d.(conditions := conditions);
      && SelectStatement(p, d') == SelectStatement(p, d)
      && UpdateStatement(d') == UpdateStatement(d)
      && DeleteStatement(d') == DeleteStatement(d)
      && CustomSql(p, d') == CustomSql(p, d)
  {
    var d' := d.(conditions := conditions);
    assert SelectFields(p, d') == SelectFields(p, d);
    assert SelectTail(p, d') == SelectTail(p, d);
    assert Macros(d') == Macros(d);
  }

  /** Normalising the conditions, as `build` does first, does not change the statement. */
  lemma BuildNormalisedConditions(p: Provider, d: QueryData)
    ensures BuildSql(p, d.(conditions := TrimmedNonBlank(d.conditions))) == BuildSql(p, d)
  {
    WhereNormalised(d.conditions);
    BuildSameWhere(p, d, TrimmedNonBlank(d.conditions));
  }

  /** A blank condition does not change the WHERE clause. */
  lemma WhereBlank(conditions: seq<string>, c: string)
    requires AllSpace(c)
    ensures WhereClause(conditions + [c]) == WhereClause(conditions)
  {
    TrimmedNonBlankOne(c);
    TrimmedNonBlankAppend(conditions, [c]);
    assert TrimmedNonBlank(conditions + [c]) == TrimmedNonBlank(conditions);
  }

  /** A blank condition contributes nothing to the statement. */
  lemma BuildBlankCondition(p: Provider, d: QueryData, c: string)
    requires AllSpace(c)
    ensures BuildSql(p, d.(conditions := d.conditions + [c])) == BuildSql(p, d)
  {
    WhereBlank(d.conditions, c);
    BuildSameWhere(p, d, d.conditions + [c]);
  }

  /**
   * With joins, each base field chosen by `fields()` is qualified by the base
   * table's prefix, and the joined tables' fields follow.
   */
  lemma SelectFieldsQualified(p: Provider, d: QueryData, names: seq<string>)
    requires HasTable(d) && d.joinTables != []
    requires |names| >= 1 && FieldList(p, names) == Ok(d.fields)
    requires forall i :: 0 <= i < |names| ==> SplitSafe(FieldName(p, names[i]))
    ensures SelectFields(p, d) ==
      Join(Prefixed(BasePrefix(p, d), FieldNames(p, names)), ", ") + JoinedFields(p, d.tableAlias, d.joinTables)
  {
    FieldListSplit(p, names);
  }

  /** A trimmed text keeps a prefix that starts and ends with a non-space. */
  lemma TrimKeepsPrefix(pre: string, rest: string)
    requires pre != [] && !IsSpace(pre[0]) && !IsSpace(pre[|pre| - 1])
    ensures StartsWith(Trim(pre + rest), pre)
  {
    var s := pre + rest;
    assert s[0] == pre[0];
    var t := TrimStart(s);
    assert t == s;
    assert t[|pre| - 1] == pre[|pre| - 1];
    assert Trailing(t) <= |rest|;
    assert Trim(s)[..|pre|] == pre;
  }

  /** A SELECT statement begins with `SELECT fields FROM`. */
  lemma BuildSelectStarts(p: Provider, d: QueryData)
    requires HasTable(d)
    ensures StartsWith(SelectStatement(p, d), "SELECT " + SelectFields(p, d) + " FROM")
  {
    SelectKeepsHead(SelectFields(p, d), d.tableNameEscaped.value, JoinMultiString(SelectTail(p, d)));
  }

  lemma SelectKeepsHead(fields: string, table: string, tail: string)
    ensures StartsWith(Trim("SELECT " + fields + " FROM " + table + " " + tail), "SELECT " + fields + " FROM")
  {
    var pre := "SELECT " + fields + " FROM";
    var rest := " " + table + " " + tail;
    assert pre[0] == 'S' && pre[|pre| - 1] == 'M';
    assert "SELECT " + fields + " FROM " + table + " " + tail == pre + rest;
    TrimKeepsPrefix(pre, rest);
  }

  /** The state `build()` leaves behind: conditions normalised, SELECT fields qualified, custom SQL stored. */
  function AfterBuild(p: Provider, d: QueryData): (r: QueryData)
  {
    var d1 := d.(conditions := TrimmedNonBlank(d.conditions));
    if !HasTable(d1) then d1
    else if d1.kind == SelectKind && d1.joinTables != [] then d1.(fields := SelectFields(p, d1))
    else if d1.kind == CustomKind then
      match CustomSql(p, d1)
      case Ok(s) => d1.(sql := s)
      case Err(_) => d1
    else d1
  }

  /** A provider that escapes nothing, enough to exhibit how the statement text is put together. */
  const PlainProvider: Provider := Provider(
    (v: Value) => "", (v: Value) => if v.Str? then v.s else "", (s: string, l: seq<Value>) => Ok(s), (r: Record) => [])

  /** `table(t).select(x).join(u, [y])`, before any `build()`. */
  function JoinedSelect(t: string, x: string, u: string, y: string): QueryData
  {
    Initial.(tableName := Some(t), tableNameEscaped := Some(t), kind := SelectKind, fields := x,
      joinTables := [JoinTable(u, [y], PlainJoin, "")])
  }

  /** Names that survive qualification, a join with ", " and a split. */
  predicate PlainNames(t: string, x: string, u: string, y: string)
  {
    t != [] && x != [] && u != [] && y != [] && y != "*"
    && SplitSafe(t) && SplitSafe(x) && SplitSafe(u) && SplitSafe(y)
  }

  /** The one join of the example adds ", u.y" to the fields. */
  lemma JoinedSelectJoinFields(t: string, x: string, u: string, y: string)
    requires PlainNames(t, x, u, y)
    ensures JoinedFields(PlainProvider, map[], JoinedSelect(t, x, u, y).joinTables) == ", " + (u + "." + y)
  {
    var p := PlainProvider;
    var item := JoinTable(u, [y], PlainJoin, "");
    assert [item][..0] == [];
    assert EscapeName(p, u) == u && EscapeName(p, y) == y;
    assert JoinPrefix(p, map[], item) == u;
    assert FieldNames(p, [y]) == [y];
    assert Prefixed(u, [y]) == [u + "." + y];
  }

  /** The first `build()` qualifies the base field: "t.x, u.y". */
  lemma JoinedSelectFirstFields(t: string, x: string, u: string, y: string)
    requires PlainNames(t, x, u, y)
    ensures SelectFields(PlainProvider, JoinedSelect(t, x, u, y)) == (t + "." + x) + ", " + (u + "." + y)
  {
    var d := JoinedSelect(t, x, u, y);
    JoinedSelectJoinFields(t, x, u, y);
    assert SplitFields(x) == [x];
    assert BasePrefix(PlainProvider, d) == t;
    assert Prefixed(t, [x]) == [t + "." + x];
  }

  /** Qualified names stay split-safe. */
  lemma QualifiedSafe(a: string, b: string)
    requires a != [] && b != [] && SplitSafe(a) && SplitSafe(b)
    ensures SplitSafe(a + "." + b)
  {
    var s := a + "." + b;
    assert s[0] == a[0] && s[|s| - 1] == b[|b| - 1];
    assert ',' !in s by {
      forall k | 0 <= k < |s| ensures s[k] != ',' {
        if k < |a| { assert s[k] == a[k]; }
        else if k > |a| { assert s[k] == b[k - |a| - 1]; }
      }
    }
  }

  /** A second `build()` qualifies the stored fields again: "t.t.x, t.u.y, u.y". */
  lemma JoinedSelectSecondFields(t: string, x: string, u: string, y: string, d2: QueryData)
    requires PlainNames(t, x, u, y)
    requires d2 == JoinedSelect(t, x, u, y).(fields := (t + "." + x) + ", " + (u + "." + y))
    ensures SelectFields(PlainProvider, d2) == (t + "." + (t + "." + x)) + ", " + (t + "." + (u + "." + y)) + (", " + (u + "." + y))
  {
    var a, b := t + "." + x, u + "." + y;
    QualifiedSafe(t, x);
    QualifiedSafe(u, y);
    PairSplits(a, b);
    assert BasePrefix(PlainProvider, d2) == t;
    PairPrefixed(t, a, b);
    JoinedSelectJoinFields(t, x, u, y);
  }

  /** Two split-safe names joined with ", " split back into the pair. */
  lemma PairSplits(a: string, b: string)
    requires a != [] && b != [] && SplitSafe(a) && SplitSafe(b)
    ensures SplitFields(a + ", " + b) == [a, b]
  {
    var parts := [a, b];
    assert parts[..1] == [a];
    assert Join(parts, ", ") == a + ", " + b;
    SplitJoin(parts);
  }

  /** Qualifying a pair and joining it with ", ". */
  lemma PairPrefixed(t: string, a: string, b: string)
    ensures Join(Prefixed(t, [a, b]), ", ") == (t + "." + a) + ", " + (t + "." + b)
  {
    var q := Prefixed(t, [a, b]);
    assert q == [t + "." + a, t + "." + b];
    assert q[..1] == [t + "." + a];
  }

  /** What the first `build()` leaves behind for the example: the qualified fields. */
  lemma JoinedSelectAfterBuild(t: string, x: string, u: string, y: string)
    requires PlainNames(t, x, u, y)
    ensures AfterBuild(PlainProvider, JoinedSelect(t, x, u, y))
      == JoinedSelect(t, x, u, y).(fields := (t + "." + x) + ", " + (u + "." + y))
  {
    JoinedSelectFirstFields(t, x, u, y);
    assert TrimmedNonBlank([]) == [];
  }

  /**
   * Building twice as the source does: the first `build()` stores the
   * qualified fields "t.x, u.y", and the second qualifies them again, giving
   * "t.t.x, t.u.y, u.y", so the second statement differs from the first
   * whenever the base field and the table name start differently.
   */
  lemma RebuildRequalifiesFields(t: string, x: string, u: string, y: string)
    requires PlainNames(t, x, u, y) && x[0] != t[0]
    ensures BuildSql(PlainProvider, JoinedSelect(t, x, u, y)).Ok?
    ensures BuildSql(PlainProvider, AfterBuild(PlainProvider, JoinedSelect(t, x, u, y)))
      != BuildSql(PlainProvider, JoinedSelect(t, x, u, y))
  {
    var p, d := PlainProvider, JoinedSelect(t, x, u, y);
    JoinedSelectAfterBuild(t, x, u, y);
    var d2 := d.(fields := (t + "." + x) + ", " + (u + "." + y));
    JoinedSelectStatementsDiffer(t, x, u, y, d2);
    BuildSelectIs(p, d);
    BuildSelectIs(p, d2);
  }

  /** A SELECT state with a table builds to its SELECT statement. */
  lemma BuildSelectIs(p: Provider, d: QueryData)
    requires HasTable(d) && d.kind == SelectKind
    ensures BuildSql(p, d) == Ok(SelectStatement(p, d))
  {
  }

  /** The SELECT text before and after the first `build()` differs right after the first "t.". */
  lemma JoinedSelectStatementsDiffer(t: string, x: string, u: string, y: string, d2: QueryData)
    requires PlainNames(t, x, u, y) && x[0] != t[0]
    requires d2 == JoinedSelect(t, x, u, y).(fields := (t + "." + x) + ", " + (u + "." + y))
    ensures SelectStatement(PlainProvider, JoinedSelect(t, x, u, y)) != SelectStatement(PlainProvider, d2)
  {
    var p, d := PlainProvider, JoinedSelect(t, x, u, y);
    JoinedSelectFirstFields(t, x, u, y);
    JoinedSelectSecondFields(t, x, u, y, d2);
    BuildSelectStarts(p, d);
    BuildSelectStarts(p, d2);
    var a, b := t + "." + x, u + "." + y;
    var rest1 := ", " + b;
    var rest2 := (", " + (t + "." + b)) + (", " + b);
    Regroup2(a, ", ", b);
    Regroup2(t + "." + a, ", ", t + "." + b);
    Regroup2(t + "." + a, ", " + (t + "." + b), ", " + b);
    var pre1 := "SELECT " + (a + rest1) + " FROM";
    var pre2 := "SELECT " + ((t + "." + a) + rest2) + " FROM";
    SelectHeadAt(t, x, rest1);
    SelectHeadAt(t, a, rest2);
    PrefixesDiffer(SelectStatement(p, d), SelectStatement(p, d2), pre1, pre2, 8 + |t|);
  }

  /** In `SELECT t.s... FROM`, the character right after "t." is the first of `s`. */
  lemma SelectHeadAt(t: string, s: string, rest: string)
    requires s != []
    ensures 8 + |t| < |"SELECT " + ((t + "." + s) + rest) + " FROM"|
    ensures ("SELECT " + ((t + "." + s) + rest) + " FROM")[8 + |t|] == s[0]
  {
    var h := "SELECT " + (t + "." + s);
    assert h[8 + |t|] == s[0];
    assert "SELECT " + ((t + "." + s) + rest) + " FROM" == h + (rest + " FROM");
  }

  /** Two strings that begin with prefixes differing at some position are different. */
  lemma PrefixesDiffer(a: string, b: string, pa: string, pb: string, k: nat)
    requires StartsWith(a, pa) && StartsWith(b, pb)
    requires k < |pa| && k < |pb| && pa[k] != pb[k]
    ensures a != b
  {
    assert a[k] == pa[k];
    assert b[k] == pb[k];
  }

  // ---------------------------------------------------------------------------
  // The builder

  class QueryBuilder {
    const provider: Provider
    var data: QueryData

    ghost predicate Valid()
      reads this
    {
      Consistent(provider, data)
    }

    /** `new QueryBuilder()` */
    constructor (p: Provider)
      ensures provider == p && data == Initial && Valid()
    {
      provider := p;
      data := Initial;
    }

    /** `clone()`: a new builder with a copy of the record. */
    method Clone() returns (q: QueryBuilder)
      requires Valid()
      ensures fresh(q) && q.Valid()
      ensures q.provider == provider && q.data == data
    {
      q := new QueryBuilder(provider);
      q.data := data;
    }

    /** `table(name)`: the table can be named only once. */
    method Table(name: string) returns (o: Outcome)
      requires Valid()
      modifies this
      ensures Valid()
      ensures TableSet(old(data)) ==> o == Fail(TableAlreadySet) && data == old(data)
      ensures !TableSet(old(data)) ==> (o == Pass &&
        data == old(data).(tableName := Some(name), tableNameEscaped := Some(EscapeName(provider, name))))
    {
      if TableSet(data) {
        return Fail(TableAlreadySet);
      }
      data := data.(tableName := Some(name), tableNameEscaped := Some(EscapeName(provider, name)));
      o := Pass;
    }

    /** `setTableAlias(table, alias)`: neither name may be registered yet; then each maps to the other. */
    method SetTableAlias(table: Option<string>, alias: string) returns (o: Outcome)
      requires Valid()
      modifies this
      ensures Valid()
      ensures NameKey(table) in old(data).tableAlias ==> o == Fail(AliasRegistered(NameKey(table))) && data == old(data)
      ensures NameKey(table) !in old(data).tableAlias && alias in old(data).tableAlias ==>
        o == Fail(AliasRegistered(alias)) && data == old(data)
      ensures NameKey(table) !in old(data).tableAlias && alias !in old(data).tableAlias ==> (o == Pass &&
        data == old(data).(tableAlias := old(data).tableAlias[alias := table][NameKey(table) := Some(alias)]))
    {
      var key := NameKey(table);
      if key in data.tableAlias {
        return Fail(AliasRegistered(key));
      }
      if alias in data.tableAlias {
        return Fail(AliasRegistered(alias));
      }
      AliasPairedAdd(data.tableAlias, table, alias);
      data := data.(tableAlias := data.tableAlias[alias := table][key := Some(alias)]);
      o := Pass;
    }

    /** `addJoinTable(table, type, fields)`: the join becomes the current one; no fields means "*". */
    method AddJoinTable(table: string, kind: JoinKind, fields: seq<string>)
      requires Valid()
      modifies this
      ensures Valid()
      ensures data == old(data).(currentJoinTableName := table,
        joinTables := old(data).joinTables + [JoinTable(table, if fields == [] then ["*"] else fields, kind, "")])
    {
      var fs := if |fields| < 1 then ["*"] else fields;
      data := data.(currentJoinTableName := table, joinTables := data.joinTables + [JoinTable(table, fs, kind, "")]);
    }

    /** The table `as()` names: the current join, else the table, which is None (`undefined`) before `table()`. */
    function AliasTarget(): Option<string>
      reads this
    {
      if data.currentJoinTableName != "" then Some(data.currentJoinTableName) else data.tableName
    }

    /** `as(alias)`: registers the alias of the current join table or, before any join, of the table. */
    method As(alias: string) returns (o: Outcome)
      requires Valid()
      modifies this
      ensures Valid()
      ensures var target := old(AliasTarget()); var key := NameKey(target);
        if key in old(data).tableAlias then o == Fail(AliasRegistered(key)) && data == old(data)
        else if alias in old(data).tableAlias then o == Fail(AliasRegistered(alias)) && data == old(data)
        else o == Pass && data == old(data).(tableAlias := old(data).tableAlias[alias := target][key := Some(alias)])
      ensures old(data).currentJoinTableName == "" && old(data).tableName.None? && o.Pass? && alias != "undefined" ==>
        AliasOf(data.tableAlias, alias) == "" && AliasOf(data.tableAlias, "undefined") == alias
    {
      o := SetTableAlias(AliasTarget(), alias);
    }

    /** `on(condition, values)`: needs a join, whose condition can be set only once. */
    method On(condition: string, args: Args) returns (o: Outcome)
      requires Valid()
      modifies this
      ensures Valid()
      ensures old(data).joinTables == [] ==> o == Fail(MissingJoin) && data == old(data)
      ensures var js := old(data).joinTables;
        js != [] && js[|js| - 1].on != "" ==> o == Fail(JoinOnRegistered(js[|js| - 1].on)) && data == old(data)
      ensures var js := old(data).joinTables;
        js != [] && js[|js| - 1].on == "" ==>
          match Format(provider, condition, OrEmpty(args))
          case Err(e) => o == Fail(e) && data == old(data)
          case Ok(s) => o == Pass && data == old(data).(joinTables := js[..|js| - 1] + [js[|js| - 1].(on := s)])
    {
      var js := data.joinTables;
      if |js| == 0 {
        return Fail(MissingJoin);
      }
      var last := js[|js| - 1];
      if last.on != "" {
        return Fail(JoinOnRegistered(last.on));
      }
      var f := Format(provider, condition, OrEmpty(args));
      if f.Err? {
        return Fail(f.error);
      }
      data := data.(joinTables := js[..|js| - 1] + [last.(on := f.value)]);
      o := Pass;
    }

    /**
     * `and(condition, values)`: a template is formatted and pushed; an object
     * must hold no undefined value and is rendered key by key. Unless the
     * statement is a SELECT, a blank template or an empty object is refused.
     */
    method And(c: Condition, args: Args) returns (o: Outcome)
      requires Valid()
      modifies this
      ensures Valid()
      ensures o.Fail? ==> data == old(data)
      ensures o.Pass? ==> data == old(data).(conditions := data.conditions)
      ensures o.Pass? ==> |data.conditions| >= |old(data).conditions| && data.conditions[..|old(data).conditions|] == old(data).conditions
      ensures c == CondText("") ==> o == Fail(MissingCondition)
      ensures c.CondText? && c.tpl != "" && old(data).kind != SelectKind && Trim(c.tpl) == "" ==> o == Fail(EmptyModifyCondition)
      ensures c.CondText? && c.tpl != "" && (old(data).kind == SelectKind || Trim(c.tpl) != "") ==>
        match Format(provider, c.tpl, OrEmpty(args))
        case Err(e) => o == Fail(e)
        case Ok(s) => o == Pass && data.conditions == old(data).conditions + [s]
      ensures c.CondMap? && provider.undefinedKeys(c.record) != [] ==> o == Fail(UndefinedConditionKeys(provider.undefinedKeys(c.record)))
      ensures c.CondMap? && provider.undefinedKeys(c.record) == [] && old(data).kind != SelectKind && c.record == [] ==>
        o == Fail(EmptyModifyCondition)
      ensures c.CondMap? && provider.undefinedKeys(c.record) == [] && (old(data).kind == SelectKind || c.record != []) ==>
        match ConditionStrings(provider, c.record)
        case Err(e) => o == Fail(e)
        case Ok(strs) => o == Pass && data.conditions == old(data).conditions + strs
      ensures c.CondMap? && ReportsUndefined(provider, c.record) && !NoUndefined(c.record) ==>
        o == Fail(UndefinedConditionKeys(provider.undefinedKeys(c.record)))
    {
      match c
      case CondText(tpl) =>
        if tpl == "" {
          return Fail(MissingCondition);
        }
        if data.kind != SelectKind && Trim(tpl) == "" {
          return Fail(EmptyModifyCondition);
        }
        var f := Format(provider, tpl, OrEmpty(args));
        if f.Err? {
          return Fail(f.error);
        }
        data := data.(conditions := data.conditions + [f.value]);
        o := Pass;
      case CondMap(record) =>
        var keys := provider.undefinedKeys(record);
        if |keys| >= 1 {
          return Fail(UndefinedConditionKeys(keys));
        }
        if data.kind != SelectKind && |record| == 0 {
          return Fail(EmptyModifyCondition);
        }
        var strs := SqlConditionStrings(provider, record);
        if strs.Err? {
          return Fail(strs.error);
        }
        data := data.(conditions := data.conditions + strs.value);
        o := Pass;
    }

    /** `where(condition, values)`: the same as `and`. */
    method Where(c: Condition, args: Args) returns (o: Outcome)
      requires Valid()
      modifies this
      ensures Valid()
      ensures o.Fail? ==> data == old(data)
      ensures o.Pass? ==> data == old(data).(conditions := data.conditions)
      ensures o.Pass? ==> |data.conditions| >= |old(data).conditions| && data.conditions[..|old(data).conditions|] == old(data).conditions
      ensures c == CondText("") ==> o == Fail(MissingCondition)
      ensures c.CondText? && c.tpl != "" && old(data).kind != SelectKind && Trim(c.tpl) == "" ==> o == Fail(EmptyModifyCondition)
      ensures c.CondText? && c.tpl != "" && (old(data).kind == SelectKind || Trim(c.tpl) != "") ==>
        match Format(provider, c.tpl, OrEmpty(args))
        case Err(e) => o == Fail(e)
        case Ok(s) => o == Pass && data.conditions == old(data).conditions + [s]
      ensures c.CondMap? && provider.undefinedKeys(c.record) != [] ==> o == Fail(UndefinedConditionKeys(provider.undefinedKeys(c.record)))
      ensures c.CondMap? && provider.undefinedKeys(c.record) == [] && old(data).kind != SelectKind && c.record == [] ==>
        o == Fail(EmptyModifyCondition)
      ensures c.CondMap? && provider.undefinedKeys(c.record) == [] && (old(data).kind == SelectKind || c.record != []) ==>
        match ConditionStrings(provider, c.record)
        case Err(e) => o == Fail(e)
        case Ok(strs) => o == Pass && data.conditions == old(data).conditions + strs
      ensures c.CondMap? && ReportsUndefined(provider, c.record) && !NoUndefined(c.record) ==>
        o == Fail(UndefinedConditionKeys(provider.undefinedKeys(c.record)))
    {
      o := And(c, args);
    }

    /** The kind can leave "" only once. */
    function KindCheck(): Outcome
      reads this
    {
      if data.kind == Unset then Pass else Fail(KindAlreadySet(KindName(data.kind)))
    }

    /** `select(...names)`: the kind becomes SELECT, and the names, if any, go through `fields`. */
    method Select(names: seq<string>) returns (o: Outcome)
      requires Valid()
      modifies this
      ensures Valid()
      ensures old(data).kind != Unset ==> o == Fail(KindAlreadySet(KindName(old(data).kind))) && data == old(data)
      ensures old(data).kind == Unset && names == [] ==> o == Pass && data == old(data).(kind := SelectKind)
      ensures old(data).kind == Unset && names != [] ==> (o, data) == FieldsStep(provider, old(data).(kind := SelectKind), names)
    {
      o := KindCheck();
      if o.Fail? {
        return;
      }
      data := data.(kind := SelectKind);
      if |names| < 1 {
        return;
      }
      o := Fields(names);
    }

    /** `fields(...names)`: only while the fields are "" or "*". */
    method Fields(names: seq<string>) returns (o: Outcome)
      requires Valid()
      modifies this
      ensures Valid()
      ensures (o, data) == FieldsStep(provider, old(data), names)
    {
      if data.fields != "" && data.fields != "*" {
        return Fail(FieldsAlreadySet);
      }
      var rendered: seq<string> := [];
      for i := 0 to |names|
        invariant rendered == FieldNames(provider, names[..i])
        invariant forall k :: 0 <= k < i ==> names[k] != ""
      {
        if names[i] == "" {
          return Fail(EmptyFieldName);
        }
        rendered := rendered + [if names[i] == "*" then names[i] else EscapeName(provider, names[i])];
      }
      assert names[..|names|] == names;
      data := data.(fields := Join(rendered, ", "));
      o := Pass;
    }

    /** `count(name)`: a SELECT of `COUNT(*) AS name`. */
    method Count(name: string) returns (o: Outcome)
      requires Valid()
      modifies this
      ensures Valid()
      ensures old(data).kind != Unset ==> o == Fail(KindAlreadySet(KindName(old(data).kind))) && data == old(data)
      ensures old(data).kind == Unset ==> (o == Pass &&
        data == old(data).(kind := SelectKind, fields := "COUNT(*) AS " + EscapeName(provider, name)))
    {
      o := KindCheck();
      if o.Fail? {
        return;
      }
      data := data.(kind := SelectKind, fields := "COUNT(*) AS " + EscapeName(provider, name));
    }

    /** `update(input, values)`: the kind becomes UPDATE with no assignments, then a non-empty input goes through `set`. */
    method Update(input: Option<Assign>, args: Args) returns (o: Outcome)
      requires Valid()
      modifies this
      ensures Valid()
      ensures old(data).kind != Unset ==> o == Fail(KindAlreadySet(KindName(old(data).kind))) && data == old(data)
      ensures old(data).kind == Unset && (input.None? || input == Some(AssignText(""))) ==>
        o == Pass && data == old(data).(kind := UpdateKind, update := [])
      ensures old(data).kind == Unset && input.Some? && input != Some(AssignText("")) ==>
        data.kind == UpdateKind && data == old(data).(kind := UpdateKind, update := data.update) &&
        (o.Fail? ==> data.update == [])
      ensures old(data).kind == Unset && input.Some? && input.value.AssignMap? ==>
        match SqlUpdateString(provider, input.value.record)
        case Err(e) => o == Fail(e)
        case Ok(s) => o == Pass && data.update == (if s == "" then [] else [s])
      ensures old(data).kind == Unset && input.Some? && input.value.AssignText? && input.value.tpl != "" ==>
        match Format(provider, input.value.tpl, OrEmpty(args))
        case Err(e) => o == Fail(e)
        case Ok(s) => o == Pass && data.update == [s]
    {
      o := KindCheck();
      if o.Fail? {
        return;
      }
      data := data.(kind := UpdateKind, update := []);
      if input.Some? && input != Some(AssignText("")) {
        o := Set(input.value, args);
      }
    }

    /** `set(input, values)`: adds assignments to an UPDATE or INSERT ... ON DUPLICATE KEY UPDATE. */
    method Set(input: Assign, args: Args) returns (o: Outcome)
      requires Valid()
      modifies this
      ensures Valid()
      ensures o.Fail? ==> data == old(data)
      ensures o.Pass? ==> data == old(data).(update := data.update)
      ensures old(data).kind != UpdateKind && old(data).kind != InsertOrUpdateKind ==> o == Fail(NotUpdateKind)
      ensures (old(data).kind == UpdateKind || old(data).kind == InsertOrUpdateKind) && input == AssignText("") ==>
        o == Fail(MissingUpdateData)
      ensures (old(data).kind == UpdateKind || old(data).kind == InsertOrUpdateKind) && input.AssignText? && input.tpl != "" ==>
        match Format(provider, input.tpl, OrEmpty(args))
        case Err(e) => o == Fail(e)
        case Ok(s) => o == Pass && data.update == old(data).update + [s]
      ensures (old(data).kind == UpdateKind || old(data).kind == InsertOrUpdateKind) && input.AssignMap? ==>
        match SqlUpdateString(provider, input.record)
        case Err(e) => o == Fail(e)
        case Ok(s) => o == Pass && data.update == old(data).update + (if s == "" then [] else [s])
    {
      if data.kind != UpdateKind && data.kind != InsertOrUpdateKind {
        return Fail(NotUpdateKind);
      }
      match input
      case AssignText(tpl) =>
        if tpl == "" {
          return Fail(MissingUpdateData);
        }
        var f := Format(provider, tpl, OrEmpty(args));
        if f.Err? {
          return Fail(f.error);
        }
        data := data.(update := data.update + [f.value]);
        o := Pass;
      case AssignMap(record) =>
        var s := SqlUpdateString(provider, record);
        if s.Err? {
          return Fail(s.error);
        }
        if s.value != "" {
          data := data.(update := data.update + [s.value]);
        }
        o := Pass;
    }

    /** The tuple of one row, column by column. */
    method RowSql(columns: seq<string>, item: Record) returns (r: Result<string>)
      ensures r == RowTuple(provider, columns, item)
    {
      var line: seq<string> := [];
      for j := 0 to |columns|
        invariant MapResult(CellOf(provider, item), columns[..j]) == Ok(line)
      {
        var field := columns[j];
        assert columns[..j + 1][..j] == columns[..j];
        if !HasKey(item, field) {
          MapResultPrefixErr(CellOf(provider, item), columns, j + 1);
          return Err(MissingInsertField(field));
        }
        line := line + [provider.escape(Lookup(item, field))];
      }
      assert columns[..|columns|] == columns;
      r := Ok("(" + Join(line, ", ") + ")");
    }

    /** The insert payload, row by row. */
    method InsertSql(list: seq<Record>) returns (r: Result<string>)
      ensures r == InsertPayload(provider, list)
    {
      if |list| < 1 {
        return Err(EmptyInsert);
      }
      var columns := Keys(list[0]);
      var names := ColumnNames(provider, columns);
      var values: seq<string> := [];
      for i := 0 to |list|
        invariant MapResult(TupleOf(provider, columns), list[..i]) == Ok(values)
      {
        assert list[..i + 1][..i] == list[..i];
        var row := RowSql(columns, list[i]);
        if row.Err? {
          MapResultPrefixErr(TupleOf(provider, columns), list, i + 1);
          return Err(row.error);
        }
        values := values + [row.value];
      }
      assert list[..|list|] == list;
      r := Ok("(" + Join(names, ", ") + ") VALUES " + Join(values, ",\n"));
    }

    /**
     * `insert(rows)`: the kind becomes INSERT, then the payload lists the
     * first row's columns and one tuple per row, and the row count is kept.
     */
    method Insert(input: InsertData) returns (o: Outcome)
      requires Valid()
      modifies this
      ensures Valid()
      ensures old(data).kind != Unset ==> o == Fail(KindAlreadySet(KindName(old(data).kind))) && data == old(data)
      ensures old(data).kind == Unset ==>
        match InsertPayload(provider, RowsOf(input))
        case Err(e) => o == Fail(e) && data == old(data).(kind := InsertKind)
        case Ok(s) => o == Pass && data == old(data).(kind := InsertKind, insert := s, insertRows := |RowsOf(input)|)
    {
      o := KindCheck();
      if o.Fail? {
        return;
      }
      data := data.(kind := InsertKind);
      var list := RowsOf(input);
      var payload := InsertSql(list);
      if payload.Err? {
        return Fail(payload.error);
      }
      data := data.(insert := payload.value, insertRows := |list|);
      o := Pass;
    }

    /** `delete()` */
    method Delete() returns (o: Outcome)
      requires Valid()
      modifies this
      ensures Valid()
      ensures old(data).kind != Unset ==> o == Fail(KindAlreadySet(KindName(old(data).kind))) && data == old(data)
      ensures old(data).kind == Unset ==> o == Pass && data == old(data).(kind := DeleteKind)
    {
      o := KindCheck();
      if o.Fail? {
        return;
      }
      data := data.(kind := DeleteKind);
    }

    /** `onDuplicateKeyUpdate()`: only an INSERT of exactly one row becomes INSERT_OR_UPDATE. */
    method OnDuplicateKeyUpdate() returns (o: Outcome)
      requires Valid()
      modifies this
      ensures Valid()
      ensures old(data).kind != InsertKind ==> o == Fail(NotInsertKind) && data == old(data)
      ensures old(data).kind == InsertKind && old(data).insertRows != 1 ==> o == Fail(NotOneRow(old(data).insertRows)) && data == old(data)
      ensures old(data).kind == InsertKind && old(data).insertRows == 1 ==> o == Pass && data == old(data).(kind := InsertOrUpdateKind)
    {
      if data.kind != InsertKind {
        return Fail(NotInsertKind);
      }
      if data.insertRows != 1 {
        return Fail(NotOneRow(data.insertRows));
      }
      data := data.(kind := InsertOrUpdateKind);
      o := Pass;
    }

    /** `sql(tpl, values)`: a custom statement; only positional values are kept. */
    method Sql(tpl: string, args: Args) returns (o: Outcome)
      requires Valid()
      modifies this
      ensures Valid()
      ensures old(data).kind != Unset ==> o == Fail(KindAlreadySet(KindName(old(data).kind))) && data == old(data)
      ensures old(data).kind == Unset ==> (o == Pass &&
        data == old(data).(kind := CustomKind, sqlTpl := tpl, sqlValues := if args.Positional? then args.list else []))
    {
      o := KindCheck();
      if o.Fail? {
        return;
      }
      data := data.(kind := CustomKind, sqlTpl := tpl, sqlValues := if args.Positional? then args.list else []);
    }

    /** `orderBy(tpl, values)` */
    method OrderBy(tpl: string, args: Args) returns (o: Outcome)
      requires Valid()
      modifies this
      ensures Valid()
      ensures (o, data) == OrderByStep(provider, old(data), tpl, args)
    {
      var f := Format(provider, tpl, args);
      if f.Err? {
        return Fail(f.error);
      }
      data := data.(orderFields := f.value);
      data := data.(orderBy := "ORDER BY " + data.orderFields);
      data := data.(orderBy := ReplaceQuoted(ReplaceQuoted(data.orderBy, "DESC"), "ASC"));
      o := Pass;
    }

    /** `groupBy(tpl, values)` */
    method GroupBy(tpl: string, args: Args) returns (o: Outcome)
      requires Valid()
      modifies this
      ensures Valid()
      ensures (o, data) == GroupByStep(provider, old(data), tpl, args)
    {
      var f := Format(provider, tpl, args);
      if f.Err? {
        return Fail(f.error);
      }
      data := data.(groupByFields := f.value);
      data := data.(groupBy := "GROUP BY " + data.groupByFields);
      data := data.(groupBy := ReplaceQuoted(ReplaceQuoted(data.groupBy, "DESC"), "ASC"));
      o := Pass;
    }

    /** `offset(rows)` (also `skip`) */
    method Offset(rows: int) returns (o: Outcome)
      requires Valid()
      modifies this
      ensures Valid()
      ensures (o, data) == OffsetStep(old(data), rows)
    {
      if rows < 0 {
        return Fail(NegativeRows(rows));
      }
      data := data.(offsetRows := rows);
      data := data.(limit := SqlLimitString(data.offsetRows, data.limitRows));
      o := Pass;
    }

    /** `limit(rows)` */
    method Limit(rows: int) returns (o: Outcome)
      requires Valid()
      modifies this
      ensures Valid()
      ensures (o, data) == LimitStep(old(data), rows)
    {
      if rows < 0 {
        return Fail(NegativeRows(rows));
      }
      data := data.(limitRows := rows);
      data := data.(limit := SqlLimitString(data.offsetRows, data.limitRows));
      o := Pass;
    }

    /** `options(opts)` */
    method Options(opts: QueryOptions) returns (o: Outcome)
      requires Valid()
      modifies this
      ensures Valid()
      ensures (o, data) == ApplyOptions(provider, old(data), opts)
    {
      o := Pass;
      if opts.skip.Some? {
        o := Offset(opts.skip.value);
        if o.Fail? { return; }
      }
      if opts.offset.Some? {
        o := Offset(opts.offset.value);
        if o.Fail? { return; }
      }
      o := LaterOptionSteps(opts);
    }

    /** The `limit`, `orderBy`, `groupBy` and `fields` steps of `options`. */
    method LaterOptionSteps(opts: QueryOptions) returns (o: Outcome)
      requires Valid()
      modifies this
      ensures Valid()
      ensures (o, data) == LaterOptions(provider, old(data), opts)
    {
      o := Pass;
      if opts.limit.Some? {
        o := Limit(opts.limit.value);
        if o.Fail? { return; }
      }
      if opts.orderBy.Some? {
        o := OrderBy(opts.orderBy.value, NoArgs);
        if o.Fail? { return; }
      }
      if opts.groupBy.Some? {
        o := GroupBy(opts.groupBy.value, NoArgs);
        if o.Fail? { return; }
      }
      if opts.fields.Some? {
        o := Fields(opts.fields.value);
      }
    }

    /** The loop over the joined tables: one segment and one run of qualified fields per join. */
    method JoinParts(m: AliasMap, joins: seq<JoinTable>)
      returns (join: seq<string>, fields: string)
      ensures join == JoinSegments(provider, m, joins)
      ensures fields == JoinedFields(provider, m, joins)
    {
      join := [];
      fields := "";
      for i := 0 to |joins|
        invariant join == JoinSegments(provider, m, joins[..i])
        invariant fields == JoinedFields(provider, m, joins[..i])
      {
        var item := joins[i];
        JoinsSnoc(provider, m, joins, i);
        var str := JoinKeyword(item.joinKind) + " " + EscapeName(provider, item.table);
        var itemAlias := AliasOf(m, item.table);
        if itemAlias != "" {
          str := str + " AS " + EscapeName(provider, itemAlias);
        }
        if item.on != "" {
          str := str + " ON " + item.on;
        }
        fields := fields + JoinFieldsText(provider, m, item);
        join := join + [str];
      }
      assert joins[..|joins|] == joins;
    }

    /** The SELECT branch of `build()`: joins qualify the field lists and add their segments. */
    method SelectSql(d: QueryData) returns (sql: string)
      requires HasTable(d)
      ensures sql == SelectStatement(provider, d)
    {
      var t := d.tableNameEscaped.value;
      var join: seq<string> := [];
      var fields := d.fields;
      if |d.joinTables| > 0 {
        var alias := AliasOf(d.tableAlias, d.tableName.value);
        var a := if alias != "" then EscapeName(provider, alias) else t;
        if alias != "" {
          join := join + ["AS " + a];
        }
        assert join == BaseAlias(provider, d);
        fields := Join(Prefixed(a, SplitFields(fields)), ", ");
        var segs, more := JoinParts(d.tableAlias, d.joinTables);
        join, fields := join + segs, fields + more;
      }
      assert fields == SelectFields(provider, d);
      var where := WhereClause(d.conditions);
      assert join + [where, d.groupBy, d.orderBy, d.limit] == SelectTail(provider, d);
      sql := Trim("SELECT " + fields + " FROM " + t + " " + JoinMultiString(join + [where, d.groupBy, d.orderBy, d.limit]));
    }

    /** `build()`, reading the record only: the statement for the current state. */
    method Build() returns (r: Result<string>)
      ensures r == BuildSql(provider, data)
    {
      var d := data;
      if !HasTable(d) {
        return Err(MissingTable);
      }
      var t := d.tableNameEscaped.value;
      var conditions := TrimmedNonBlank(d.conditions);
      var where := if |conditions| > 0 then "WHERE " + Join(conditions, " AND ") else "";
      match d.kind
      case SelectKind =>
        var s := SelectSql(d);
        r := Ok(s);
      case InsertKind =>
        r := Ok(Trim("INSERT INTO " + t + " " + d.insert));
      case UpdateKind =>
        if |d.update| == 0 {
          return Err(EmptyUpdate);
        }
        r := Ok(Trim("UPDATE " + t + " SET " + Join(d.update, ", ") + " " + JoinMultiString([where, d.limit])));
      case InsertOrUpdateKind =>
        if |d.update| == 0 {
          return Err(EmptyUpdate);
        }
        r := Ok(Trim("INSERT INTO " + t + " " + d.insert + " ON DUPLICATE KEY UPDATE " + Join(d.update, ", ")));
      case DeleteKind =>
        r := Ok(Trim("DELETE FROM " + t + " " + JoinMultiString([where, d.limit])));
      case CustomKind =>
        var s := provider.format(SqlFormatObject(provider, d.sqlTpl, Some(Macros(d)), true), d.sqlValues);
        if s.Err? {
          return Err(s.error);
        }
        r := Ok(Trim(s.value));
      case Unset =>
        r := Err(InvalidKind(""));
    }

    /** Two builds in a row, as a caller that logs a statement and then runs it would do. */
    method BuildTwice() returns (first: Result<string>, second: Result<string>)
      ensures first == second && first == BuildSql(provider, data)
    {
      first := Build();
      second := Build();
    }

    /**
     * `build()` as the source writes it: it returns the same statement, but it
     * also stores the normalised conditions, the qualified SELECT fields and
     * the custom SQL in the record.
     */
    method BuildAsWritten() returns (r: Result<string>)
      requires Valid()
      modifies this
      ensures Valid()
      ensures r == BuildSql(provider, old(data))
      ensures data == AfterBuild(provider, old(data))
    {
      BuildNormalisedConditions(provider, data);
      data := data.(conditions := TrimmedNonBlank(data.conditions));
      r := Build();
      if HasTable(data) && data.kind == SelectKind && data.joinTables != [] {
        data := data.(fields := SelectFields(provider, data));
      } else if HasTable(data) && data.kind == CustomKind {
        var s := provider.format(SqlFormatObject(provider, data.sqlTpl, Some(Macros(data)), true), data.sqlValues);
        assert s == CustomSql(provider, data);
        if s.Ok? {
          data := data.(sql := s.value);
        }
      }
    }
  }
}
