# leizm-sql statement builder, modelled in Dafny

This project models the core of the `@leizm/sql` TypeScript library. The library builds MySQL statements by chaining method calls.

- **`QueryBuilder`** (`src/lib/query.ts`) is a state machine over one mutable record. Chain calls set the table, aliases, joins, conditions, the query kind, update and insert data, ordering, grouping and the LIMIT clause. `build()` assembles the statement. Every `assert.ok` or `throw` in a chain method becomes an error constructor of `Values.Error`. A method that throws leaves the record as the source leaves it. Each chain method that can throw states both its failing and its succeeding outcomes, either directly or through the step function it is proved equal to.
- **The rendering helpers** (`src/lib/utils.ts`):
  - named-placeholder formatting (`:name`, `::name`);
  - condition and update rendering;
  - the LIMIT clause;
  - the segment joiner `joinMultiString`.
- **`Expression`** (`src/lib/expr.ts`) is a condition text that grows by ` AND …` / ` OR …` fragments. Its `build()` trims the text and strips the first connector.

The escaping primitives have bodies that are not part of this model: `sqlEscape`, `sqlEscapeId`, the positional formatter `sqlFormat` and `findKeysForUndefinedValue`. They are fields of a `Provider` value, passed to the builders. `sqlFormat` may fail, so it returns a `Result`.

Files:

- `text.dfy`: the JavaScript string operations the source relies on (`trim`, `join`, `split(/\s*,\s*/)`, the keyword replacement).
- `values.dfy`: values, records, errors and the provider.
- `utils.dfy`: `utils.ts`, plus `format`, which both classes share.
- `query.dfy`: `QueryBuilder`, with one step function per option-driven method, and `build()` as the function `BuildSql`.
- `expr.dfy`: `Expression`.

Three behaviours of the code that a caller might not expect:

- `join()` registers `["*"]` when it is given no fields.
- `build()` rewrites the field list of a joined SELECT in place (see Findings).
- An object condition is pasted into an `Expression` with its predicates joined by `,`, which is how a JavaScript array turns into a string.

## Model

| member | source | states |
|---|---|---|
| Text.Trim | src/lib/utils.ts:119 | `trim()` yields a string with no space at either end, shorter than or equal to its input, and empty exactly when the input is all white space |
| Text.TrimClean | src/lib/utils.ts:119 | trimming a string that has no space at either end leaves it unchanged, so trimming is idempotent |
| Text.SplitJoin | src/lib/query.ts:716-719 | splitting on `/\s*,\s*/` recovers the pieces that were joined with ", ", provided no piece holds a comma or has a space at either end |
| Text.ReplaceQuotedNoQuote | src/lib/query.ts:604 | the `'DESC'`/`'ASC'` replacement leaves text without a single quote unchanged |
| Text.ReplaceQuotedHit | src/lib/query.ts:604 | a quoted keyword in any letter case at the front becomes the bare keyword, and the scan goes on after its closing quote |
| Text.ReplaceQuotedPrefix | src/lib/query.ts:604 | text without a single quote in front passes through the replacement untouched |
| Text.FirstPass | src/lib/query.ts:604 | the first pass (`'DESC'`) over quoted directions followed by quote-free text makes every quoted first keyword bare, in any letter case, and keeps every quoted shorter keyword (`'ASC'`) and the text around them |
| Text.SecondPass | src/lib/query.ts:604 | the second pass (`'ASC'`) over that result makes every remaining quoted direction bare, so every direction is bare |
| Values.ParseNatToString | src/lib/utils.ts:106 | printing a natural number in decimal and reading it back gives the same number |
| Utils.OrEmpty | src/lib/query.ts:353 | `values \|\| []`: an absent argument becomes exactly the empty positional list, a given one is kept, and the result is never absent |
| Utils.Format | src/lib/query.ts:176-186 | `format`: without values the template comes back unchanged; with an object it never fails, and a template without `:` comes back unchanged |
| Utils.TokenAt | src/lib/utils.ts:14-18 | a placeholder match is `:` or `::` followed by the longest run of `[\w$]` characters, and no match means no `:`/`::` followed by a word character starts the text |
| Utils.FormatNamedNoColon | src/lib/utils.ts:12-30 | named formatting leaves a template without `:` unchanged |
| Utils.FormatNamedNoValues | src/lib/utils.ts:13 | with no values, or an empty object, named formatting changes nothing |
| Utils.FormatNamedCons | src/lib/utils.ts:14 | a character other than a colon starts no placeholder: it is copied and the scan continues after it |
| Utils.FormatNamedPrefix | src/lib/utils.ts:14 | text without `:` in front of a template passes through named formatting untouched |
| Utils.PlainPlaceholder | src/lib/utils.ts:19-28 | `:key` becomes the escaped value when the key is present (the value as text in raw mode), and stays as it is otherwise |
| Utils.IdPlaceholder | src/lib/utils.ts:15-27 | `::key` becomes the escaped identifier when the key is present (the value as text in raw mode), and stays as it is otherwise |
| Utils.TripleColon | src/lib/utils.ts:14-17 | in `:::key` the first colon is copied and the rest is read as `::key` |
| Utils.MapResult | src/lib/utils.ts:44-61 | mapping a throwing function over a list succeeds exactly when every element does, gives the results element by element, and otherwise fails with the first failure |
| Utils.MapResultPrefixErr | src/lib/utils.ts:71-92 | once a prefix has failed, the whole list fails with the same error |
| Utils.ConditionPredicate | src/lib/utils.ts:72-91 | one condition entry fails exactly for a single-key object whose operator is not `$in` with an array or `$like` with a string; otherwise it renders a predicate that starts with the escaped field name |
| Utils.SqlConditionStrings | src/lib/utils.ts:69-94 | the loop returns the same result as mapping `ConditionPredicate` over the entries, in key order |
| Utils.Assignment | src/lib/utils.ts:45-59 | one update entry fails exactly for a single-key object whose key is not `$incr`; otherwise it renders an assignment `name=…` to the escaped name |
| Utils.SqlUpdateString | src/lib/utils.ts:43-62 | the update text succeeds exactly when every entry does, is empty exactly for an empty object, and otherwise fails with the error of the first failing entry, every earlier entry rendering |
| Utils.SqlLimitString | src/lib/utils.ts:101-111 | the clause always starts with "LIMIT " |
| Utils.SqlLimitStringRoundTrip | src/lib/utils.ts:101-111 | reading the clause back gives the skip count and the row count; a row count of 0 means 18446744073709551615 rows |
| Utils.Kept | src/lib/utils.ts:119-120 | one string, trimmed and filtered, leaves nothing exactly when it is all white space, and otherwise one non-empty clean piece |
| Utils.TrimmedNonBlank | src/lib/utils.ts:118-120 | every piece that survives trimming and filtering is non-empty and clean |
| Utils.TrimmedNonBlankAppend | src/lib/utils.ts:118-120 | trimming and filtering a concatenation is the concatenation of the results |
| Utils.TrimmedNonBlankClean | src/lib/utils.ts:118-120 | pieces that are already non-empty and clean are kept as they are |
| Utils.JoinMultiStringClean | src/lib/utils.ts:117-122 | the joined text has no space at either end |
| Utils.JoinMultiStringBlank | src/lib/utils.ts:117-122 | a blank segment anywhere in the list does not change the result |
| Utils.TrimmedNonBlankEmpty | src/lib/utils.ts:118-120 | nothing survives trimming and filtering exactly when every segment is blank |
| Utils.JoinMultiStringEmpty | src/lib/utils.ts:117-122 | the result is empty exactly when every segment is blank |
| Utils.JoinMultiStringIdempotent | src/lib/utils.ts:117-122 | joining the joined text again changes nothing |
| Query.InitialConsistent | src/lib/query.ts:124-147 | the initial record satisfies the builder's invariant: aliases registered in pairs, an escaped name exactly when a table is set, the LIMIT text follows the row counts, and every join has fields |
| Query.AliasPairedAdd | src/lib/query.ts:224-229 | registering a table and its alias in both directions keeps the alias map paired, the table key pointing at the alias and the alias at the table, or at `undefined` (None) when no table was set |
| Query.FieldNames | src/lib/query.ts:384-387 | each field name is rendered element by element: `*` stays, any other name is escaped |
| Query.FieldList | src/lib/query.ts:381-390 | the field list fails with EmptyFieldName exactly when some name is empty |
| Query.FieldListSplit | src/lib/query.ts:716-719 | when escaped names are split-safe, splitting the stored field list gives back the rendered names |
| Query.OffsetStep | src/lib/query.ts:641-646 | `offset` fails exactly for a negative count and then changes nothing; otherwise it sets the count and recomputes the LIMIT text from both counts, and nothing else |
| Query.LimitStep | src/lib/query.ts:660-665 | `limit` fails exactly for a negative count and then changes nothing; otherwise it sets the count and recomputes the LIMIT text, and nothing else |
| Query.OrderByStep | src/lib/query.ts:597-606 | `orderBy` fails exactly when formatting the template with its values fails, with that error and the record unchanged; otherwise it stores the formatted text and "ORDER BY " + that text after the DESC and ASC replacements, and nothing else; without values the text is the template itself |
| Query.GroupByStep | src/lib/query.ts:626-635 | the same as `orderBy`, for the grouping fields and "GROUP BY " |
| Query.DirectionUnquotes | src/lib/query.ts:604 | after a quote-free head, every quoted DESC or ASC in any letter case becomes the bare upper-case keyword, and the quote-free text between and after is kept |
| Query.OrderByUnquotes | src/lib/query.ts:597-606 | when the formatted text is quoted directions followed by quote-free text, `orderBy` succeeds, keeps the formatted text as the fields and stores "ORDER BY " with every direction bare |
| Query.GroupByUnquotes | src/lib/query.ts:626-635 | the same for `groupBy` and "GROUP BY " |
| Query.FieldsStep | src/lib/query.ts:381-390 | `fields` fails once fields other than `*` are set, fails on an empty name, succeeds exactly when neither holds, and then stores the joined rendered names and nothing else |
| Query.OptionsOffsetAfterSkip | src/lib/query.ts:673-678 | when both `skip` and `offset` are given, `offset` wins |
| Query.OptionsStopAtNegativeLimit | src/lib/query.ts:679-681 | a negative `limit` option throws before any later option is applied, and leaves the record unchanged |
| Query.OptionsOrderOnly | src/lib/query.ts:682-684 | an options object with only `orderBy` does exactly what `orderBy` does |
| Query.RowStepsConsistent | src/lib/query.ts:641-665 | `offset` and `limit` preserve the builder's invariant |
| Query.ClauseStepsConsistent | src/lib/query.ts:381-390 | `orderBy`, `groupBy` and `fields` preserve the builder's invariant |
| Query.OffsetOptionsConsistent | src/lib/query.ts:673-678 | the `skip` and `offset` options preserve the builder's invariant |
| Query.LaterOptionsConsistent | src/lib/query.ts:679-691 | the `limit`, `orderBy`, `groupBy` and `fields` options preserve the builder's invariant |
| Query.ApplyOptionsConsistent | src/lib/query.ts:671-692 | `options` preserves the builder's invariant, whichever option throws |
| Query.RowTuple | src/lib/query.ts:517-522 | one insert row renders exactly when it has every column of the first row, and otherwise fails naming its first missing column in column order |
| Query.InsertPayload | src/lib/query.ts:505-524 | an empty row list fails; the payload renders exactly when every row has the first row's columns; otherwise it fails naming the first missing column of the first row that lacks one |
| Query.InsertPayloadErr | src/lib/query.ts:511-524 | a refused payload's error is the first missing column, in column order, of the first row that lacks a column |
| Query.Prefixed | src/lib/query.ts:716-724 | every split field is qualified by the table's alias or name, element by element |
| Query.JoinSegments | src/lib/query.ts:727-745 | one JOIN segment per registered join |
| Query.JoinsSnoc | src/lib/query.ts:727-745 | each loop iteration appends one segment and one field text |
| Query.BuildSql | src/lib/query.ts:697-794 | `build` fails without a table, for an unset kind, for an UPDATE or INSERT … ON DUPLICATE KEY UPDATE with no assignments, and for a custom statement whose positional formatting fails, and only then; a built statement has no space at either end |
| Query.WhereNormalised | src/lib/query.ts:701-702 | the WHERE clause is the same whether or not the conditions were already trimmed and filtered |
| Query.BuildSameWhere | src/lib/query.ts:697-794 | the statement depends on the conditions only through the WHERE clause |
| Query.BuildNormalisedConditions | src/lib/query.ts:701 | the in-place normalisation of the conditions that `build` performs does not change what a later build produces |
| Query.WhereBlank | src/lib/query.ts:701-702 | a blank condition does not change the WHERE clause |
| Query.BuildBlankCondition | src/lib/query.ts:701-702 | adding a blank condition does not change the built statement |
| Query.SelectFieldsQualified | src/lib/query.ts:711-743 | with joins, the fields of a SELECT are the rendered names qualified by the base table's alias or name, followed by the join tables' fields |
| Query.TrimKeepsPrefix | src/lib/query.ts:793 | trimming a statement keeps a keyword that has no space at either end at its start |
| Query.SelectKeepsHead | src/lib/query.ts:748 | a trimmed SELECT statement starts with "SELECT", its fields and " FROM" |
| Query.BuildSelectStarts | src/lib/query.ts:747-748 | every SELECT statement starts with "SELECT", its field list and " FROM" |
| Query.JoinedSelectJoinFields | src/lib/query.ts:741-743 | with one unaliased join with one field, the join adds ", u.y" to the field list |
| Query.JoinedSelectFirstFields | src/lib/query.ts:716-743 | the first build of a joined SELECT lists `t.x, u.y` |
| Query.QualifiedSafe | src/lib/query.ts:721-724 | qualifying a split-safe name with a split-safe table keeps it split-safe |
| Query.JoinedSelectSecondFields | src/lib/query.ts:716-743 | a build over the rewritten field list lists `t.t.x, t.u.y, u.y` |
| Query.JoinedSelectAfterBuild | src/lib/query.ts:716-743 | the record that the first build leaves behind holds the qualified field list |
| Query.RebuildRequalifiesFields | src/lib/query.ts:716-744 | as written, building a joined SELECT twice gives two different statements |
| Query.QueryBuilder.constructor | src/lib/query.ts:124-147 | a new builder holds the initial record and satisfies the invariant |
| Query.QueryBuilder.Clone | src/lib/query.ts:152-156 | the clone is a fresh builder holding an equal record |
| Query.QueryBuilder.Table | src/lib/query.ts:210-215 | `table` fails once a table is set; otherwise it sets the name and its escaped form, and nothing else |
| Query.QueryBuilder.SetTableAlias | src/lib/query.ts:224-229 | an already registered table (an `undefined` table under the key "undefined") or alias fails; otherwise both directions are registered, and nothing else changes |
| Query.QueryBuilder.AddJoinTable | src/lib/query.ts:237-245 | makes the table the current join target and appends a join with the given fields, or `*` when there are none, and no ON condition |
| Query.QueryBuilder.As | src/lib/query.ts:251-256 | aliases the current join table, or the base table when there is none, with the alias checks of `setTableAlias`; before `table()` the alias maps to `undefined`, so it reads as no alias, and "undefined" maps to it |
| Query.QueryBuilder.On | src/lib/query.ts:287-293 | fails without a join or when the last join already has an ON condition; otherwise sets the last join's ON condition to the formatted template, and nothing else |
| Query.QueryBuilder.And | src/lib/query.ts:344-364 | a missing condition, undefined values and a blank condition outside SELECT each fail with the state unchanged; otherwise the conditions grow by the formatted template or by every rendered predicate, and nothing else changes; with a provider that reports undefined values, an object holding one fails |
| Query.QueryBuilder.Where | src/lib/query.ts:313-321 | every outcome of `and`, stated in full: each failure with the state unchanged, each success with exactly the conditions it appends |
| Query.QueryBuilder.Select | src/lib/query.ts:370-375 | fails once the kind is set; otherwise the kind becomes SELECT and the fields are set as `fields` sets them |
| Query.QueryBuilder.Fields | src/lib/query.ts:381-390 | the state and outcome are the `fields` step's |
| Query.QueryBuilder.Count | src/lib/query.ts:396-401 | fails once the kind is set; otherwise sets SELECT and the field list "COUNT(*) AS " plus the escaped name |
| Query.QueryBuilder.Update | src/lib/query.ts:430-444 | fails once the kind is set; otherwise sets UPDATE with no assignments and, given non-empty data, continues as `set`: a template becomes the one assignment or its format error, an object becomes its rendered assignment or its error; the UPDATE kind is kept even when `set` throws |
| Query.QueryBuilder.Set | src/lib/query.ts:469-487 | fails outside UPDATE kinds and on missing data; appends the formatted template, or the rendered assignments when they are not empty |
| Query.QueryBuilder.RowSql | src/lib/query.ts:517-522 | the inner loop renders one row tuple |
| Query.QueryBuilder.InsertSql | src/lib/query.ts:511-524 | the outer loop renders the whole insert payload |
| Query.QueryBuilder.Insert | src/lib/query.ts:500-527 | fails once the kind is set; the kind becomes INSERT even when the data is then refused; otherwise stores the payload and the row count |
| Query.QueryBuilder.Delete | src/lib/query.ts:532-536 | fails once the kind is set; otherwise the kind becomes DELETE and nothing else changes |
| Query.QueryBuilder.OnDuplicateKeyUpdate | src/lib/query.ts:543-551 | fails unless the kind is INSERT with exactly one row; otherwise switches to INSERT_OR_UPDATE |
| Query.QueryBuilder.Sql | src/lib/query.ts:571-577 | fails once the kind is set; otherwise stores the template and the positional values, which an object argument leaves empty |
| Query.QueryBuilder.OrderBy | src/lib/query.ts:597-606 | the state and outcome are the `orderBy` step's |
| Query.QueryBuilder.GroupBy | src/lib/query.ts:626-635 | the state and outcome are the `groupBy` step's |
| Query.QueryBuilder.Offset | src/lib/query.ts:641-646 | the state and outcome are the `offset` step's |
| Query.QueryBuilder.Limit | src/lib/query.ts:660-665 | the state and outcome are the `limit` step's |
| Query.QueryBuilder.Options | src/lib/query.ts:671-692 | the state and outcome are those of the option steps in source order |
| Query.QueryBuilder.LaterOptionSteps | src/lib/query.ts:679-691 | the state and outcome are those of the `limit`, `orderBy`, `groupBy` and `fields` steps in source order, stopping at the first throw |
| Query.QueryBuilder.JoinParts | src/lib/query.ts:727-745 | the join loop produces exactly the JOIN segments and the extra field text |
| Query.QueryBuilder.SelectSql | src/lib/query.ts:709-749 | the SELECT branch produces the SELECT statement |
| Query.QueryBuilder.Build | src/lib/query.ts:697-794 | `build`, leaving the record alone, returns `BuildSql` of the current record |
| Query.QueryBuilder.BuildTwice | src/lib/query.ts:697-794 | two builds in a row give the same statement |
| Query.QueryBuilder.BuildAsWritten | src/lib/query.ts:697-794 | `build` as written returns the same statement, and leaves behind the normalised conditions and, for a joined SELECT, the qualified field list |
| Expr.ConnectorWord | src/lib/expr.ts:59-81 | the connectors are non-empty words that start with a non-space |
| Expr.Fragment | src/lib/expr.ts:40-50 | the fragment of one call fails exactly when the condition is missing, its template fails to format, or the provider finds undefined keys in its object or one of its entries uses an unsupported operator; with a provider that reports undefined values, an object holding one fails; a rendered object is empty when the object is, and otherwise begins with its first key, escaped |
| Expr.FragmentHead | src/lib/expr.ts:48 | the pasted array of predicates begins with the first key's escaped name |
| Expr.ChainCons | src/lib/expr.ts:47-50 | the accumulated text is the first call's piece followed by the rest of the chain |
| Expr.ChainEnd | src/lib/expr.ts:47-50 | the accumulated text ends with the last call's fragment |
| Expr.ChainHead | src/lib/expr.ts:47-50 | the accumulated text is a space, the first connector, a space and the body |
| Expr.BodyEnd | src/lib/expr.ts:47-50 | the body ends with the last fragment's last character |
| Expr.TrimPiece | src/lib/expr.ts:76 | trimming " connector body" removes only the opening space when the body ends in a non-space |
| Expr.TrimChain | src/lib/expr.ts:76 | such a chain trims to its first connector, a space and its body |
| Expr.BuildExpression | src/lib/expr.ts:75-81 | `build` fails with EmptyExpression exactly when the text is all white space; otherwise the result is wrapped in parentheses and at most two characters longer than the text |
| Expr.BuildTrimmed | src/lib/expr.ts:78-80 | a text that trims to a connector and a body builds to the body in parentheses |
| Expr.BuildChain | src/lib/expr.ts:75-81 | building a chain removes exactly the first connector: `and(a).and(b)` and `or(a).and(b)` both build "(a AND b)" |
| Expr.BuildState | src/lib/expr.ts:75-81 | the same for any text that is known to be such a chain |
| Expr.Expression.constructor | src/lib/expr.ts:11-13 | a new expression has an empty type and an empty text |
| Expr.Expression.FormatTemplate | src/lib/expr.ts:20-30 | `format`: without values the template comes back unchanged, and with an object it never fails |
| Expr.Expression.CombineCondition | src/lib/expr.ts:38-52 | a type other than "" or "condition" fails first; then the fragment's failure fails; all failures leave the state unchanged; otherwise appends " connector fragment" and sets the type to "condition" |
| Expr.Expression.And | src/lib/expr.ts:59-61 | `combineCondition` with AND |
| Expr.Expression.Or | src/lib/expr.ts:68-70 | `combineCondition` with OR |
| Expr.Expression.Build | src/lib/expr.ts:75-81 | `build` fails exactly when the text is blank, and for a chain of calls returns the conditions after the first connector in parentheses |

## Left out

- The bodies of `sqlEscape`, `sqlEscapeId`, `sqlFormat` and `findKeysForUndefinedValue` (`src/lib/utils.ts:3`, `:32-36`) are not part of this model. They are `Provider` parameters. `Query.QueryBuilder.And`, `Query.QueryBuilder.Where` and `Expr.Fragment` also state what follows when the provider reports exactly the records that hold an undefined value (`ReportsUndefined`).
- A `Record` is a sequence of key/value pairs and may repeat a key, which a JavaScript object cannot; `HasKey` and `Lookup` take the first pair with the key, and no member relies on keys being distinct.
- `utils.deepCopy` in `clone` is not modelled. The record is a value, so the copy is independent by construction.
- `_schema.isJsonField` is taken to be false. The field is never set inside the core.
- The `typeof` checks of the arguments are not modelled: `typeof tpl === "string"`, "condition must be a string or object", and the array-or-object check of `format`. The Dafny types already enforce them.
- `Number(rows)` coercion is not modelled: counts are integers. Floating-point and `NaN` counts are out of scope.
- The JavaScript enumeration order of integer-like keys is not modelled: a record's order is its given order. Inherited prototype keys are left out too.
- The static factories, and the aliases `into`, `from`, `skip`, `join`, `leftJoin` and `rightJoin` (`src/lib/query.ts:60-94`, `194-204`, `262-284`, `652-654`), are not modelled. Each is a one-line call of a modelled method (`table`, `offset`, `addJoinTable`).
- The `delete` field of the record is never read or written by the core, so it is not modelled.
- `sqlUpdateString` and `sqlConditionStrings` are declared with two parameters, but `query.ts` calls them with one. The model uses the intended binding, with no schema.
- The message texts of the assertions are not modelled. Each failure is one `Error` constructor, carrying the values its message names.
- Query.DirectionUnquotes: stated for quoted directions whose preceding text is not itself DESC in some letter case. In `'ASC'DESC'…` the DESC pass would pair the closing quote of ASC with a later quote, and those inputs are not characterised.
- Utils.Format: the positional case is left to the provider's `format` and nothing is claimed about it.
- Expr.Expression.Build: the closed form holds only for chains whose last fragment ends in a non-space, and, after an opening AND, whose body does not start with "OR ". Outside those, only the blank/non-blank split and the parentheses are stated.

## Findings

| source | as written | input that shows it | evidently intended | confidence | as-written member | corrected member |
|---|---|---|---|---|---|---|
| src/lib/query.ts:716-744 | `build()` rewrites `d.fields` in place for a SELECT with joins, qualifying every field and appending the join tables' fields | `table("t").select("x").join("u", ["y"])` built twice: first "SELECT t.x, u.y FROM t JOIN u", then "SELECT t.t.x, t.u.y, u.y FROM t JOIN u" (with an escaping that leaves names alone) | building is a read of the record: a second build gives the same statement | not executed | Query.RebuildRequalifiesFields | Query.QueryBuilder.BuildTwice |
