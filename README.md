# Schema-whitelisted SQL construction for PHP, modelled in Dafny

This project models the core of a small PHP database layer. The layer builds
INSERT, DELETE, UPDATE and SELECT statements for MySQL over PDO. Every table
is addressed by a numeric id whose first decimal digit names the database
that holds it. Field names are meant to be checked against the table's real
column list before they reach the SQL text; that list is read once from the
database catalog and then cached. Values in WHERE and SET clauses are bound as
placeholders. As written, the check has gaps. Some texts reach the SQL
unchecked: the field of a condition triple or field map, the value of a
string-keyed entry in a SELECT field list, and the field list of `selectLike`.
The property-style handles read the configuration through `getConfig()`,
which only the array configuration defines, so with a configuration loaded
from the environment they raise PHP's `Error`.

The model covers:

- the configuration objects (`ArrayDatabaseConfig`, `EnvDatabaseConfig`);
- the column cache (`TableColumnCache`);
- the connection and whitelist layer (`InjectablePdo`): the connection pool,
  `filterFields`, `normalizeCondition` and `validateOrder`;
- the statement builders (`InjectableSql`);
- the fluent query builder (`InjectableSqlQuery`);
- the property-style handles (`InjectableDb`, `InjectableDbGroup`, `InjectableDbTable`).

PHP's own semantics are modelled in `php.dfy`:

- ordered arrays with int and string keys, including the key cast of decimal strings;
- `isset`, `??`, `$a[] =` and `array_merge`;
- `trim`, `strtoupper` and `strtolower`, ASCII only;
- `explode` and `implode`;
- the `(int)` cast and `(string)` of an int;
- the identifier pattern `/^[a-zA-Z_][a-zA-Z0-9_-]*$/`, including the trailing newline PCRE's `$` accepts.

Exceptions are values: each operation returns `Result<T>`, either `Ok(v)` or
`Throw(fault)`, with faults `InvalidArgument`, `Runtime`, `TypeError` and
`CallError` (PHP's `Error`).

Each statement builder is a method of the class `InjectableSql`, and each is
proved equal to a pure "plan" function of the column list the cache held
when the call began:

- `InsertPlan`, `DeletePlan`, `UpdatePlan`, `SelectPlan`, `SelectOpenPlan` and `SelectLikePlan`;
- each plan yields the SQL text and bindings the builder issues, or the early return, or the exception.

The properties of the layer are proved about those plan functions:

- what is whitelisted;
- that placeholders are distinct;
- that a DELETE is never unconditional;
- what `select_open` can return.

The process-wide state is modelled as shared objects:

- the static connection pool, the class `ConnectionPool`;
- the static column cache, the class `TableColumnCache`, with a ghost log of the loads it made;
- the log of executed statements, the field `InjectableSql.executed`.

The connection layer has these parts:

- The database is a function from an executed statement to the rows it returns.
- The catalog is a function from a table id to its catalog rows.
- A connection is the data `new PDO` is given.

The code is followed where it differs from its own documentation:

- The password is read from the descriptor's `pw` entry, not `password`.
- The builder methods keep the defects they have as written. The lemmas named in the table below exhibit each one:
  - `select_open` calls `fetchAll` statically.
  - `count` asks for a field the whitelist drops.
  - `normalizeCondition` checks one name and returns another.
  - `select` checks the key of a string-keyed field entry, then splices its trimmed value into the column list.
  - `selectOne` swaps its arguments.
  - `selectLike` does not filter its field list.
  - The table handle's `get` passes its search array as the field list, so `get(['name' => $input])` puts `$input` into the column list.

## Model

| member | source | states |
|---|---|---|
| ArrayConfig.ValidateSections | src/Config/ArrayDatabaseConfig.php:38-47 | validation succeeds (with true) exactly when every required section is set and is an array; on failure some section is missing or not an array |
| ArrayConfig.NewArrayDatabaseConfig | src/Config/ArrayDatabaseConfig.php:8-12 | construction succeeds exactly when databases, tables and db_mapping are all arrays; the object then keeps the array as given; otherwise InvalidArgumentException |
| ArrayConfig.DatabaseConfig.GetDbInfo | src/Config/ArrayDatabaseConfig.php:14-20 | InvalidArgumentException exactly when `databases[$dbId]` is not set (missing or null); otherwise the stored descriptor array; a set but non-array entry is a TypeError at the `array` return type |
| ArrayConfig.DatabaseConfig.GetTableName | src/Config/ArrayDatabaseConfig.php:22-28 | InvalidArgumentException exactly when `tables[$tableId]` is not set; when it is set and coerces to a string, exactly that string; a TypeError at the `string` return type exactly when it does not coerce (an array) |
| ArrayConfig.DatabaseConfig.GetDbName | src/Config/ArrayDatabaseConfig.php:30-36 | InvalidArgumentException exactly when `db_mapping[$dbId]` is not set; when it is set and coerces to a string, exactly that string; a TypeError at the `string` return type exactly when it does not coerce (an array) |
| ArrayConfig.DatabaseConfig.GetConfig | src/Config/ArrayDatabaseConfig.php:52-55 | the stored array exactly when the object is an `ArrayDatabaseConfig`; for an `EnvDatabaseConfig`, which neither defines nor inherits the method, PHP's `Error` for an undefined method |
| ArrayConfig.UnconfiguredIdsThrow | src/Config/ArrayDatabaseConfig.php:14-36 | an id absent from its section makes each of the three getters throw |
| EnvConfig.AsConfig | src/Config/EnvDatabaseConfig.php:16-20 | the loaded configuration has exactly the three sections, in order, each an array; the env class's three getters are the array class's, so they read it the same way (`getConfig` is not among them) |
| EnvConfig.ParseEnvKey | src/Config/EnvDatabaseConfig.php:32-57 | a key of fewer than three `_` parts changes nothing; only a `db` key touches databases, only `table…_name` touches tables, only `mapping…_name` touches db_mapping; each stores the value under `(int)` of the second part, and every other id of each section, and every other field of the descriptor, keeps its entry |
| Php.SetChangesOnlyKey | src/Config/EnvDatabaseConfig.php:43-52 | `$a[$k] = $v` leaves the entry of every other key as it was |
| EnvConfig.LoadFromEnv | src/Config/EnvDatabaseConfig.php:14-30 | the loop's result is the fold of ParseEnvKey over the environment entries whose key starts with the prefix, in order |
| EnvConfig.NewEnvDatabaseConfig | src/Config/EnvDatabaseConfig.php:8-12 | RuntimeException exactly when no database descriptor was loaded; otherwise a valid configuration of the env class holding the loaded sections |
| EnvConfig.OnlyPrefixedKeysMatter | src/Config/EnvDatabaseConfig.php:23-27 | variables without the prefix do not affect the loaded configuration |
| EnvConfig.NoPrefixedKeysNoDatabases | src/Config/EnvDatabaseConfig.php:83-90 | with no prefixed variable every section stays empty, so construction fails |
| EnvConfig.TableKeyStoresName | src/Config/EnvDatabaseConfig.php:45-48 | `DB_TABLE_<id>_NAME=v` stores v as the name of table id |
| EnvConfig.DoubledPrefixKeyIgnored | src/Config/EnvDatabaseConfig.php:34 | `str_replace` removes every `DB_`, so `DB_DB_<id>_<field>` loses its type and is ignored rather than stored as a database field |
| ColumnCache.LoadColumns | database/src/Core/TableColumnCache.php:42-46 | every name comes from some catalog row's COLUMN_NAME; no more names than rows |
| ColumnCache.LoadColumnsKeepsRowOrder | database/src/Core/TableColumnCache.php:45 | when every row has COLUMN_NAME, the list is those names row for row |
| ColumnCache.TableColumnCache.Get | database/src/Core/TableColumnCache.php:19-25 | a hit returns the stored list and changes nothing; a miss loads from the catalog, stores the list and logs one load |
| ColumnCache.TableColumnCache.Clear | database/src/Core/TableColumnCache.php:30-37 | with no id the cache is emptied, with an id only that entry is removed |
| ColumnCache.GetTwice | database/src/Core/TableColumnCache.php:19-25 | two gets of one id with no clear between return the same list and load at most once, even if the catalog changed |
| ColumnCache.GetIsStable | database/src/Core/TableColumnCache.php:21-24 | once stored, an id's list is what later gets see, whatever the catalog says |
| ColumnCache.ClearOneReloads | database/src/Core/TableColumnCache.php:34-35 | clearing one id forces a reload of that id and leaves every other id's answer unchanged |
| ColumnCache.FetchedAtMostTwice | database/src/Core/TableColumnCache.php:19-25 | calls that each fetch an id at most once fetch it at most once together and see the same list |
| ColumnCache.FetchedThenFetched | database/src/Core/TableColumnCache.php:19-25 | a get after at most one earlier get of the same id loads nothing new |
| Pdo.DbidIsLeadingDigit | src/Core/InjectablePdo.php:21-24 | a non-negative table id maps to a database id 0..9; a negative id maps to 0 (the `-` sign casts to 0) |
| Pdo.DbidOfThreeDigitId | src/Core/InjectablePdo.php:21-24 | a three-digit table id maps to its hundreds digit |
| Pdo.Connect | src/Core/InjectablePdo.php:27-40 | a connection is opened exactly when both the descriptor and the logical name are configured; otherwise the first getter's exception; its password is the descriptor's `pw` entry |
| Pdo.ConnectionFor | src/Core/InjectablePdo.php:43-46 | the pooled connection of the id's leading digit when there is one, else a fresh connection for that database |
| Pdo.InjectablePdo.GetPdo | src/Core/InjectablePdo.php:27-40 | a pooled id returns the pooled connection unchanged; otherwise the connection is opened and pooled; a failure leaves the pool unchanged |
| Pdo.InjectablePdo.PdoByTableId | src/Core/InjectablePdo.php:43-46 | the result is ConnectionFor of the old pool; the pool changes only by storing the new connection |
| Pdo.InjectablePdo.TableNameFromId | src/Core/InjectablePdo.php:49-52 | the configuration's table name, or its exception |
| Pdo.InjectablePdo.GetTableColumns | src/Core/InjectablePdo.php:55-58 | the cached or freshly loaded column list, with one cache get |
| Pdo.InjectablePdo.FilterFields | src/Core/InjectablePdo.php:74-92 | the result is the filter over the cached column list, after one cache get |
| Pdo.FilteredSound | src/Core/InjectablePdo.php:78-84 | every entry the filter keeps names a whitelisted column that matches the identifier pattern |
| Pdo.FilteredThrowsIff | src/Core/InjectablePdo.php:86-87 | the filter throws exactly when an admitted string key carries an array value, which `trim` rejects with a TypeError |
| Pdo.FilteredEmptyIff | src/Core/InjectablePdo.php:74-92 | the output is empty exactly when no input entry is admitted |
| Pdo.FilteredKeepsOrder | src/Core/InjectablePdo.php:76-90 | on a PHP array (distinct keys) the survivors' names are the admitted names in input order |
| Pdo.FilteredRenumbers | src/Core/InjectablePdo.php:84-85 | int-keyed survivors are renumbered 0, 1, 2, … by `$out[]` |
| Pdo.FilteredTrims | src/Core/InjectablePdo.php:86-87 | each string-keyed survivor holds the trimmed text of its input value |
| Pdo.FilteredStrKeysFromInput | src/Core/InjectablePdo.php:86-87 | every string key kept comes from the input |
| Pdo.FilteredThrowPersists | src/Core/InjectablePdo.php:76-90 | once `trim` has thrown, later entries change nothing |
| Pdo.KeepThrowsIff | src/Core/InjectablePdo.php:78-88 | one entry throws exactly when it is admitted under a string key and holds an array |
| Pdo.CanonicalOperator | src/Core/InjectablePdo.php:112-113 | the operator is kept when allowed; otherwise it becomes `=` |
| Pdo.Normalize | src/Core/InjectablePdo.php:95-136 | null exactly when the candidate name fails the pattern or is not a column; throws only for a field map whose operator is an array; the operator is always allowed or `=`; a scalar yields `[key, '=', value]`; a triple yields its items 0 and 2 with the operator `strtoupper(trim(item 1))` if allowed, else `=`; a field map yields its `field` and `value` with `operator ?? '='` canonicalised the same way; any other array yields `[key, '=', the array]` |
| Pdo.FieldMapOperatorDefaults | src/Core/InjectablePdo.php:119-128 | a field map without a set `operator` normalises to its field and value with `=` |
| Pdo.FieldMapResult | src/Core/InjectablePdo.php:119-128 | a checked field map whose `operator` is a string yields its `field`, its `value` and `strtoupper(trim(operator))` if allowed, else `=` |
| Pdo.StatusMapNormalizes | src/Core/InjectablePdo.php:119-128 | the map `field => status, value => 1, operator => op` under the column `status` normalises to status, the canonical form of op, and 1 |
| Pdo.FieldMapOperatorIn | src/Core/InjectablePdo.php:120-123 | the map operator ` in ` is trimmed and upper-cased to the allowed `IN` |
| Pdo.FieldMapOperatorRefused | src/Core/InjectablePdo.php:120-123 | the map operator `DROP` is not allowed and becomes `=` |
| Pdo.InjectablePdo.NormalizeCondition | src/Core/InjectablePdo.php:95-136 | the result is Normalize over the cached column list; the cache is consulted only when the name passes the pattern |
| Pdo.NormalizedFieldIsChecked | src/Core/InjectablePdo.php:97-118 | for a string key with a scalar, or an int key with a triple, the returned field is the name that was checked |
| Pdo.NormalizeReturnsUncheckedField | src/Core/InjectablePdo.php:97-118 | the key `id` over columns `[id]` with the triple ``["x` OR 1=1 -- ", "=", 1]`` normalises to that text as the field, which is neither a column nor an identifier |
| Pdo.NormalizePlainListUnderKey | src/Core/InjectablePdo.php:129-134 | a string key `id` holding the list `[1, 2, 3]` (neither triple nor field map) yields `id = [1, 2, 3]` |
| Pdo.NormalizeListFallsBackToKey | src/Core/InjectablePdo.php:97-135 | an int key with a two-element list passes the check on `[0]` but yields the key itself as field with operator `=` |
| Pdo.OrderChoice | src/Core/InjectablePdo.php:139-167 | no order: the first column descending, or nothing when no column is known; a request that is two space-separated parts, ends in ASC or DESC in any case, and whose first part, stripped of backticks, is a column is used as written; any other request falls back to the first column (or `id` when none is known), descending; the column is always a known column or `id` |
| Pdo.OrderClause | src/Core/InjectablePdo.php:139-167 | empty exactly when OrderChoice is none; otherwise `ORDER BY` with the chosen column and direction |
| Pdo.InjectablePdo.ValidateOrder | src/Core/InjectablePdo.php:139-167 | the clause is OrderClause over the cached column list, after one cache get |
| Pdo.OrderChoiceHonoursValidRequest | src/Core/InjectablePdo.php:152-166 | for every field without spaces and not starting with a blank, whose backtick-stripped form is a column, and every direction ASC or DESC in any case, `field dir` orders by the stripped field with the direction as written |
| Pdo.OrderBacktickedExample | src/Core/InjectablePdo.php:159-166 | ``"`name` Asc"`` over columns id, name gives ``ORDER BY `name` Asc`` |
| Pdo.OrderDefaultExample | src/Core/InjectablePdo.php:143-150 | no order given: the first column, descending |
| Pdo.OrderHonouredExample | src/Core/InjectablePdo.php:166 | `name ASC` over columns id, name gives ``ORDER BY `name` ASC`` |
| Pdo.OrderMalformedExample | src/Core/InjectablePdo.php:152-157 | a request without a direction falls back to the first column, descending |
| Pdo.OrderUnknownColumnExample | src/Core/InjectablePdo.php:159-164 | `email ASC` over columns id, name names no column and falls back to ``ORDER BY `id` DESC``, the first column |
| Sql.CountedAreDistinct | src/Core/InjectableSql.php:45-48 | placeholders numbered by one running counter are pairwise distinct |
| Sql.BoundIsCounted | src/Core/InjectableSql.php:87-92 | the k-th binding of a counted loop is named with tag and counter start+k+1 |
| Sql.WhereClause | src/Core/InjectableSql.php:93 | the WHERE clause is empty exactly when there are no terms |
| Sql.InsertLinesUp | src/Core/InjectableSql.php:19-36 | an issued INSERT lists the kept keys, one `:key` placeholder per key, and binds each kept value under its key's placeholder; its text is ``INSERT INTO `table` (`k1`,`k2`,…) VALUES (:k1,:k2,…)`` |
| Sql.InsertNoOpIff | src/Core/InjectableSql.php:21-23 | insert issues nothing exactly when no field survives the whitelist |
| Sql.InjectableSql.Insert | src/Core/InjectableSql.php:19-36 | the outcome, executed log and pool are those of InsertPlan over the cached columns: nothing, one executed INSERT, or the exception; the column cache is fetched at most once |
| Sql.InjectableSql.BindEach | src/Core/InjectableSql.php:31 | the loop binds each kept value under `:` and its key |
| Sql.DeleteIsAlwaysConditional | src/Core/InjectableSql.php:39-55 | an issued DELETE has a WHERE and binds at least one admitted, whitelisted condition |
| Sql.InjectableSql.Delete | src/Core/InjectableSql.php:39-55 | the outcome, executed log and pool are those of DeletePlan over the cached columns |
| Sql.InjectableSql.NumberEntries | src/Core/InjectableSql.php:45-48 | the counter loop yields the comparison terms and bindings numbered from the start value |
| Sql.TagsDiffer | src/Core/InjectableSql.php:66-68 | a `:s…` placeholder never equals a `:w…` one |
| Sql.UpdateNamesDistinct | src/Core/InjectableSql.php:58-76 | an issued UPDATE has a non-empty SET and WHERE and its placeholder names are pairwise distinct |
| Sql.InjectableSql.Update | src/Core/InjectableSql.php:58-76 | the outcome, executed log and pool are those of UpdatePlan over the cached columns |
| Sql.SelectWhereOmittedIff | src/Core/InjectableSql.php:87-97 | select's WHERE clause is empty exactly when no where entry is admitted; with `['*']` and a known table a statement is always planned |
| Sql.SelectShowsOnlyColumns | src/Core/InjectableSql.php:83-85 | unless the fields are `['*']`, each int-keyed listed field is a whitelisted column; string-keyed entries are not covered (see SelectFieldValueInjects) |
| Sql.SelectFieldValueUnchecked | src/Core/InjectableSql.php:79-101 | a field list `[name => input]` whose key is a column is planned, and its SQL starts with ``SELECT `trim(input)` ``, whatever input is |
| Sql.SelectFieldValueInjects | src/Core/InjectableSql.php:83-85 | over columns `[name]`, the field entry ``name => "a`,`password"`` survives the whitelist and renders as the column list ``` `a`,`password` ```, naming `password`, which is not a column |
| Sql.InjectableSql.Select | src/Core/InjectableSql.php:79-101 | the outcome, executed log and pool are those of SelectPlan over the cached columns; the rows are the database's answer |
| Sql.InjectableSql.BuildSelect | src/Core/InjectableSql.php:81-97 | the statement text and bindings are SelectPlan over the cached columns, and a plan is always a statement |
| Sql.NormalizedAll | src/Core/InjectableSql.php:109-113 | no more conditions than where entries; none exactly when no where entry passes the name check |
| Sql.NormalizedAllThrowPersists | src/Core/InjectableSql.php:109-113 | once normalising has thrown, later entries change nothing |
| Sql.InjectableSql.NormalizeAll | src/Core/InjectableSql.php:109-113 | the loop keeps the non-null normalised conditions in where order |
| Sql.OpenClausesCounted | src/Core/InjectableSql.php:122-141 | every binding of select_open, list elements included, carries a counter from one running sequence, so no two share a name |
| Sql.InjectableSql.RenderConditions | src/Core/InjectableSql.php:122-141 | the loop's terms and bindings are OpenClauses of the conditions |
| Sql.InjectableSql.BindList | src/Core/InjectableSql.php:128-135 | the inner loop gives one `:w{i}_{index}` placeholder per list element |
| Sql.OpenClausesListThenScalar | src/Core/InjectableSql.php:122-141 | `status IN [a, b, c]` then `age > 18` render ``` `status` IN (:w1_0, :w2_1, :w3_2) ``` and ``` `age` > :w4 ```, binding a, b, c and 18 under those names |
| Sql.InjectableSql.BuildOpen | src/Core/InjectableSql.php:104-146 | the statement text and bindings, or the early return, are SelectOpenPlan over the cached columns |
| Sql.SelectOpenWhereIff | src/Core/InjectableSql.php:104-150 | a planned select_open returns nothing exactly when a non-empty where has no entry passing the name check; an issued statement is the SELECT over the normalised conditions, with a WHERE exactly when a where was given |
| Sql.InjectableSql.SelectOpen | src/Core/InjectableSql.php:104-150 | the outcome is OpenDone of SelectOpenPlan: an exception, the early `[]`, or an executed statement followed by the static fetchAll Error |
| Sql.SelectOpenNeverReturnsRows | src/Core/InjectableSql.php:115-149 | select_open returns rows only through its early exit, and those rows are empty; any executed statement ends in the Error |
| Sql.FirstRow | src/Core/InjectableSql.php:156 | `$rows[0] ?? null`: null exactly when there are no rows, else the first row |
| Sql.InjectableSql.SelectOne | src/Core/InjectableSql.php:153-157 | the outcome is select's with where as the field list, fields as the conditions, order "1" and limit 1000, reduced to its first row |
| Sql.SelectLikeBindsPatterns | src/Core/InjectableSql.php:168-172 | every LIKE binding is `%v%` of a kept value under pairwise-distinct `:lN` names |
| Sql.SelectLikeFieldsUnchecked | src/Core/InjectableSql.php:166 | a field list `[t]` reaches the SQL text as `` SELECT `t` `` without the whitelist |
| Sql.LikeSqlOpensWithColumns | src/Core/InjectableSql.php:174 | the selectLike text begins with `SELECT ` and the column list |
| Sql.InjectableSql.SelectLike | src/Core/InjectableSql.php:160-179 | the outcome, executed log and pool are those of SelectLikePlan over the cached columns |
| Query.InjectableSqlQuery.constructor | database/src/Core/InjectableSqlQuery.php:14-27 | a new builder holds `['*']`, no conditions and nothing else |
| Query.InjectableSqlQuery.Select | database/src/Core/InjectableSqlQuery.php:32-36 | replaces the field list only and returns the builder |
| Query.InjectableSqlQuery.Where | database/src/Core/InjectableSqlQuery.php:41-45 | merges the conditions with `array_merge` and changes nothing else |
| Query.InjectableSqlQuery.AndWhere | database/src/Core/InjectableSqlQuery.php:50-54 | stores the triple under the field's array key and changes nothing else |
| Query.InjectableSqlQuery.OrderBy | database/src/Core/InjectableSqlQuery.php:59-63 | records the order only |
| Query.InjectableSqlQuery.Limit | database/src/Core/InjectableSqlQuery.php:68-72 | records the limit only |
| Query.InjectableSqlQuery.Offset | database/src/Core/InjectableSqlQuery.php:77-81 | records the offset only |
| Query.InjectableSqlQuery.Join | database/src/Core/InjectableSqlQuery.php:86-94 | appends one join record with the type upper-cased |
| Php.ArrayMergeOverrides | database/src/Core/InjectableSqlQuery.php:43 | after `where`, a string-keyed condition given again is replaced by the new value; otherwise the old one stands |
| Php.ArrayMergeIntValues | database/src/Core/InjectableSqlQuery.php:43 | after `where`, int-keyed conditions of both calls are all kept, in order, renumbered |
| Query.AndWhereStores | database/src/Core/InjectableSqlQuery.php:52 | andWhere sets its field's key to the triple and leaves every other key's condition alone |
| Query.AndWhereTwiceReplaces | database/src/Core/InjectableSqlQuery.php:52 | a second andWhere on one field replaces the first in place |
| Query.TripleItems | database/src/Core/InjectableSqlQuery.php:52 | the stored triple reads back as field, operator, value |
| Query.AndWhereNormalizes | database/src/Core/InjectableSqlQuery.php:52 | an andWhere condition on a whitelisted identifier normalises to that field with the canonical operator and the value; otherwise it is dropped |
| Query.InjectableSqlQuery.Get | database/src/Core/InjectableSqlQuery.php:99-108 | select_open's outcome over the recorded fields, conditions, order and `limit ?? 1000` |
| Query.InjectableSqlQuery.First | database/src/Core/InjectableSqlQuery.php:113-118 | sets the limit to 1, then get's outcome reduced to the first row |
| Query.CountOf | database/src/Core/InjectableSqlQuery.php:126 | a failure passes through; no rows count zero |
| Query.CountReadsCountColumn | database/src/Core/InjectableSqlQuery.php:126 | a first row whose `count` is the text of n counts n |
| Php.ToIntOfIntToString | database/src/Core/InjectableSqlQuery.php:126 | `(int)` reads back the decimal text of any int |
| Query.CountWithoutColumnIsZero | database/src/Core/InjectableSqlQuery.php:126 | a missing or null `count` column counts zero |
| Query.CountFieldsAreDropped | database/src/Core/InjectableSqlQuery.php:125 | the whitelist drops `COUNT(*) as count`, leaving the empty column list ``` `` ``` |
| Query.CountIsZeroOrFails | database/src/Core/InjectableSqlQuery.php:123-127 | count is zero or fails; once a statement executes it fails with the fetchAll Error |
| Query.InjectableSqlQuery.Count | database/src/Core/InjectableSqlQuery.php:123-127 | select_open's outcome over `['COUNT(*) as count']` and the recorded conditions, read through `(int)` |
| Query.ExistsOf | database/src/Core/InjectableSqlQuery.php:134 | exists is true exactly when count is positive; a failure passes through |
| Query.InjectableSqlQuery.Exists | database/src/Core/InjectableSqlQuery.php:132-135 | count's outcome compared with zero; it never yields true |
| Db.ArraySearchFindsFirst | src/Core/InjectableDb.php:25 | `array_search` returns the key of the first loosely equal value, and nothing exactly when none matches |
| Db.IntArgument | src/Core/InjectableDb.php:43 | an int key passes unchanged; a string key passes exactly when it is an integer numeric string, as `(int)` of it; otherwise a TypeError |
| Db.IntArgumentOfIntText | src/Core/InjectableDb.php:43 | the decimal text of any int passes the `int` parameter as that int |
| Db.IntArgumentExamples | src/Core/InjectableDb.php:75 | `" 1 "` and `"01"` pass as 1, `"-07"` as -7; `"web"` and `"1.0"` are TypeErrors |
| Db.GroupId | src/Core/InjectableDb.php:24-30 | no group exactly when no db_mapping value loosely equals the name |
| Db.GroupIdIsFirstMatch | src/Core/InjectableDb.php:25-32 | a group found takes the id the first matching mapping entry's key converts to at the `int` parameter |
| Db.InjectableDb.Get | src/Core/InjectableDb.php:21-33 | with an env configuration, PHP's `Error` from `getConfig()` before any search; otherwise null when unmapped, else a new group for the id found; a string key that is not an integer numeric string is a TypeError at the `int` parameter |
| Db.LeadingDigitIsDbid | src/Core/InjectableDb.php:59 | the group's digit test is the connection layer's database id of the table |
| Db.FindTableFindsFirst | src/Core/InjectableDb.php:58-65 | the first table with the name and the group's leading digit, as the id its key converts to, and nothing exactly when none matches |
| Db.TableIdBelongsToGroup | src/Core/InjectableDb.php:53-66 | when every table key is an int, a table reached through a group is configured under that id and is served by that group's database |
| Db.EnvConfigReachesNothing | src/Core/InjectableDb.php:24-56 | over a configuration loaded from the environment whose mapping names database 1, the search alone would find group 1, yet `$db->name` and every `$group->table` raise the undefined-method `Error` |
| Db.NumericStringTableKey | src/Core/InjectableDb.php:58-60 | a table keyed by the string `"01"` is found by group 0 yet handled as id 1, which is not configured and belongs to database 1 |
| Db.SameNameInTwoGroups | src/Core/InjectableDb.php:58-61 | with tables `101 => users` and `201 => users`, group 1 reaches 101 and group 2 reaches 201 |
| Db.InjectableDbGroup.Get | src/Core/InjectableDb.php:53-66 | with an env configuration, PHP's `Error` from `getConfig()` before the loop; otherwise the loop returns a new handle for the first matching table id, or null; a matching key that is not an integer numeric string is a TypeError at the `int` parameter |
| Db.InjectableDbTable.Add | src/Core/InjectableDb.php:82-85 | insert's outcome for the handle's table |
| Db.InjectableDbTable.Delete | src/Core/InjectableDb.php:88-91 | delete's outcome with the search array as conditions |
| Db.InjectableDbTable.Update | src/Core/InjectableDb.php:94-97 | update's outcome with the search array as conditions |
| Db.InjectableDbTable.Get | src/Core/InjectableDb.php:100-103 | select's outcome with the search array as the field list and no conditions |
| Db.TableGetHasNoConditions | src/Core/InjectableDb.php:100-103 | the handle's get issues a SELECT with no WHERE and no bindings: the search array becomes the field list, never a condition |
| Db.TableGetSearchValueUnchecked | src/Core/InjectableDb.php:100-103 | `get([name => input])` with a column as key issues a SELECT whose text starts with ``SELECT `trim(input)` ``, whatever input is |

## Left out

- PDO itself is not modelled:
  - `prepare`, `execute` and `fetchAll` are an abstract function from the executed statement to its rows, plus the `executed` log;
  - `execute` is taken to succeed, and a write reports `true`;
  - connection errors and PDO exceptions are not modelled.
- `sql_getTableColumns` (src/Core/InjectablePdo.php:61-71) runs an `information_schema` query on the table's pooled connection. The catalog is an abstract function from a table id to its rows, and the query's errors are not modelled.
- Pdo.InjectablePdo.GetTableColumns: on a cache miss the source obtains the table's connection through `pdoByTableId` and reads `getDbName` and `getTableName` for the query's parameters (src/Core/InjectablePdo.php:64-68). So a first access pools that database's connection, and throws InvalidArgumentException when the database or the table is not configured. The model's miss touches neither the pool nor the configuration. On a table's first access, therefore, the builders' no-op returns (`Ok(false)`, `Ok([])`, the unchanged pool of `PoolDone`) may differ from the source, which may already have pooled a connection or thrown; `selectLike` consults the cache before its own `tableNameFromId` (src/Core/InjectableSql.php:162-164).
- `write_log` and the Logger are I/O and are left out. The context files Database.php, functions.php and the logging configuration are not part of this model.
- `$_ENV` is a parameter of `LoadFromEnv`: a sequence of key and value pairs in the environment's order.
- The static pool and the static cache are single shared objects passed to each `InjectablePdo`. Concurrency between PHP requests is not modelled.
- Db.LooseEquals: PHP 8's `==` is modelled for string against null, bool, int, string and array. An int matches only its canonical decimal text, and two strings match only when equal. The numeric-string rules are not modelled: `"01" == "1"`, leading or trailing blanks around a number, and floats.
- Php.ToInt: the `(int)` cast reads the leading integer numeral only. The float forms `"1e3"` and `"1.5"` are not modelled; the table ids and counts here never hold them.
- Php.Stringify: values passed where PHP expects a string are coerced as PHP does for null, bools, ints and strings. Floats and objects do not occur in the model.
- Db.InjectableDb.Get: the file does not declare strict types. PHP stores canonical decimal-string keys as ints; other integer numeric strings such as `"01"` or `" 1"` are coerced silently at the `int` parameter, as the model does. Float forms such as `"1.0"` or `"1e3"` and leading-numeric keys such as `"1x"`, which PHP would coerce (the latter with a warning), are not modelled: the model raises the TypeError for them.
- Db.InjectableDbGroup.Get: the same coercion of the matching table key to the `int` parameter of `InjectableDbTable`, with the same gaps for float and leading-numeric keys.
- Db.TableIdBelongsToGroup: promises the configured key and database only when every table key is an int; a key such as `"01"` passes the leading-digit test for group 0 but becomes table id 1 (Db.NumericStringTableKey).
- Sql.SelectShowsOnlyColumns: promises a whitelisted column only for int-keyed field entries. A string-keyed entry's value reaches the column list unchecked, as Sql.SelectFieldValueInjects shows.
- Sql.InjectableSql.SelectOne: `select` is called with its arguments in the wrong order, as written. The integer `1` lands in the `string $order` parameter and is coerced to `"1"`.
- Sql.InjectableSql.SelectOpen: `$stmt::fetchAll()` is a static call of an instance method. PHP 8 raises an Error after the statement has executed, and the model records that Error.
- Query.InjectableSqlQuery.Offset and Query.InjectableSqlQuery.Join: the values are recorded but never reach any SQL text, as in the code.
- Integer widths: table ids, counters and limits are unbounded integers. PHP's 64-bit overflow to float is not modelled.
