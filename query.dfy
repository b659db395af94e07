/**
 * `InjectableSqlQuery`: a fluent query builder over one table. Its setters
 * record fields, conditions, order, limit, offset and joins; `get`, `first`,
 * `count` and `exists` hand what was recorded to `select_open`. Offset and
 * joins are recorded but never passed on.
 */
module Query {
  import opened Php
  import opened ArrayConfig
  import opened ColumnCache
  import opened Pdo
  import opened Sql

  /** One `join()` record: `['table' => ..., 'on' => ..., 'type' => strtoupper(...)]`. */
  datatype JoinSpec = JoinSpec(table: string, on: string, kind: string)

  /** Everything the builder has recorded. */
  datatype Settings = Settings(fields: PArray, where: PArray, order: Option<string>, limit: Option<int>,
                               offset: Option<int>, joins: seq<JoinSpec>)

  /** The state of a new builder: `['*']`, no conditions, nothing else set. */
  const Fresh: Settings := Settings(StarFields, [], None, None, None, [])

  /** `['*']`. */
  const StarFields: PArray := [Entry(IntKey(0), VStr("*"))]

  /** `['COUNT(*) as count']`, the field list `count` asks for. */
  const CountFields: PArray := [Entry(IntKey(0), VStr("COUNT(*) as count"))]

  /** `[$field, $operator, $value]`, the condition `andWhere` stores. */
  function Triple(field: string, operator: string, value: Value): PArray {
    [Entry(IntKey(0), VStr(field)), Entry(IntKey(1), VStr(operator)), Entry(IntKey(2), value)]
  }

  /** `$this->limit ?? 1000`. */
  function LimitOr(limit: Option<int>): int {
    if limit.Some? then limit.value else DefaultLimit
  }

  /** `(int)($result[0]['count'] ?? 0)`, passing a failure through. */
  function CountOf(rows: Result<seq<PArray>>): (r: Result<int>)
    ensures r.Ok? <==> rows.Ok?
    ensures rows.Ok? && rows.value == [] ==> r == Ok(0)
  {
    match rows
    case Throw(f) => Throw(f)
    case Ok(rs) => Ok(if rs == [] then 0 else IntCast(LookupOr(rs[0], StrKey("count"), VInt(0))))
  }

  /** A first row whose `count` column holds the decimal text of `n` counts `n`. */
  lemma CountReadsCountColumn(rows: seq<PArray>, n: int)
    requires rows != [] && Lookup(rows[0], StrKey("count")) == Some(VStr(IntToString(n)))
    ensures CountOf(Ok(rows)) == Ok(n)
  {
    ToIntOfIntToString(n);
  }

  /** A missing or null `count` column counts zero. */
  lemma CountWithoutColumnIsZero(rows: seq<PArray>)
    requires rows != [] && !IsSet(rows[0], StrKey("count"))
    ensures CountOf(Ok(rows)) == Ok(0)
  {
  }

  /**
   * `count` passes its field list through the whitelist, which drops
   * `COUNT(*) as count` whatever the columns: it is not an identifier.
   */
  lemma CountFieldsAreDropped(cols: seq<string>)
    ensures Filtered(cols, CountFields) == Ok([])
    ensures FieldList([]) == "``"
  {
    var e := CountFields[0];
    var name := "COUNT(*) as count";
    assert !IsIdentifier(name) by {
      assert !IdentPart(name[5]);
      assert name[|name| - 1] != '\n';
    }
    assert FieldOf(e) == VStr(name);
    assert !Admitted(cols, e);
    assert CountFields[..0] == [];
    assert FieldList([]) == "`" + Join([], "`,`") + "`";
  }

  /** Whatever `select_open` does, `count` yields zero or fails: it never sees a row. */
  lemma CountIsZeroOrFails(plan: Result<Option<Query>>, conn: Result<Connection>, rows: Result<seq<PArray>>,
                           before: seq<Statement>, after: seq<Statement>)
    requires OpenDone(plan, conn, rows, before, after)
    ensures CountOf(rows).Ok? ==> CountOf(rows).value == 0
    ensures plan.Ok? && plan.value.Some? && conn.Ok? ==> CountOf(rows) == Throw(FetchAllStatic)
  {
    SelectOpenNeverReturnsRows(plan, conn, rows, before, after);
  }

  /** `exists` as `count() > 0`. */
  function ExistsOf(count: Result<int>): (r: Result<bool>)
    ensures r.Ok? <==> count.Ok?
    ensures r.Ok? ==> (r.value <==> count.value > 0)
  {
    match count
    case Throw(f) => Throw(f)
    case Ok(n) => Ok(n > 0)
  }

  /** `andWhere` stores the triple under the field's array key and leaves every other key alone. */
  lemma AndWhereStores(where: PArray, field: string, operator: string, value: Value, other: Key)
    requires other != ArrayKey(field)
    ensures var w := Set(where, ArrayKey(field), VArr(Triple(field, operator, value)));
            && Lookup(w, ArrayKey(field)) == Some(VArr(Triple(field, operator, value)))
            && Lookup(w, other) == Lookup(where, other)
  {
    LookupSetOther(where, ArrayKey(field), VArr(Triple(field, operator, value)), other);
  }

  /** A second `andWhere` on the same field replaces the first in place. */
  lemma AndWhereTwiceReplaces(where: PArray, field: string, op1: string, v1: Value, op2: string, v2: Value)
    ensures var k := ArrayKey(field);
            var w1 := Set(where, k, VArr(Triple(field, op1, v1)));
            var w2 := Set(w1, k, VArr(Triple(field, op2, v2)));
            Keys(w2) == Keys(w1) && Lookup(w2, k) == Some(VArr(Triple(field, op2, v2)))
  {
    var k := ArrayKey(field);
    var w1 := Set(where, k, VArr(Triple(field, op1, v1)));
    assert k in Keys(w1);
  }

  /** The three entries of a triple, read back by index. */
  lemma TripleItems(field: string, operator: string, value: Value)
    ensures var a := Triple(field, operator, value);
            && Item(a, IntKey(0)) == VStr(field) && Item(a, IntKey(1)) == VStr(operator)
            && Item(a, IntKey(2)) == value && |a| == 3
  {
    var a := Triple(field, operator, value);
    assert a[1..][0] == a[1] && a[1..][1..] == a[2..] && a[2..][0] == a[2];
    assert Lookup(a[2..], IntKey(2)) == Some(value);
    assert Lookup(a[1..], IntKey(1)) == Some(VStr(operator));
    assert Lookup(a[1..], IntKey(2)) == Some(value);
  }

  /**
   * A condition added by `andWhere` on a whitelisted column reaches
   * `select_open` as that column, the operator (upper-cased, trimmed, "=" when
   * not allowed) and the value; on any other name it is dropped.
   */
  lemma AndWhereNormalizes(cols: seq<string>, field: string, operator: string, value: Value, allowed: seq<string>)
    ensures var r := Normalize(cols, ArrayKey(field), VArr(Triple(field, operator, value)), allowed);
            && (IsIdentifier(field) && field in cols ==>
                  r == Ok(Some(Condition(VStr(field), CanonicalOperator(Upper(Trim(operator)), allowed), value))))
            && (!(IsIdentifier(field) && field in cols) ==> r == Ok(None))
  {
    TripleItems(field, operator, value);
    var v := VArr(Triple(field, operator, value));
    if IsIdentifier(field) {
      assert IdentStart(field[0]);
      assert !IsCanonicalInt(field);
      assert ArrayKey(field) == StrKey(field);
      assert IsTriple(v);
    } else if IsCanonicalInt(field) {
      assert Item(v.a, IntKey(0)) == VStr(field);
      assert IsSet(v.a, IntKey(0));
    }
  }

  class InjectableSqlQuery {
    const tableId: int
    const sql: InjectableSql
    var fields: PArray
    var where: PArray
    var order: Option<string>
    var limit: Option<int>
    var offset: Option<int>
    var joins: seq<JoinSpec>

    /** What the builder has recorded so far. */
    function Recorded(): Settings
      reads this
    {
      Settings(fields, where, order, limit, offset, joins)
    }

    constructor (tableId: int, sql: InjectableSql)
      ensures this.tableId == tableId && this.sql == sql
      ensures Recorded() == Fresh
    {
      this.tableId := tableId;
      this.sql := sql;
      fields := StarFields;
      where := [];
      order := None;
      limit := None;
      offset := None;
      joins := [];
    }

    /** `select`: replaces the field list. */
    method Select(fields: PArray) returns (r: InjectableSqlQuery)
      modifies this
      ensures r == this
      ensures Recorded() == old(Recorded()).(fields := fields)
    {
      this.fields := fields;
      r := this;
    }

    /** `where`: merges the conditions into those recorded, as `array_merge` does. */
    method Where(conditions: PArray) returns (r: InjectableSqlQuery)
      modifies this
      ensures r == this
      ensures Recorded() == old(Recorded()).(where := ArrayMerge(old(where), conditions))
    {
      where := ArrayMerge(where, conditions);
      r := this;
    }

    /** `andWhere`: stores `[$field, $operator, $value]` under the key `$field`. */
    method AndWhere(field: string, value: Value, operator: string) returns (r: InjectableSqlQuery)
      modifies this
      ensures r == this
      ensures Recorded() == old(Recorded()).(where := Set(old(where), ArrayKey(field), VArr(Triple(field, operator, value))))
    {
      where := Set(where, ArrayKey(field), VArr(Triple(field, operator, value)));
      r := this;
    }

    /** `orderBy`. */
    method OrderBy(order: string) returns (r: InjectableSqlQuery)
      modifies this
      ensures r == this
      ensures Recorded() == old(Recorded()).(order := Some(order))
    {
      this.order := Some(order);
      r := this;
    }

    /** `limit`. */
    method Limit(limit: int) returns (r: InjectableSqlQuery)
      modifies this
      ensures r == this
      ensures Recorded() == old(Recorded()).(limit := Some(limit))
    {
      this.limit := Some(limit);
      r := this;
    }

    /** `offset`: recorded, never used. */
    method Offset(offset: int) returns (r: InjectableSqlQuery)
      modifies this
      ensures r == this
      ensures Recorded() == old(Recorded()).(offset := Some(offset))
    {
      this.offset := Some(offset);
      r := this;
    }

    /** `join`: appends a record with the type upper-cased; recorded, never used. */
    method Join(table: string, on: string, kind: string) returns (r: InjectableSqlQuery)
      modifies this
      ensures r == this
      ensures Recorded() == old(Recorded()).(joins := old(joins) + [JoinSpec(table, on, Upper(kind))])
    {
      joins := joins + [JoinSpec(table, on, Upper(kind))];
      r := this;
    }

    /** `get`: `select_open` with the recorded fields, conditions, order and `limit ?? 1000`. */
    method Get() returns (r: Result<seq<PArray>>)
      requires sql.pdo.config.Valid()
      modifies sql, sql.pdo.connections, sql.pdo.columns
      ensures var plan := SelectOpenPlan(sql.pdo.config, sql.Columns(old(sql.pdo.columns.cache), tableId), tableId,
                                         fields, where, order, LimitOr(limit));
              var conn := ConnectionFor(old(sql.pdo.connections.pool), sql.pdo.config, tableId);
              && OpenDone(plan, conn, r, old(sql.executed), sql.executed)
              && PoolDone(plan, conn, old(sql.pdo.connections.pool), sql.pdo.connections.pool, tableId)
      ensures FetchedAtMost(old(sql.pdo.columns.cache), sql.pdo.columns.cache, old(sql.pdo.columns.loads),
                            sql.pdo.columns.loads, sql.pdo.catalog, tableId)
    {
      r := sql.SelectOpen(tableId, fields, where, order, if limit.Some? then limit.value else 1000);
    }

    /** `first`: sets the limit to 1, runs `get`, and returns the first row or null. */
    method First() returns (r: Result<Option<PArray>>)
      requires sql.pdo.config.Valid()
      modifies this, sql, sql.pdo.connections, sql.pdo.columns
      ensures Recorded() == old(Recorded()).(limit := Some(1))
      ensures var plan := SelectOpenPlan(sql.pdo.config, sql.Columns(old(sql.pdo.columns.cache), tableId), tableId,
                                         fields, where, order, 1);
              var conn := ConnectionFor(old(sql.pdo.connections.pool), sql.pdo.config, tableId);
              exists rows :: && OpenDone(plan, conn, rows, old(sql.executed), sql.executed)
                             && PoolDone(plan, conn, old(sql.pdo.connections.pool), sql.pdo.connections.pool, tableId)
                             && r == FirstRow(rows)
      ensures FetchedAtMost(old(sql.pdo.columns.cache), sql.pdo.columns.cache, old(sql.pdo.columns.loads),
                            sql.pdo.columns.loads, sql.pdo.catalog, tableId)
    {
      limit := Some(1);
      var rows := Get();
      r := FirstRow(rows);
    }

    /** `count`: `select_open` over `['COUNT(*) as count']` and the conditions, read through `(int)`. */
    method Count() returns (r: Result<int>)
      requires sql.pdo.config.Valid()
      modifies sql, sql.pdo.connections, sql.pdo.columns
      ensures var plan := SelectOpenPlan(sql.pdo.config, sql.Columns(old(sql.pdo.columns.cache), tableId), tableId,
                                         CountFields, where, None, DefaultLimit);
              var conn := ConnectionFor(old(sql.pdo.connections.pool), sql.pdo.config, tableId);
              exists rows :: && OpenDone(plan, conn, rows, old(sql.executed), sql.executed)
                             && PoolDone(plan, conn, old(sql.pdo.connections.pool), sql.pdo.connections.pool, tableId)
                             && r == CountOf(rows)
      ensures FetchedAtMost(old(sql.pdo.columns.cache), sql.pdo.columns.cache, old(sql.pdo.columns.loads),
                            sql.pdo.columns.loads, sql.pdo.catalog, tableId)
    {
      var rows := sql.SelectOpen(tableId, CountFields, where, None, DefaultLimit);
      r := CountOf(rows);
    }

    /** `exists`: whether `count` is positive. */
    method Exists() returns (r: Result<bool>)
      requires sql.pdo.config.Valid()
      modifies sql, sql.pdo.connections, sql.pdo.columns
      ensures var plan := SelectOpenPlan(sql.pdo.config, sql.Columns(old(sql.pdo.columns.cache), tableId), tableId,
                                         CountFields, where, None, DefaultLimit);
              var conn := ConnectionFor(old(sql.pdo.connections.pool), sql.pdo.config, tableId);
              exists rows :: && OpenDone(plan, conn, rows, old(sql.executed), sql.executed)
                             && PoolDone(plan, conn, old(sql.pdo.connections.pool), sql.pdo.connections.pool, tableId)
                             && r == ExistsOf(CountOf(rows))
      ensures r != Ok(true)
      ensures FetchedAtMost(old(sql.pdo.columns.cache), sql.pdo.columns.cache, old(sql.pdo.columns.loads),
                            sql.pdo.columns.loads, sql.pdo.catalog, tableId)
    {
      var count := Count();
      r := ExistsOf(count);
      ghost var rows :| OpenDone(SelectOpenPlan(sql.pdo.config, sql.Columns(old(sql.pdo.columns.cache), tableId),
                                                tableId, CountFields, where, None, DefaultLimit),
                                 ConnectionFor(old(sql.pdo.connections.pool), sql.pdo.config, tableId),
                                 rows, old(sql.executed), sql.executed)
                         && PoolDone(SelectOpenPlan(sql.pdo.config, sql.Columns(old(sql.pdo.columns.cache), tableId),
                                                    tableId, CountFields, where, None, DefaultLimit),
                                     ConnectionFor(old(sql.pdo.connections.pool), sql.pdo.config, tableId),
                                     old(sql.pdo.connections.pool), sql.pdo.connections.pool, tableId)
                         && count == CountOf(rows);
      CountIsZeroOrFails(SelectOpenPlan(sql.pdo.config, sql.Columns(old(sql.pdo.columns.cache), tableId),
                                        tableId, CountFields, where, None, DefaultLimit),
                         ConnectionFor(old(sql.pdo.connections.pool), sql.pdo.config, tableId),
                         rows, old(sql.executed), sql.executed);
    }
  }
}
