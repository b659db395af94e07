/**
 * `InjectableSql`: the statement builders. Each one resolves the table name,
 * runs its input through the whitelisting gates, and — unless filtering left
 * nothing — builds parameterised SQL text and a bindings list, numbering the
 * placeholders with one running counter. Preparing and executing a statement
 * is abstract: the class records each executed statement in `executed`, and
 * the rows a query returns come from the `database` function.
 *
 * Each builder is specified by a plan function of the table's column list
 * (`InsertPlan`, `DeletePlan`, ...); the methods are proved to follow them.
 */
module Sql {
  import opened Php
  import opened ArrayConfig
  import opened ColumnCache
  import opened Pdo

  /** The `$limit` default of `select` and `select_open`. */
  const DefaultLimit: int := 1000

  /** One entry of the bindings array: placeholder name and value. */
  datatype Binding = Binding(name: string, value: Value)

  /** SQL text and its bindings, before a connection is chosen. */
  datatype Query = Query(sql: string, bindings: seq<Binding>)

  /** What is prepared and executed, and on which connection. */
  datatype Statement = Statement(connection: Connection, sql: string, bindings: seq<Binding>)

  /** Calling the non-static `PDOStatement::fetchAll` statically, as `$stmt::fetchAll()` does. */
  const FetchAllStatic: Fault := CallError("Non-static method PDOStatement::fetchAll() cannot be called statically")

  // ---------------------------------------------------------------------------
  // Placeholders

  /** `":{tag}{n}"`. */
  function Placeholder(tag: string, n: nat): string {
    ":" + tag + NatToString(n)
  }

  /** The counter a placeholder `":{tag}{digits}..."` carries. */
  function Counter(name: string, tagLength: nat): nat
    requires |name| >= 1 + tagLength
  {
    DigitsValue(DigitPrefix(name[1 + tagLength..]))
  }

  /** The counter of `":{tag}{n}{rest}"` is `n` when `rest` does not start with a digit. */
  lemma CounterOfPlaceholder(tag: string, n: nat, rest: string)
    requires rest == [] || !IsDigit(rest[0])
    ensures |Placeholder(tag, n) + rest| >= 1 + |tag|
    ensures (Placeholder(tag, n) + rest)[..1 + |tag|] == ":" + tag
    ensures Counter(Placeholder(tag, n) + rest, |tag|) == n
  {
    var name := Placeholder(tag, n) + rest;
    assert name[1 + |tag|..] == NatToString(n) + rest;
    DigitPrefixOfNumeral(NatToString(n), rest);
    DigitsValueOfNatToString(n);
  }

  /** Every binding `k` is named `":{tag}..."` and carries the counter `start + k + 1`. */
  predicate Counted(bs: seq<Binding>, tag: string, start: nat) {
    forall k :: 0 <= k < |bs| ==>
      |bs[k].name| >= 1 + |tag| && bs[k].name[..1 + |tag|] == ":" + tag
      && Counter(bs[k].name, |tag|) == start + k + 1
  }

  /** No two bindings share a placeholder name. */
  predicate DistinctNames(bs: seq<Binding>) {
    forall i, j :: 0 <= i < j < |bs| ==> bs[i].name != bs[j].name
  }

  /** Counted bindings have distinct names. */
  lemma CountedAreDistinct(bs: seq<Binding>, tag: string, start: nat)
    requires Counted(bs, tag, start)
    ensures DistinctNames(bs)
  {
    forall i, j | 0 <= i < j < |bs| ensures bs[i].name != bs[j].name {
      assert Counter(bs[i].name, |tag|) != Counter(bs[j].name, |tag|);
    }
  }

  // ---------------------------------------------------------------------------
  // The pieces the builders assemble

  /** `"`k`{op}:{tag}N"` for each entry, N counting on from `start`. */
  function Comparisons(es: PArray, op: string, tag: string, start: nat): (parts: seq<string>)
    ensures |parts| == |es|
  {
    seq(|es|, i requires 0 <= i < |es| => "`" + KeyText(es[i].key) + "`" + op + Placeholder(tag, start + i + 1))
  }

  /** `"%$v%"`, the pattern `selectLike` binds. */
  function LikePattern(v: Value): Value {
    VStr("%" + Interpolate(v) + "%")
  }

  /** The bindings matching `Comparisons`: each value, or its LIKE pattern. */
  function Bound(es: PArray, tag: string, start: nat, like: bool): (bs: seq<Binding>)
    ensures |bs| == |es|
  {
    seq(|es|, i requires 0 <= i < |es| =>
      Binding(Placeholder(tag, start + i + 1), if like then LikePattern(es[i].val) else es[i].val))
  }

  /** The bindings of `Bound` carry the counters `start + 1`, `start + 2`, ... */
  lemma BoundIsCounted(es: PArray, tag: string, start: nat, like: bool)
    ensures Counted(Bound(es, tag, start, like), tag, start)
  {
    var bs := Bound(es, tag, start, like);
    forall k | 0 <= k < |bs|
      ensures |bs[k].name| >= 1 + |tag| && bs[k].name[..1 + |tag|] == ":" + tag
      ensures Counter(bs[k].name, |tag|) == start + k + 1
    {
      CounterOfPlaceholder(tag, start + k + 1, []);
      assert bs[k].name == Placeholder(tag, start + k + 1) + [];
    }
  }

  /** `$parts ? ' WHERE ' . implode(' AND ', $parts) : ''`. */
  function WhereClause(parts: seq<string>): (w: string)
    ensures w == "" <==> parts == []
  {
    if parts == [] then "" else " WHERE " + Join(parts, " AND ")
  }

  /** The array's values as text, as `implode` renders them. */
  function ValueTexts(a: PArray): (ts: seq<string>)
    ensures |ts| == |a|
  {
    seq(|a|, i requires 0 <= i < |a| => Interpolate(a[i].val))
  }

  /** `$fields === ['*'] ? '*' : ('`' . implode('`,`', $fields) . '`')`. */
  function FieldList(fields: PArray): string {
    if IsStar(fields) then "*" else "`" + Join(ValueTexts(fields), "`,`") + "`"
  }

  /** `"SELECT {$cols} FROM `{$table}` {$sqlWhere} {$orderClause} LIMIT {$limit}"`. */
  function SelectSql(cols: string, table: string, where: string, order: string, limit: int): string {
    "SELECT " + cols + " FROM `" + table + "` " + where + " " + order + " LIMIT " + IntToString(limit)
  }

  // ---------------------------------------------------------------------------
  // insert

  /** `array_keys($data)` as text. */
  function KeyTexts(a: PArray): (ts: seq<string>)
    ensures |ts| == |a|
  {
    seq(|a|, i requires 0 <= i < |a| => KeyText(a[i].key))
  }

  /** `array_map(fn($c) => ":$c", $cols)`. */
  function ColonNames(names: seq<string>): (ps: seq<string>)
    ensures |ps| == |names|
  {
    seq(|names|, i requires 0 <= i < |names| => ":" + names[i])
  }

  /** `$bind[":$k"] = $v` for each entry. */
  function InsertBindings(a: PArray): (bs: seq<Binding>)
    ensures |bs| == |a|
  {
    seq(|a|, i requires 0 <= i < |a| => Binding(":" + KeyText(a[i].key), a[i].val))
  }

  /** The statement `insert` issues for its filtered data. */
  function InsertQuery(table: string, data: PArray): Query {
    Query("INSERT INTO `" + table + "` (`" + Join(KeyTexts(data), "`,`") + "`) VALUES ("
          + Join(ColonNames(KeyTexts(data)), ",") + ")",
          InsertBindings(data))
  }

  /** `insert`: the table name, then the filter; nothing to issue when the filter leaves nothing. */
  function InsertPlan(config: DatabaseConfig, cols: seq<string>, tableId: int, data: PArray): Result<Option<Query>>
    requires config.Valid()
  {
    var table :- config.GetTableName(tableId);
    var kept :- Filtered(cols, data);
    if kept == [] then Ok(None) else Ok(Some(InsertQuery(table, kept)))
  }

  /**
   * The column list and the VALUES list have one entry per kept field; the
   * i-th placeholder is ":" and the i-th column, bound to the i-th kept value.
   */
  lemma InsertLinesUp(config: DatabaseConfig, cols: seq<string>, tableId: int, data: PArray)
    requires config.Valid()
    ensures var plan := InsertPlan(config, cols, tableId, data);
            plan.Ok? && plan.value.Some? ==>
              var kept := Filtered(cols, data).value;
              var names := KeyTexts(kept);
              && |ColonNames(names)| == |names| == |plan.value.value.bindings| == |kept| > 0
              && forall i :: 0 <= i < |kept| ==>
                   ColonNames(names)[i] == ":" + names[i]
                   && plan.value.value.bindings[i] == Binding(ColonNames(names)[i], kept[i].val)
    ensures var plan := InsertPlan(config, cols, tableId, data);
            plan.Ok? && plan.value.Some? ==>
              var names := KeyTexts(Filtered(cols, data).value);
              plan.value.value.sql == "INSERT INTO `" + config.GetTableName(tableId).value + "` (`" + Join(names, "`,`")
                                      + "`) VALUES (" + Join(NamesOf(plan.value.value.bindings), ",") + ")"
  {
    var plan := InsertPlan(config, cols, tableId, data);
    if plan.Ok? && plan.value.Some? {
      var kept := Filtered(cols, data).value;
      assert NamesOf(InsertBindings(kept)) == ColonNames(KeyTexts(kept));
    }
  }

  /** `insert` issues nothing exactly when the table is known and no field is admitted. */
  lemma InsertNoOpIff(config: DatabaseConfig, cols: seq<string>, tableId: int, data: PArray)
    requires config.Valid() && config.GetTableName(tableId).Ok? && Filtered(cols, data).Ok?
    ensures InsertPlan(config, cols, tableId, data) == Ok(None) <==>
              forall j :: 0 <= j < |data| ==> !Admitted(cols, data[j])
  {
    FilteredEmptyIff(cols, data);
  }

  // ---------------------------------------------------------------------------
  // delete and update

  /** `delete`: a WHERE of "`k`=:wN" terms, N = 1..n; nothing to issue when no condition survives. */
  function DeletePlan(config: DatabaseConfig, cols: seq<string>, tableId: int, where: PArray): Result<Option<Query>>
    requires config.Valid()
  {
    var table :- config.GetTableName(tableId);
    var kept :- Filtered(cols, where);
    if kept == [] then Ok(None)
    else Ok(Some(Query("DELETE FROM `" + table + "` WHERE " + Join(Comparisons(kept, "=", "w", 0), " AND "),
                       Bound(kept, "w", 0, false))))
  }

  /** A DELETE is never unconditional: whatever is issued binds at least one admitted condition. */
  lemma DeleteIsAlwaysConditional(config: DatabaseConfig, cols: seq<string>, tableId: int, where: PArray)
    requires config.Valid()
    ensures var plan := DeletePlan(config, cols, tableId, where);
            plan.Ok? && plan.value.Some? ==>
              && |plan.value.value.bindings| >= 1
              && DistinctNames(plan.value.value.bindings)
              && exists j :: 0 <= j < |where| && Admitted(cols, where[j])
  {
    var plan := DeletePlan(config, cols, tableId, where);
    if plan.Ok? && plan.value.Some? {
      var kept := Filtered(cols, where).value;
      FilteredEmptyIff(cols, where);
      BoundIsCounted(kept, "w", 0, false);
      CountedAreDistinct(Bound(kept, "w", 0, false), "w", 0);
    }
  }

  /** `update`: SET ":s1..:sn", then WHERE continuing the counter; nothing when either side is empty. */
  function UpdatePlan(config: DatabaseConfig, cols: seq<string>, tableId: int, data: PArray, where: PArray)
    : Result<Option<Query>>
    requires config.Valid()
  {
    var table :- config.GetTableName(tableId);
    var assigns :- Filtered(cols, data);
    var cond :- Filtered(cols, where);
    if assigns == [] || cond == [] then Ok(None)
    else Ok(Some(Query("UPDATE `" + table + "` SET " + Join(Comparisons(assigns, "=", "s", 0), ",")
                       + " WHERE " + Join(Comparisons(cond, "=", "w", |assigns|), " AND "),
                       Bound(assigns, "s", 0, false) + Bound(cond, "w", |assigns|, false))))
  }

  /** Placeholders `:s…` and `:w…` never collide: the tags differ in their first letter. */
  lemma TagsDiffer(a: string, b: string)
    requires |a| >= 2 && |b| >= 2 && a[..2] == ":s" && b[..2] == ":w"
    ensures a != b
  {
    assert a[1] == ":s"[1];
    assert b[1] == ":w"[1];
  }

  /**
   * An UPDATE either is not issued or binds both SET and WHERE values, all
   * under distinct names, the WHERE ones numbered after the SET ones.
   */
  lemma UpdateNamesDistinct(config: DatabaseConfig, cols: seq<string>, tableId: int, data: PArray, where: PArray)
    requires config.Valid()
    ensures var plan := UpdatePlan(config, cols, tableId, data, where);
            plan.Ok? && plan.value.Some? ==>
              var n := |Filtered(cols, data).value|;
              && n >= 1 && |plan.value.value.bindings| > n
              && Counted(plan.value.value.bindings[..n], "s", 0)
              && Counted(plan.value.value.bindings[n..], "w", n)
              && DistinctNames(plan.value.value.bindings)
  {
    var plan := UpdatePlan(config, cols, tableId, data, where);
    if plan.Ok? && plan.value.Some? {
      var assigns := Filtered(cols, data).value;
      var cond := Filtered(cols, where).value;
      var n := |assigns|;
      var sb := Bound(assigns, "s", 0, false);
      var wb := Bound(cond, "w", n, false);
      var bs := plan.value.value.bindings;
      assert bs == sb + wb;
      assert bs[..n] == sb && bs[n..] == wb;
      BoundIsCounted(assigns, "s", 0, false);
      BoundIsCounted(cond, "w", n, false);
      CountedAreDistinct(sb, "s", 0);
      CountedAreDistinct(wb, "w", n);
      forall i, j | 0 <= i < j < |bs| ensures bs[i].name != bs[j].name {
        if j < n {
          assert bs[i] == sb[i] && bs[j] == sb[j];
        } else if i >= n {
          assert bs[i] == wb[i - n] && bs[j] == wb[j - n];
        } else {
          assert bs[i] == sb[i] && bs[j] == wb[j - n];
          assert sb[i].name[..2] == ":s";
          assert wb[j - n].name[..2] == ":w";
          TagsDiffer(sb[i].name, wb[j - n].name);
        }
      }
    }
  }

  // ---------------------------------------------------------------------------
  // select

  /** `select`: the where is filtered into "`k` = :wN" terms; `['*']` is not filtered. */
  function SelectPlan(config: DatabaseConfig, cols: seq<string>, tableId: int, fields: PArray, where: PArray,
                      order: Option<string>, limit: int): Result<Option<Query>>
    requires config.Valid()
  {
    var table :- config.GetTableName(tableId);
    var cond :- Filtered(cols, where);
    var shown :- if IsStar(fields) then Ok(fields) else Filtered(cols, fields);
    Ok(Some(Query(SelectSql(FieldList(shown), table, WhereClause(Comparisons(cond, " = ", "w", 0)),
                            OrderClause(cols, order), limit),
                  Bound(cond, "w", 0, false))))
  }

  /** The statement `select` plans once the table, the where and the fields have passed. */
  lemma SelectIssued(config: DatabaseConfig, cols: seq<string>, tableId: int, fields: PArray, where: PArray,
                     order: Option<string>, limit: int, table: string, cond: PArray, shown: PArray)
    requires config.Valid() && config.GetTableName(tableId) == Ok(table)
    requires Filtered(cols, where) == Ok(cond)
    requires (if IsStar(fields) then Ok(fields) else Filtered(cols, fields)) == Ok(shown)
    ensures SelectPlan(config, cols, tableId, fields, where, order, limit)
            == Ok(Some(Query(SelectSql(FieldList(shown), table, WhereClause(Comparisons(cond, " = ", "w", 0)),
                                       OrderClause(cols, order), limit), Bound(cond, "w", 0, false))))
  {
  }

  /**
   * A SELECT is always planned once the table and the inputs pass; its WHERE
   * is empty exactly when no where entry is admitted, and `['*']` selects `*`.
   */
  lemma SelectWhereOmittedIff(config: DatabaseConfig, cols: seq<string>, tableId: int, fields: PArray,
                              where: PArray, order: Option<string>, limit: int)
    requires config.Valid() && Filtered(cols, where).Ok?
    ensures var cond := Filtered(cols, where).value;
            && (WhereClause(Comparisons(cond, " = ", "w", 0)) == "" <==>
                  forall j :: 0 <= j < |where| ==> !Admitted(cols, where[j]))
            && (IsStar(fields) && config.GetTableName(tableId).Ok? ==>
                  SelectPlan(config, cols, tableId, fields, where, order, limit).Ok?)
  {
    FilteredEmptyIff(cols, where);
  }

  /** The fields `select` shows are whitelisted columns: each text is a checked name. */
  lemma SelectShowsOnlyColumns(cols: seq<string>, fields: PArray)
    requires !IsStar(fields) && Filtered(cols, fields).Ok?
    ensures forall e :: e in Filtered(cols, fields).value && e.key.IntKey? ==>
              e.val.VStr? && IsIdentifier(e.val.s) && e.val.s in cols
  {
    FilteredSound(cols, fields);
  }

  /** The select text opens with its column list. */
  lemma SelectSqlOpensWithColumns(cols: string, table: string, where: string, order: string, limit: int)
    ensures var s := SelectSql(cols, table, where, order, limit);
            |s| >= 7 + |cols| && s[..7 + |cols|] == "SELECT " + cols
  {
    var head := "SELECT " + cols;
    HeadOfEight(head, " FROM `", table, "` ", where, " ", order, " LIMIT ", IntToString(limit));
  }

  /** A prefix of the left operand is a prefix of the concatenation. */
  lemma TakeOfConcat(x: string, y: string, n: nat)
    requires n <= |x|
    ensures (x + y)[..n] == x[..n]
  {
  }

  /** The first part of a chain of eight appends is its prefix. */
  lemma HeadOfEight(h: string, a: string, b: string, c: string, d: string, e: string, f: string, g: string, k: string)
    ensures |h + a + b + c + d + e + f + g + k| >= |h|
    ensures (h + a + b + c + d + e + f + g + k)[..|h|] == h
  {
    HeadOfSix(h, a, b, c, d, e, f);
    TakeOfConcat(h + a + b + c + d + e + f, g, |h|);
    TakeOfConcat(h + a + b + c + d + e + f + g, k, |h|);
  }

  /** The first part of a chain of six appends is its prefix. */
  lemma HeadOfSix(h: string, a: string, b: string, c: string, d: string, e: string, f: string)
    ensures |h + a + b + c + d + e + f| >= |h|
    ensures (h + a + b + c + d + e + f)[..|h|] == h
  {
    TakeOfConcat(h, a, |h|);
    TakeOfConcat(h + a, b, |h|);
    TakeOfConcat(h + a + b, c, |h|);
    TakeOfConcat(h + a + b + c, d, |h|);
    TakeOfConcat(h + a + b + c + d, e, |h|);
    TakeOfConcat(h + a + b + c + d + e, f, |h|);
  }

  /** A single admitted string-keyed entry survives the filter as its trimmed value. */
  lemma FilteredOneNamed(cols: seq<string>, name: string, input: string)
    requires IsIdentifier(name) && name in cols
    ensures Filtered(cols, [Entry(StrKey(name), VStr(input))]) == Ok([Entry(StrKey(name), VStr(Trim(input)))])
  {
    var fields := [Entry(StrKey(name), VStr(input))];
    assert fields[..0] == [];
    assert Admitted(cols, fields[0]);
  }

  /** The column list of a single string-keyed entry is its value in backticks. */
  lemma FieldListOne(name: string, v: string)
    ensures FieldList([Entry(StrKey(name), VStr(v))]) == "`" + v + "`"
  {
    assert ValueTexts([Entry(StrKey(name), VStr(v))]) == [v];
  }

  /**
   * A string-keyed field entry is admitted by its KEY, but `select` shows its
   * trimmed VALUE: `['name' => $input]` puts `$input` into the column list
   * unchecked.
   */
  lemma SelectFieldValueUnchecked(config: DatabaseConfig, cols: seq<string>, tableId: int, fields: PArray,
                                  where: PArray, order: Option<string>, limit: int, name: string, input: string)
    requires config.Valid() && config.GetTableName(tableId).Ok? && Filtered(cols, where).Ok?
    requires IsIdentifier(name) && name in cols
    requires fields == [Entry(StrKey(name), VStr(input))]
    ensures var plan := SelectPlan(config, cols, tableId, fields, where, order, limit);
            && plan.Ok? && plan.value.Some?
            && var text := "`" + Trim(input) + "`";
               |plan.value.value.sql| >= 7 + |text| && plan.value.value.sql[..7 + |text|] == "SELECT " + text
  {
    var shown := [Entry(StrKey(name), VStr(Trim(input)))];
    var text := "`" + Trim(input) + "`";
    assert Filtered(cols, fields) == Ok(shown) by {
      FilteredOneNamed(cols, name, input);
    }
    assert FieldList(shown) == text by {
      FieldListOne(name, Trim(input));
    }
    var table := config.GetTableName(tableId).value;
    var cond := Filtered(cols, where).value;
    var whereText := WhereClause(Comparisons(cond, " = ", "w", 0));
    var orderText := OrderClause(cols, order);
    var sql := SelectSql(text, table, whereText, orderText, limit);
    assert SelectPlan(config, cols, tableId, fields, where, order, limit)
        == Ok(Some(Query(sql, Bound(cond, "w", 0, false))));
    assert |sql| >= 7 + |text| && sql[..7 + |text|] == "SELECT " + text by {
      SelectSqlOpensWithColumns(text, table, whereText, orderText, limit);
    }
  }

  /**
   * `['name' => 'a`,`password']` against the columns `['name']` is kept, and
   * its column list names `password` as well; SelectFieldValueUnchecked puts
   * that list after `SELECT`.
   */
  lemma SelectFieldValueInjects(cols: seq<string>, fields: PArray, input: string)
    requires cols == ["name"] && input == "a`,`password"
    requires fields == [Entry(StrKey("name"), VStr(input))]
    ensures Filtered(cols, fields) == Ok([Entry(StrKey("name"), VStr(input))])
    ensures FieldList(Filtered(cols, fields).value) == "`a`,`password`"
    ensures "password" !in cols
  {
    var kept := [Entry(StrKey("name"), VStr(input))];
    assert Filtered(cols, fields) == Ok(kept) by {
      NameIsIdentifier("name");
      InjectedTrimmed(input);
      FilteredOneNamed(cols, "name", input);
    }
    assert FieldList(kept) == "`a`,`password`" by {
      FieldListOne("name", input);
      InjectedInBackticks(input);
    }
  }

  lemma NameIsIdentifier(name: string)
    requires name == "name"
    ensures IsIdentifier(name)
  {
    assert IdentBody(name);
  }

  lemma InjectedTrimmed(input: string)
    requires input == "a`,`password"
    ensures Trim(input) == input
  {
    assert input[0] == 'a' && input[|input| - 1] == 'd';
    TrimCharsUnchanged(input, Whitespace);
  }

  lemma InjectedInBackticks(input: string)
    requires input == "a`,`password"
    ensures "`" + input + "`" == "`a`,`password`"
  {
  }

  // ---------------------------------------------------------------------------
  // select_open

  /** The conditions `normalizeCondition` keeps, in where order. */
  function NormalizedAll(cols: seq<string>, where: PArray): (r: Result<seq<Condition>>)
    ensures r.Ok? ==> |r.value| <= |where|
    ensures r.Ok? ==> (r.value == [] <==> forall j :: 0 <= j < |where| ==> !FieldChecked(cols, where[j].key, where[j].val))
    decreases |where|
  {
    if where == [] then Ok([])
    else
      var init := where[..|where| - 1];
      var conds :- NormalizedAll(cols, init);
      var e := where[|where| - 1];
      var c :- Normalize(cols, e.key, e.val, DefaultAllowedOperators);
      assert forall j :: 0 <= j < |init| ==> init[j] == where[j];
      if c.Some? then Ok(conds + [c.value]) else Ok(conds)
  }

  /** `IN`/`NOT IN` with an array value: one placeholder per element. */
  predicate IsList(c: Condition) {
    (c.operator == "IN" || c.operator == "NOT IN") && c.value.VArr?
  }

  /** `":w{$i}_{$index}"`. */
  function ListName(n: nat, index: Key): string {
    Placeholder("w", n) + "_" + KeyText(index)
  }

  /** The bindings one condition adds when `count` placeholders came before it. */
  function ConditionBindings(c: Condition, count: nat): (bs: seq<Binding>)
    ensures |bs| == if IsList(c) then |c.value.a| else 1
  {
    if IsList(c) then
      seq(|c.value.a|, j requires 0 <= j < |c.value.a| =>
        Binding(ListName(count + j + 1, c.value.a[j].key), c.value.a[j].val))
    else [Binding(Placeholder("w", count + 1), c.value)]
  }

  /** The placeholder names of some bindings. */
  function NamesOf(bs: seq<Binding>): (ns: seq<string>)
    ensures |ns| == |bs|
  {
    seq(|bs|, i requires 0 <= i < |bs| => bs[i].name)
  }

  /** The WHERE term of one condition. */
  function ConditionPart(c: Condition, count: nat): string {
    if IsList(c) then
      "`" + Interpolate(c.field) + "` " + c.operator + " (" + Join(NamesOf(ConditionBindings(c, count)), ", ") + ")"
    else "`" + Interpolate(c.field) + "` " + c.operator + " " + Placeholder("w", count + 1)
  }

  /** The WHERE terms and bindings for the normalised conditions, with one running counter. */
  function OpenClauses(conds: seq<Condition>): (r: (seq<string>, seq<Binding>))
    ensures |r.0| == |conds|
    decreases |conds|
  {
    if conds == [] then ([], [])
    else
      var prev := OpenClauses(conds[..|conds| - 1]);
      var c := conds[|conds| - 1];
      (prev.0 + [ConditionPart(c, |prev.1|)], prev.1 + ConditionBindings(c, |prev.1|))
  }

  /** Counted runs that continue each other's numbering are counted together. */
  lemma CountedAppend(a: seq<Binding>, b: seq<Binding>, tag: string, start: nat)
    requires Counted(a, tag, start) && Counted(b, tag, start + |a|)
    ensures Counted(a + b, tag, start)
  {
    var ab := a + b;
    forall k | 0 <= k < |ab|
      ensures |ab[k].name| >= 1 + |tag| && ab[k].name[..1 + |tag|] == ":" + tag
      ensures Counter(ab[k].name, |tag|) == start + k + 1
    {
      if k < |a| {
        assert ab[k] == a[k];
      } else {
        assert ab[k] == b[k - |a|];
      }
    }
  }

  /** One condition's bindings continue the counter from `count`. */
  lemma ConditionBindingsCounted(c: Condition, count: nat)
    ensures Counted(ConditionBindings(c, count), "w", count)
  {
    var bs := ConditionBindings(c, count);
    forall j | 0 <= j < |bs|
      ensures |bs[j].name| >= 1 + 1 && bs[j].name[..1 + 1] == ":" + "w"
      ensures Counter(bs[j].name, 1) == count + j + 1
    {
      var rest := if IsList(c) then "_" + KeyText(c.value.a[j].key) else [];
      assert bs[j].name == Placeholder("w", count + j + 1) + rest;
      CounterOfPlaceholder("w", count + j + 1, rest);
    }
  }

  /** The running counter numbers every binding of `select_open`, so no two share a name. */
  lemma {:induction false} OpenClausesCounted(conds: seq<Condition>)
    ensures Counted(OpenClauses(conds).1, "w", 0)
    ensures DistinctNames(OpenClauses(conds).1)
    decreases |conds|
  {
    var bs := OpenClauses(conds).1;
    if conds != [] {
      var init := conds[..|conds| - 1];
      var c := conds[|conds| - 1];
      OpenClausesCounted(init);
      var prev := OpenClauses(init).1;
      ConditionBindingsCounted(c, |prev|);
      CountedAppend(prev, ConditionBindings(c, |prev|), "w", 0);
    }
    CountedAreDistinct(bs, "w", 0);
  }

  /** `select_open`: nothing to issue when a non-empty where normalises to nothing. */
  function SelectOpenPlan(config: DatabaseConfig, cols: seq<string>, tableId: int, fields: PArray, where: PArray,
                          order: Option<string>, limit: int): Result<Option<Query>>
    requires config.Valid()
  {
    var table :- config.GetTableName(tableId);
    var shown :- if IsStar(fields) then Ok(fields) else Filtered(cols, fields);
    var conds :- NormalizedAll(cols, where);
    if where != [] && conds == [] then Ok(None)
    else
      var clauses := OpenClauses(conds);
      Ok(Some(Query(SelectSql(FieldList(shown), table, WhereClause(clauses.0), OrderClause(cols, order), limit),
                    clauses.1)))
  }

  /** The statement `select_open` issues once every step has passed. */
  lemma SelectOpenIssued(config: DatabaseConfig, cols: seq<string>, tableId: int, fields: PArray, where: PArray,
                         order: Option<string>, limit: int, table: string, shown: PArray, conds: seq<Condition>)
    requires config.Valid() && config.GetTableName(tableId) == Ok(table)
    requires (if IsStar(fields) then Ok(fields) else Filtered(cols, fields)) == Ok(shown)
    requires NormalizedAll(cols, where) == Ok(conds) && !(where != [] && conds == [])
    ensures SelectOpenPlan(config, cols, tableId, fields, where, order, limit)
            == Ok(Some(Query(SelectSql(FieldList(shown), table, WhereClause(OpenClauses(conds).0),
                                       OrderClause(cols, order), limit), OpenClauses(conds).1)))
  {
  }

  /**
   * `select_open` returns nothing exactly when a non-empty where admits no
   * condition; an issued statement has a WHERE exactly when a where was given.
   */
  lemma SelectOpenWhereIff(config: DatabaseConfig, cols: seq<string>, tableId: int, fields: PArray, where: PArray,
                           order: Option<string>, limit: int)
    requires config.Valid()
    ensures var plan := SelectOpenPlan(config, cols, tableId, fields, where, order, limit);
            plan.Ok? ==>
              && NormalizedAll(cols, where).Ok?
              && (plan.value.None? <==>
                    where != [] && forall j :: 0 <= j < |where| ==> !FieldChecked(cols, where[j].key, where[j].val))
              && (plan.value.Some? ==>
                    var clauses := OpenClauses(NormalizedAll(cols, where).value).0;
                    && plan.value.value.sql
                         == SelectSql(FieldList(if IsStar(fields) then fields else Filtered(cols, fields).value),
                                      config.GetTableName(tableId).value, WhereClause(clauses),
                                      OrderClause(cols, order), limit)
                    && (WhereClause(clauses) == "" <==> where == []))
  {
  }

  /** A one-digit counter and a one-digit index make a four-character list name. */
  lemma ListNameOneDigit(n: nat, i: nat)
    requires 1 <= n <= 9 && i <= 9
    ensures ListName(n, IntKey(i)) == [':', 'w', DigitChar(n), '_', DigitChar(i)]
  {
    assert NatToString(n) == [DigitChar(n)];
    assert KeyText(IntKey(i)) == [DigitChar(i)];
  }

  lemma JoinThree(x: string, y: string, z: string, sep: string)
    ensures Join([x, y, z], sep) == x + sep + y + sep + z
  {
    assert [x, y, z][1..] == [y, z];
    assert [y, z][1..] == [z];
    assert Join([z], sep) == z;
    assert Join([y, z], sep) == y + sep + z;
    assert x + sep + (y + sep + z) == x + sep + y + sep + z;
  }

  /** The three elements of `['a', 'b', 'c']`, under `:w1_0`, `:w2_1` and `:w3_2`. */
  lemma ThreeElementBindings(c: Condition, abc: PArray)
    requires abc == [Entry(IntKey(0), VStr("a")), Entry(IntKey(1), VStr("b")), Entry(IntKey(2), VStr("c"))]
    requires c == Condition(VStr("status"), "IN", VArr(abc))
    ensures ConditionBindings(c, 0) == [Binding(":w1_0", VStr("a")), Binding(":w2_1", VStr("b")), Binding(":w3_2", VStr("c"))]
  {
    assert IsList(c);
    ListNameOneDigit(1, 0);
    ListNameOneDigit(2, 1);
    ListNameOneDigit(3, 2);
  }

  /** The IN term lists the three placeholders in element order. */
  lemma ThreeElementPart(c: Condition, abc: PArray)
    requires abc == [Entry(IntKey(0), VStr("a")), Entry(IntKey(1), VStr("b")), Entry(IntKey(2), VStr("c"))]
    requires c == Condition(VStr("status"), "IN", VArr(abc))
    ensures ConditionPart(c, 0) == "`status` IN (:w1_0, :w2_1, :w3_2)"
  {
    var joined := Join(NamesOf(ConditionBindings(c, 0)), ", ");
    assert joined == ":w1_0, :w2_1, :w3_2" by {
      ThreeElementJoined(c, abc);
    }
    assert ConditionPart(c, 0) == "`" + Interpolate(c.field) + "` " + c.operator + " (" + joined + ")" by {
      assert IsList(c);
    }
    assert Interpolate(c.field) == "status";
    InTermText(ConditionPart(c, 0), Interpolate(c.field), c.operator, joined);
  }

  /** The three placeholders joined as the IN list shows them. */
  lemma ThreeElementJoined(c: Condition, abc: PArray)
    requires abc == [Entry(IntKey(0), VStr("a")), Entry(IntKey(1), VStr("b")), Entry(IntKey(2), VStr("c"))]
    requires c == Condition(VStr("status"), "IN", VArr(abc))
    ensures Join(NamesOf(ConditionBindings(c, 0)), ", ") == ":w1_0, :w2_1, :w3_2"
  {
    var names := NamesOf(ConditionBindings(c, 0));
    assert names == [":w1_0", ":w2_1", ":w3_2"] by {
      ThreeElementBindings(c, abc);
    }
    JoinThree(names[0], names[1], names[2], ", ");
    ThreeNamesText(names[0], names[1], names[2], ", ");
  }

  lemma ThreeNamesText(x: string, y: string, z: string, sep: string)
    requires x == ":w1_0" && y == ":w2_1" && z == ":w3_2" && sep == ", "
    ensures x + sep + y + sep + z == ":w1_0, :w2_1, :w3_2"
  {
  }

  lemma InTermText(part: string, field: string, op: string, joined: string)
    requires field == "status" && op == "IN" && joined == ":w1_0, :w2_1, :w3_2"
    requires part == "`" + field + "` " + op + " (" + joined + ")"
    ensures part == "`status` IN (:w1_0, :w2_1, :w3_2)"
  {
  }

  /** A scalar condition after three placeholders takes `:w4`. */
  lemma FourthScalar(c: Condition)
    requires c == Condition(VStr("age"), ">", VInt(18))
    ensures ConditionPart(c, 3) == "`age` > :w4"
    ensures ConditionBindings(c, 3) == [Binding(":w4", VInt(18))]
  {
    assert !IsList(c);
    assert NatToString(4) == "4";
    assert Placeholder("w", 4) == ":w4";
  }

  /**
   * `['status' => ['status', 'IN', ['a', 'b', 'c']], 'age' => ['age', '>', 18]]`:
   * the list binds one placeholder per element, in order, and the counter
   * runs on through the list into the next condition, which takes `:w4`.
   */
  lemma OpenClausesListThenScalar(conds: seq<Condition>, abc: PArray)
    requires abc == [Entry(IntKey(0), VStr("a")), Entry(IntKey(1), VStr("b")), Entry(IntKey(2), VStr("c"))]
    requires conds == [Condition(VStr("status"), "IN", VArr(abc)), Condition(VStr("age"), ">", VInt(18))]
    ensures OpenClauses(conds).0 == ["`status` IN (:w1_0, :w2_1, :w3_2)", "`age` > :w4"]
    ensures OpenClauses(conds).1 == [Binding(":w1_0", VStr("a")), Binding(":w2_1", VStr("b")),
                                     Binding(":w3_2", VStr("c")), Binding(":w4", VInt(18))]
  {
    var list := conds[0];
    var first := OpenClauses([list]);
    assert first == (["`status` IN (:w1_0, :w2_1, :w3_2)"],
                     [Binding(":w1_0", VStr("a")), Binding(":w2_1", VStr("b")), Binding(":w3_2", VStr("c"))]) by {
      assert [list][..0] == [];
      assert OpenClauses([list]) == ([] + [ConditionPart(list, 0)], [] + ConditionBindings(list, 0));
      ThreeElementPart(list, abc);
      ThreeElementBindings(list, abc);
      assert [] + [ConditionPart(list, 0)] == [ConditionPart(list, 0)];
      assert [] + ConditionBindings(list, 0) == ConditionBindings(list, 0);
    }
    assert conds[..1] == [list];
    FourthScalar(conds[1]);
  }

  // ---------------------------------------------------------------------------
  // selectLike

  /** `"SELECT {$cols} FROM `{$table}`{$sqlWhere} ORDER BY `id` ASC LIMIT {$limit}"`. */
  function LikeSql(cols: string, table: string, where: string, limit: int): string {
    "SELECT " + cols + " FROM `" + table + "`" + where + " ORDER BY `id` ASC LIMIT " + IntToString(limit)
  }

  /** The selectLike text opens with its column list. */
  lemma LikeSqlOpensWithColumns(cols: string, table: string, where: string, limit: int)
    ensures var s := LikeSql(cols, table, where, limit);
            |s| >= 7 + |cols| && s[..7 + |cols|] == "SELECT " + cols
  {
    var head := "SELECT " + cols;
    HeadOfSix(head, " FROM `", table, "`", where, " ORDER BY `id` ASC LIMIT ", IntToString(limit));
  }

  /** `selectLike`: filter first, then the table; `:lN` bound to "%v%"; fields are not filtered. */
  function SelectLikePlan(config: DatabaseConfig, cols: seq<string>, tableId: int, like: PArray, fields: PArray,
                          limit: int): Result<Option<Query>>
    requires config.Valid()
  {
    var kept :- Filtered(cols, like);
    if kept == [] then Ok(None)
    else
      var table :- config.GetTableName(tableId);
      Ok(Some(Query(LikeSql(FieldList(fields), table, WhereClause(Comparisons(kept, " LIKE ", "l", 0)), limit),
                    Bound(kept, "l", 0, true))))
  }

  /** Every issued LIKE binds `"%v%"` of a kept value, under distinct `:lN` names. */
  lemma SelectLikeBindsPatterns(config: DatabaseConfig, cols: seq<string>, tableId: int, like: PArray,
                                fields: PArray, limit: int)
    requires config.Valid()
    ensures var plan := SelectLikePlan(config, cols, tableId, like, fields, limit);
            plan.Ok? && plan.value.Some? ==>
              var kept := Filtered(cols, like).value;
              && |plan.value.value.bindings| == |kept| >= 1
              && DistinctNames(plan.value.value.bindings)
              && forall i :: 0 <= i < |kept| ==>
                   plan.value.value.bindings[i].value == VStr("%" + Interpolate(kept[i].val) + "%")
  {
    var plan := SelectLikePlan(config, cols, tableId, like, fields, limit);
    if plan.Ok? && plan.value.Some? {
      var kept := Filtered(cols, like).value;
      BoundIsCounted(kept, "l", 0, true);
      CountedAreDistinct(Bound(kept, "l", 0, true), "l", 0);
    }
  }

  /** `selectLike` puts its field list into the SQL text as given, without the whitelist. */
  lemma SelectLikeFieldsUnchecked(config: DatabaseConfig, cols: seq<string>, tableId: int, like: PArray,
                                  fields: PArray, limit: int, injected: string)
    requires config.Valid()
    requires fields == [Entry(IntKey(0), VStr(injected))] && injected != "*"
    requires SelectLikePlan(config, cols, tableId, like, fields, limit).Ok?
    requires SelectLikePlan(config, cols, tableId, like, fields, limit).value.Some?
    ensures var q := SelectLikePlan(config, cols, tableId, like, fields, limit).value.value;
            |q.sql| >= 9 + |injected| && q.sql[..9 + |injected|] == "SELECT `" + injected + "`"
  {
    var q := SelectLikePlan(config, cols, tableId, like, fields, limit).value.value;
    var kept := Filtered(cols, like).value;
    var table := config.GetTableName(tableId).value;
    var where := WhereClause(Comparisons(kept, " LIKE ", "l", 0));
    var fieldText := "`" + injected + "`";
    assert FieldList(fields) == fieldText by {
      assert !IsStar(fields) by {
        assert fields[0].val != VStr("*");
      }
      var texts := ValueTexts(fields);
      assert texts == [injected] by {
        assert |texts| == 1 && texts[0] == Interpolate(VStr(injected));
      }
    }
    assert q.sql == LikeSql(fieldText, table, where, limit);
    assert |q.sql| >= 7 + |fieldText| && q.sql[..7 + |fieldText|] == "SELECT " + fieldText by {
      LikeSqlOpensWithColumns(fieldText, table, where, limit);
    }
    SelectThenBacktick(injected);
  }

  lemma SelectThenBacktick(x: string)
    ensures "SELECT " + ("`" + x + "`") == "SELECT `" + x + "`"
  {
    assert "SELECT " + "`" == "SELECT `";
  }

  // ---------------------------------------------------------------------------
  // Outcomes

  /** What a write returns and records, given its plan and the connection it would use. */
  predicate WriteDone(plan: Result<Option<Query>>, conn: Result<Connection>, r: Result<bool>,
                      before: seq<Statement>, after: seq<Statement>)
  {
    match plan
    case Throw(f) => r == Throw(f) && after == before
    case Ok(None) => r == Ok(false) && after == before
    case Ok(Some(q)) =>
      match conn
      case Throw(f) => r == Throw(f) && after == before
      case Ok(c) => r == Ok(true) && after == before + [Statement(c, q.sql, q.bindings)]
  }

  /** What a query returns and records; `rows` is what the database answers. */
  predicate ReadDone(plan: Result<Option<Query>>, conn: Result<Connection>, rows: Statement -> seq<PArray>,
                     r: Result<seq<PArray>>, before: seq<Statement>, after: seq<Statement>)
  {
    match plan
    case Throw(f) => r == Throw(f) && after == before
    case Ok(None) => r == Ok([]) && after == before
    case Ok(Some(q)) =>
      match conn
      case Throw(f) => r == Throw(f) && after == before
      case Ok(c) => r == Ok(rows(Statement(c, q.sql, q.bindings))) && after == before + [Statement(c, q.sql, q.bindings)]
  }

  /** `select_open`'s outcome: once executed, the static `fetchAll` call raises an Error. */
  predicate OpenDone(plan: Result<Option<Query>>, conn: Result<Connection>, r: Result<seq<PArray>>,
                     before: seq<Statement>, after: seq<Statement>)
  {
    match plan
    case Throw(f) => r == Throw(f) && after == before
    case Ok(None) => r == Ok([]) && after == before
    case Ok(Some(q)) =>
      match conn
      case Throw(f) => r == Throw(f) && after == before
      case Ok(c) => r == Throw(FetchAllStatic) && after == before + [Statement(c, q.sql, q.bindings)]
  }

  /** The pool after a builder: touched only when the plan got as far as asking for a connection. */
  predicate PoolDone(plan: Result<Option<Query>>, conn: Result<Connection>, before: map<int, Connection>,
                     after: map<int, Connection>, tableId: int)
  {
    if plan.Ok? && plan.value.Some? then PoolAfter(before, after, tableId, conn) else after == before
  }

  /** `select_open` returns rows only through its early exit, and those rows are `[]`. */
  lemma SelectOpenNeverReturnsRows(plan: Result<Option<Query>>, conn: Result<Connection>, r: Result<seq<PArray>>,
                                   before: seq<Statement>, after: seq<Statement>)
    requires OpenDone(plan, conn, r, before, after)
    ensures r.Ok? ==> r.value == [] && after == before
    ensures plan.Ok? && plan.value.Some? && conn.Ok? ==> r == Throw(FetchAllStatic)
  {
  }

  // ---------------------------------------------------------------------------
  // The class

  class InjectableSql {
    const pdo: InjectablePdo
    const config: DatabaseConfig
    /** The rows the database returns for an executed query. */
    const database: Statement -> seq<PArray>
    /** Every statement executed so far, oldest first. */
    var executed: seq<Statement>

    constructor (pdo: InjectablePdo, config: DatabaseConfig, database: Statement -> seq<PArray>)
      ensures this.pdo == pdo && this.config == config && this.database == database
      ensures executed == []
    {
      this.pdo := pdo;
      this.config := config;
      this.database := database;
      executed := [];
    }

    /** The table's columns as the cache held them when the call began. */
    ghost function Columns(cache: map<int, seq<string>>, tableId: int): seq<string>
      reads pdo
    {
      Resolve(cache, pdo.catalog, tableId)
    }

    /** The running-counter loop shared by delete, update, select and selectLike. */
    method NumberEntries(es: PArray, op: string, tag: string, start: nat, like: bool)
      returns (parts: seq<string>, bind: seq<Binding>)
      ensures parts == Comparisons(es, op, tag, start)
      ensures bind == Bound(es, tag, start, like)
    {
      parts := [];
      bind := [];
      var i := start;
      for k := 0 to |es|
        invariant i == start + k
        invariant parts == Comparisons(es[..k], op, tag, start)
        invariant bind == Bound(es[..k], tag, start, like)
      {
        i := i + 1;
        var p := Placeholder(tag, i);
        parts := parts + ["`" + KeyText(es[k].key) + "`" + op + p];
        bind := bind + [Binding(p, if like then LikePattern(es[k].val) else es[k].val)];
        assert es[..k + 1][..k] == es[..k];
      }
      assert es[..|es|] == es;
    }

    /** Prepares and executes a statement; the database's answer is returned. */
    method Execute(connection: Connection, sql: string, bind: seq<Binding>) returns (rows: seq<PArray>)
      modifies this
      ensures executed == old(executed) + [Statement(connection, sql, bind)]
      ensures rows == database(Statement(connection, sql, bind))
    {
      executed := executed + [Statement(connection, sql, bind)];
      rows := database(Statement(connection, sql, bind));
    }

    /** `insert`. */
    method Insert(tableId: int, data: PArray) returns (r: Result<bool>)
      requires pdo.config.Valid()
      modifies this, pdo.connections, pdo.columns
      ensures var plan := InsertPlan(pdo.config, Columns(old(pdo.columns.cache), tableId), tableId, data);
              var conn := ConnectionFor(old(pdo.connections.pool), pdo.config, tableId);
              && WriteDone(plan, conn, r, old(executed), executed)
              && PoolDone(plan, conn, old(pdo.connections.pool), pdo.connections.pool, tableId)
      ensures FetchedAtMost(old(pdo.columns.cache), pdo.columns.cache, old(pdo.columns.loads), pdo.columns.loads,
                            pdo.catalog, tableId)
    {
      var table := pdo.TableNameFromId(tableId);
      if table.Throw? {
        return Throw(table.fault);
      }
      var kept := pdo.FilterFields(tableId, data);
      if kept.Throw? {
        return Throw(kept.fault);
      }
      var fields := kept.value;
      if fields == [] {
        return Ok(false);
      }
      var names := KeyTexts(fields);
      var ph := ColonNames(names);
      var sql := "INSERT INTO `" + table.value + "` (`" + Join(names, "`,`") + "`) VALUES (" + Join(ph, ",") + ")";
      var conn := pdo.PdoByTableId(tableId);
      if conn.Throw? {
        return Throw(conn.fault);
      }
      var bind := BindEach(fields);
      assert InsertQuery(table.value, fields) == Query(sql, bind);
      var _ := Execute(conn.value, sql, bind);
      r := Ok(true);
    }

    /** The loop of `insert` that binds each kept value under ":" and its key. */
    method BindEach(fields: PArray) returns (bind: seq<Binding>)
      ensures bind == InsertBindings(fields)
    {
      bind := [];
      for k := 0 to |fields|
        invariant bind == InsertBindings(fields[..k])
      {
        bind := bind + [Binding(":" + KeyText(fields[k].key), fields[k].val)];
        assert fields[..k + 1][..k] == fields[..k];
      }
      assert fields[..|fields|] == fields;
    }

    /** `delete`. */
    method Delete(tableId: int, where: PArray) returns (r: Result<bool>)
      requires pdo.config.Valid()
      modifies this, pdo.connections, pdo.columns
      ensures var plan := DeletePlan(pdo.config, Columns(old(pdo.columns.cache), tableId), tableId, where);
              var conn := ConnectionFor(old(pdo.connections.pool), pdo.config, tableId);
              && WriteDone(plan, conn, r, old(executed), executed)
              && PoolDone(plan, conn, old(pdo.connections.pool), pdo.connections.pool, tableId)
      ensures FetchedAtMost(old(pdo.columns.cache), pdo.columns.cache, old(pdo.columns.loads), pdo.columns.loads,
                            pdo.catalog, tableId)
    {
      var table := pdo.TableNameFromId(tableId);
      if table.Throw? {
        return Throw(table.fault);
      }
      var kept := pdo.FilterFields(tableId, where);
      if kept.Throw? {
        return Throw(kept.fault);
      }
      if kept.value == [] {
        return Ok(false);
      }
      var parts, bind := NumberEntries(kept.value, "=", "w", 0, false);
      var sql := "DELETE FROM `" + table.value + "` WHERE " + Join(parts, " AND ");
      var conn := pdo.PdoByTableId(tableId);
      if conn.Throw? {
        return Throw(conn.fault);
      }
      var _ := Execute(conn.value, sql, bind);
      r := Ok(true);
    }

    /** `update`. */
    method Update(tableId: int, data: PArray, where: PArray) returns (r: Result<bool>)
      requires pdo.config.Valid()
      modifies this, pdo.connections, pdo.columns
      ensures var plan := UpdatePlan(pdo.config, Columns(old(pdo.columns.cache), tableId), tableId, data, where);
              var conn := ConnectionFor(old(pdo.connections.pool), pdo.config, tableId);
              && WriteDone(plan, conn, r, old(executed), executed)
              && PoolDone(plan, conn, old(pdo.connections.pool), pdo.connections.pool, tableId)
      ensures FetchedAtMost(old(pdo.columns.cache), pdo.columns.cache, old(pdo.columns.loads), pdo.columns.loads,
                            pdo.catalog, tableId)
    {
      var table := pdo.TableNameFromId(tableId);
      if table.Throw? {
        return Throw(table.fault);
      }
      ghost var c0, l0 := pdo.columns.cache, pdo.columns.loads;
      var assigns := pdo.FilterFields(tableId, data);
      if assigns.Throw? {
        return Throw(assigns.fault);
      }
      ghost var c1, l1 := pdo.columns.cache, pdo.columns.loads;
      var cond := pdo.FilterFields(tableId, where);
      FetchedThenFetched(c0, c1, pdo.columns.cache, l0, l1, pdo.columns.loads, pdo.catalog, tableId);
      if cond.Throw? {
        return Throw(cond.fault);
      }
      if assigns.value == [] || cond.value == [] {
        return Ok(false);
      }
      var setParts, setBind := NumberEntries(assigns.value, "=", "s", 0, false);
      var whereParts, whereBind := NumberEntries(cond.value, "=", "w", |assigns.value|, false);
      var sql := "UPDATE `" + table.value + "` SET " + Join(setParts, ",") + " WHERE " + Join(whereParts, " AND ");
      var conn := pdo.PdoByTableId(tableId);
      if conn.Throw? {
        return Throw(conn.fault);
      }
      var _ := Execute(conn.value, sql, setBind + whereBind);
      r := Ok(true);
    }

    /** `select`. */
    method Select(tableId: int, fields: PArray, where: PArray, order: Option<string>, limit: int)
      returns (r: Result<seq<PArray>>)
      requires pdo.config.Valid()
      modifies this, pdo.connections, pdo.columns
      ensures var plan := SelectPlan(pdo.config, Columns(old(pdo.columns.cache), tableId), tableId, fields, where,
                                     order, limit);
              var conn := ConnectionFor(old(pdo.connections.pool), pdo.config, tableId);
              && ReadDone(plan, conn, database, r, old(executed), executed)
              && PoolDone(plan, conn, old(pdo.connections.pool), pdo.connections.pool, tableId)
      ensures FetchedAtMost(old(pdo.columns.cache), pdo.columns.cache, old(pdo.columns.loads), pdo.columns.loads,
                            pdo.catalog, tableId)
    {
      var plan := BuildSelect(tableId, fields, where, order, limit);
      if plan.Throw? {
        return Throw(plan.fault);
      }
      var q := plan.value.value;
      var conn := pdo.PdoByTableId(tableId);
      if conn.Throw? {
        return Throw(conn.fault);
      }
      var rows := Execute(conn.value, q.sql, q.bindings);
      r := Ok(rows);
    }

    /** The part of `select` before a connection is asked for: the statement text and bindings. */
    method BuildSelect(tableId: int, fields: PArray, where: PArray, order: Option<string>, limit: int)
      returns (plan: Result<Option<Query>>)
      requires pdo.config.Valid()
      modifies pdo.columns
      ensures plan == SelectPlan(pdo.config, Columns(old(pdo.columns.cache), tableId), tableId, fields, where,
                                 order, limit)
      ensures plan.Ok? ==> plan.value.Some?
      ensures FetchedAtMost(old(pdo.columns.cache), pdo.columns.cache, old(pdo.columns.loads), pdo.columns.loads,
                            pdo.catalog, tableId)
    {
      var table := pdo.TableNameFromId(tableId);
      if table.Throw? {
        return Throw(table.fault);
      }
      ghost var c0, l0 := pdo.columns.cache, pdo.columns.loads;
      var cond := pdo.FilterFields(tableId, where);
      if cond.Throw? {
        return Throw(cond.fault);
      }
      var shown := Ok(fields);
      if !IsStar(fields) {
        ghost var c1, l1 := pdo.columns.cache, pdo.columns.loads;
        shown := pdo.FilterFields(tableId, fields);
        FetchedThenFetched(c0, c1, pdo.columns.cache, l0, l1, pdo.columns.loads, pdo.catalog, tableId);
        if shown.Throw? {
          return Throw(shown.fault);
        }
      }
      var cols := FieldList(shown.value);
      var parts, bind := NumberEntries(cond.value, " = ", "w", 0, false);
      var sqlWhere := if parts != [] then " WHERE " + Join(parts, " AND ") else "";
      ghost var c2, l2 := pdo.columns.cache, pdo.columns.loads;
      var orderClause := pdo.ValidateOrder(tableId, order);
      FetchedThenFetched(c0, c2, pdo.columns.cache, l0, l2, pdo.columns.loads, pdo.catalog, tableId);
      plan := Ok(Some(Query(SelectSql(cols, table.value, sqlWhere, orderClause, limit), bind)));
      SelectIssued(pdo.config, Columns(c0, tableId), tableId, fields, where, order, limit, table.value, cond.value,
                   shown.value);
    }

    /** The loop of `select_open` that normalises each where entry, keeping the non-null ones. */
    method NormalizeAll(tableId: int, where: PArray) returns (r: Result<seq<Condition>>)
      modifies pdo.columns
      ensures r == NormalizedAll(Columns(old(pdo.columns.cache), tableId), where)
      ensures FetchedAtMost(old(pdo.columns.cache), pdo.columns.cache, old(pdo.columns.loads), pdo.columns.loads,
                            pdo.catalog, tableId)
    {
      ghost var cols := Columns(pdo.columns.cache, tableId);
      var conds: seq<Condition> := [];
      for k := 0 to |where|
        invariant NormalizedAll(cols, where[..k]) == Ok(conds)
        invariant FetchedAtMost(old(pdo.columns.cache), pdo.columns.cache, old(pdo.columns.loads), pdo.columns.loads,
                                pdo.catalog, tableId)
      {
        assert where[..k + 1][..k] == where[..k];
        ghost var c1, l1 := pdo.columns.cache, pdo.columns.loads;
        var condition := pdo.NormalizeCondition(tableId, where[k].key, where[k].val, DefaultAllowedOperators);
        FetchedAtMostTwice(old(pdo.columns.cache), c1, pdo.columns.cache, old(pdo.columns.loads), l1,
                           pdo.columns.loads, pdo.catalog, tableId);
        if condition.Throw? {
          NormalizedAllThrowPersists(cols, where, k + 1);
          return Throw(condition.fault);
        }
        if condition.value.Some? {
          conds := conds + [condition.value.value];
        }
      }
      assert where[..|where|] == where;
      r := Ok(conds);
    }

    /** The loop of `select_open` that renders the conditions, expanding IN lists. */
    method RenderConditions(conds: seq<Condition>) returns (parts: seq<string>, bind: seq<Binding>)
      ensures (parts, bind) == OpenClauses(conds)
    {
      parts := [];
      bind := [];
      var i: nat := 0;
      for k := 0 to |conds|
        invariant (parts, bind) == OpenClauses(conds[..k])
        invariant i == |bind|
      {
        assert conds[..k + 1][..k] == conds[..k];
        var c := conds[k];
        if (c.operator == "IN" || c.operator == "NOT IN") && c.value.VArr? {
          var placeholders, more := BindList(c, i);
          parts := parts + ["`" + Interpolate(c.field) + "` " + c.operator + " (" + Join(placeholders, ", ") + ")"];
          bind := bind + more;
          i := i + |more|;
        } else {
          i := i + 1;
          var p := Placeholder("w", i);
          parts := parts + ["`" + Interpolate(c.field) + "` " + c.operator + " " + p];
          bind := bind + [Binding(p, c.value)];
        }
      }
      assert conds[..|conds|] == conds;
    }

    /** The inner loop of `select_open`: one `:w{$i}_{$index}` placeholder per list element. */
    method BindList(c: Condition, count: nat) returns (placeholders: seq<string>, more: seq<Binding>)
      requires IsList(c)
      ensures more == ConditionBindings(c, count)
      ensures placeholders == NamesOf(more)
    {
      var items := c.value.a;
      ghost var all := ConditionBindings(c, count);
      var i := count;
      placeholders := [];
      more := [];
      for j := 0 to |items|
        invariant i == count + j
        invariant more == all[..j]
        invariant placeholders == NamesOf(more)
      {
        i := i + 1;
        var p := ListName(i, items[j].key);
        placeholders := placeholders + [p];
        more := more + [Binding(p, items[j].val)];
        assert all[..j + 1] == all[..j] + [all[j]];
      }
      assert all[..|items|] == all;
    }

    /** `select_open`. */
    method SelectOpen(tableId: int, fields: PArray, where: PArray, order: Option<string>, limit: int)
      returns (r: Result<seq<PArray>>)
      requires pdo.config.Valid()
      modifies this, pdo.connections, pdo.columns
      ensures var plan := SelectOpenPlan(pdo.config, Columns(old(pdo.columns.cache), tableId), tableId, fields,
                                         where, order, limit);
              var conn := ConnectionFor(old(pdo.connections.pool), pdo.config, tableId);
              && OpenDone(plan, conn, r, old(executed), executed)
              && PoolDone(plan, conn, old(pdo.connections.pool), pdo.connections.pool, tableId)
      ensures FetchedAtMost(old(pdo.columns.cache), pdo.columns.cache, old(pdo.columns.loads), pdo.columns.loads,
                            pdo.catalog, tableId)
    {
      var plan := BuildOpen(tableId, fields, where, order, limit);
      if plan.Throw? {
        return Throw(plan.fault);
      }
      if plan.value.None? {
        return Ok([]);
      }
      var q := plan.value.value;
      var conn := pdo.PdoByTableId(tableId);
      if conn.Throw? {
        return Throw(conn.fault);
      }
      var _ := Execute(conn.value, q.sql, q.bindings);
      r := Throw(FetchAllStatic);
    }

    /** The part of `select_open` before a connection is asked for: the statement text and bindings. */
    method BuildOpen(tableId: int, fields: PArray, where: PArray, order: Option<string>, limit: int)
      returns (plan: Result<Option<Query>>)
      requires pdo.config.Valid()
      modifies pdo.columns
      ensures plan == SelectOpenPlan(pdo.config, Columns(old(pdo.columns.cache), tableId), tableId, fields,
                                     where, order, limit)
      ensures FetchedAtMost(old(pdo.columns.cache), pdo.columns.cache, old(pdo.columns.loads), pdo.columns.loads,
                            pdo.catalog, tableId)
    {
      var table := pdo.TableNameFromId(tableId);
      if table.Throw? {
        return Throw(table.fault);
      }
      ghost var c0, l0 := pdo.columns.cache, pdo.columns.loads;
      var shown := Ok(fields);
      if !IsStar(fields) {
        shown := pdo.FilterFields(tableId, fields);
        if shown.Throw? {
          return Throw(shown.fault);
        }
      }
      ghost var c1, l1 := pdo.columns.cache, pdo.columns.loads;
      var conds := NormalizeAll(tableId, where);
      FetchedAtMostTwice(c0, c1, pdo.columns.cache, l0, l1, pdo.columns.loads, pdo.catalog, tableId);
      if conds.Throw? {
        return Throw(conds.fault);
      }
      if where != [] && conds.value == [] {
        return Ok(None);
      }
      var cols := FieldList(shown.value);
      var parts, bind := RenderConditions(conds.value);
      var sqlWhere := if parts != [] then " WHERE " + Join(parts, " AND ") else "";
      ghost var c2, l2 := pdo.columns.cache, pdo.columns.loads;
      var orderClause := pdo.ValidateOrder(tableId, order);
      FetchedThenFetched(c0, c2, pdo.columns.cache, l0, l2, pdo.columns.loads, pdo.catalog, tableId);
      plan := Ok(Some(Query(SelectSql(cols, table.value, sqlWhere, orderClause, limit), bind)));
      SelectOpenIssued(pdo.config, Columns(c0, tableId), tableId, fields, where, order, limit, table.value,
                       shown.value, conds.value);
    }

    /** `selectOne`: `select` with where and fields swapped, order "1" and the default limit. */
    method SelectOne(tableId: int, where: PArray, fields: PArray) returns (r: Result<Option<PArray>>)
      requires pdo.config.Valid()
      modifies this, pdo.connections, pdo.columns
      ensures var plan := SelectPlan(pdo.config, Columns(old(pdo.columns.cache), tableId), tableId, where, fields,
                                     Some("1"), DefaultLimit);
              var conn := ConnectionFor(old(pdo.connections.pool), pdo.config, tableId);
              exists rows :: && ReadDone(plan, conn, database, rows, old(executed), executed)
                             && PoolDone(plan, conn, old(pdo.connections.pool), pdo.connections.pool, tableId)
                             && r == FirstRow(rows)
      ensures FetchedAtMost(old(pdo.columns.cache), pdo.columns.cache, old(pdo.columns.loads), pdo.columns.loads,
                            pdo.catalog, tableId)
    {
      var rows := Select(tableId, where, fields, Some("1"), DefaultLimit);
      r := FirstRow(rows);
    }

    /** `selectLike`. */
    method SelectLike(tableId: int, like: PArray, fields: PArray, limit: int) returns (r: Result<seq<PArray>>)
      requires pdo.config.Valid()
      modifies this, pdo.connections, pdo.columns
      ensures var plan := SelectLikePlan(pdo.config, Columns(old(pdo.columns.cache), tableId), tableId, like, fields,
                                         limit);
              var conn := ConnectionFor(old(pdo.connections.pool), pdo.config, tableId);
              && ReadDone(plan, conn, database, r, old(executed), executed)
              && PoolDone(plan, conn, old(pdo.connections.pool), pdo.connections.pool, tableId)
      ensures FetchedAtMost(old(pdo.columns.cache), pdo.columns.cache, old(pdo.columns.loads), pdo.columns.loads,
                            pdo.catalog, tableId)
    {
      var kept := pdo.FilterFields(tableId, like);
      if kept.Throw? {
        return Throw(kept.fault);
      }
      if kept.value == [] {
        return Ok([]);
      }
      var table := pdo.TableNameFromId(tableId);
      if table.Throw? {
        return Throw(table.fault);
      }
      var cols := FieldList(fields);
      var parts, bind := NumberEntries(kept.value, " LIKE ", "l", 0, true);
      var sqlWhere := if parts != [] then " WHERE " + Join(parts, " AND ") else "";
      var sql := "SELECT " + cols + " FROM `" + table.value + "`" + sqlWhere + " ORDER BY `id` ASC LIMIT "
                 + IntToString(limit);
      var conn := pdo.PdoByTableId(tableId);
      if conn.Throw? {
        return Throw(conn.fault);
      }
      var rows := Execute(conn.value, sql, bind);
      r := Ok(rows);
    }
  }

  /** `$rows[0] ?? null`, passing a failure through. */
  function FirstRow(rows: Result<seq<PArray>>): (r: Result<Option<PArray>>)
    ensures r.Ok? <==> rows.Ok?
    ensures r.Ok? ==> (r.value.None? <==> rows.value == [])
    ensures r.Ok? && r.value.Some? ==> r.value.value == rows.value[0]
  {
    match rows
    case Throw(f) => Throw(f)
    case Ok(rs) => if rs == [] then Ok(None) else Ok(Some(rs[0]))
  }

  /** Once normalising has thrown, later entries change nothing. */
  lemma {:induction false} NormalizedAllThrowPersists(cols: seq<string>, where: PArray, i: nat)
    requires i <= |where| && NormalizedAll(cols, where[..i]).Throw?
    ensures NormalizedAll(cols, where) == NormalizedAll(cols, where[..i])
    decreases |where| - i
  {
    if i < |where| {
      assert where[..i + 1][..i] == where[..i];
      NormalizedAllThrowPersists(cols, where, i + 1);
    } else {
      assert where[..i] == where;
    }
  }
}
