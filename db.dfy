/**
 * `InjectableDb`: property-style access to tables by name. `$db->web` looks
 * the group name up among the `db_mapping` values and yields a group for the
 * database id found; `$group->users` finds the first configured table of that
 * name whose id starts with the group's digit; the table handle forwards to
 * the statement builders.
 */
module Db {
  import opened Php
  import opened ArrayConfig
  import opened ColumnCache
  import opened Pdo
  import opened Sql
  import EnvConfig

  // ---------------------------------------------------------------------------
  // Database groups

  /**
   * PHP 8's loose `==` between the searched-for string and a mapping value,
   * for the values a configuration holds.
   */
  predicate LooseEquals(s: string, v: Value) {
    match v
    case VNull => s == ""
    case VBool(b) => b == (s != "" && s != "0")
    case VInt(i) => s == IntToString(i)
    case VStr(t) => s == t
    case VArr(_) => false
  }

  /** `array_search($needle, $haystack)`: the key of the first loosely equal value. */
  function ArraySearch(needle: string, haystack: PArray): Option<Key> {
    if haystack == [] then None
    else if LooseEquals(needle, haystack[0].val) then Some(haystack[0].key)
    else ArraySearch(needle, haystack[1..])
  }

  /** `array_search` finds the first matching entry, and finds nothing only when none matches. */
  lemma {:induction false} ArraySearchFindsFirst(needle: string, haystack: PArray)
    ensures ArraySearch(needle, haystack).None? <==>
              forall i :: 0 <= i < |haystack| ==> !LooseEquals(needle, haystack[i].val)
    ensures ArraySearch(needle, haystack).Some? ==>
              exists i :: 0 <= i < |haystack| && haystack[i].key == ArraySearch(needle, haystack).value
                          && LooseEquals(needle, haystack[i].val)
                          && forall j :: 0 <= j < i ==> !LooseEquals(needle, haystack[j].val)
  {
    if haystack != [] && !LooseEquals(needle, haystack[0].val) {
      var rest := haystack[1..];
      ArraySearchFindsFirst(needle, rest);
      if ArraySearch(needle, rest).Some? {
        var i :| 0 <= i < |rest| && rest[i].key == ArraySearch(needle, rest).value
                 && LooseEquals(needle, rest[i].val)
                 && forall j :: 0 <= j < i ==> !LooseEquals(needle, rest[j].val);
        assert haystack[i + 1] == rest[i];
        forall j | 0 <= j < i + 1 ensures !LooseEquals(needle, haystack[j].val) {
          if j > 0 {
            assert haystack[j] == rest[j - 1];
          }
        }
      } else {
        forall i | 0 <= i < |haystack| ensures !LooseEquals(needle, haystack[i].val) {
          if i > 0 {
            assert haystack[i] == rest[i - 1];
          }
        }
      }
    } else if haystack != [] {
      assert LooseEquals(needle, haystack[0].val);
    }
  }

  /** A non-numeric string key handed to the `int $dbId` / `int $tableId` constructor parameter. */
  const StringIdError: Fault := TypeError("argument must be of type int, string given")

  /**
   * An array key passed to an `int` constructor parameter without strict
   * types: an int key as it is, an integer numeric string key by its value,
   * any other string key a TypeError.
   */
  function IntArgument(k: Key): (r: Result<int>)
    ensures k.IntKey? ==> r == Ok(k.i)
    ensures k.StrKey? ==> (r.Ok? <==> IsIntegerNumeric(k.s))
    ensures k.StrKey? && r.Ok? ==> r.value == ToInt(k.s)
    ensures r.Throw? ==> r == Throw(StringIdError)
  {
    match k
    case IntKey(i) => Ok(i)
    case StrKey(s) => if IsIntegerNumeric(s) then Ok(ToInt(s)) else Throw(StringIdError)
  }

  /** The decimal text of every int, as a string key, is taken back as that int. */
  lemma IntArgumentOfIntText(i: int)
    ensures IntArgument(StrKey(IntToString(i))) == Ok(i)
  {
    var s := IntToString(i);
    var digits := NatToString(if i < 0 then -i else i);
    assert s == if i < 0 then "-" + digits else digits;
    assert IsDigit(digits[|digits| - 1]);
    assert s[|s| - 1] == digits[|digits| - 1];
    assert s[0] == '-' || IsDigit(s[0]) by {
      if i >= 0 {
        assert IsDigit(digits[0]);
      }
    }
    TrimCharsUnchanged(s, NumericBlank);
    if i < 0 {
      assert s[1..] == digits;
    }
    ToIntOfIntToString(i);
  }

  /** Numeric keys PHP does not turn into ints still reach the parameter as ints; other text does not. */
  lemma IntArgumentExamples(padded: string, zeroed: string, signed: string, word: string, decimal: string)
    requires padded == " 1 " && zeroed == "01" && signed == "-07" && word == "web" && decimal == "1.0"
    ensures IntArgument(StrKey(padded)) == Ok(1)
    ensures IntArgument(StrKey(zeroed)) == Ok(1)
    ensures IntArgument(StrKey(signed)) == Ok(-7)
    ensures IntArgument(StrKey(word)) == Throw(StringIdError)
    ensures IntArgument(StrKey(decimal)) == Throw(StringIdError)
  {
    PaddedOneIsNumeric(padded);
    ZeroedOneIsNumeric(zeroed);
    SignedSevenIsNumeric(signed);
    NotNumericAt(word, 0);
    NotNumericAt(decimal, 1);
  }

  /** A string with no blank at either end, no sign, and a non-digit at `i` is not integer numeric. */
  lemma NotNumericAt(s: string, i: nat)
    requires (s == "web" && i == 0) || (s == "1.0" && i == 1)
    ensures !IsIntegerNumeric(s)
  {
    TrimCharsUnchanged(s, NumericBlank);
    assert !IsDigit(s[i]);
  }

  lemma PaddedOneIsNumeric(s: string)
    requires s == " 1 "
    ensures IsIntegerNumeric(s) && ToInt(s) == 1
  {
    var t := TrimLeft(s, NumericBlank);
    assert t == "1 " by {
      assert s[0] == ' ' && ' ' in NumericBlank;
      assert s[1..] == "1 ";
      assert TrimLeft(s, NumericBlank) == TrimLeft(s[1..], NumericBlank);
      assert "1 "[0] == '1' && '1' !in NumericBlank;
    }
    assert TrimRight(t, NumericBlank) == "1" by {
      assert t[..1] == "1";
    }
    assert DigitPrefix(t) == "1" by {
      assert t[1..] == " ";
      assert DigitPrefix(" ") == "";
    }
    DigitsOfOne("1");
  }

  lemma ZeroedOneIsNumeric(s: string)
    requires s == "01"
    ensures IsIntegerNumeric(s) && ToInt(s) == 1
  {
    TrimCharsUnchanged(s, NumericBlank);
    assert TrimLeft(s, NumericBlank) == s;
    ZeroThenDigit(s, '1');
    DigitsOfOne("1");
  }

  lemma SignedSevenIsNumeric(s: string)
    requires s == "-07"
    ensures IsIntegerNumeric(s) && ToInt(s) == -7
  {
    TrimCharsUnchanged(s, NumericBlank);
    assert TrimLeft(s, NumericBlank) == s;
    assert s[1..] == "07";
    ZeroThenDigit("07", '7');
    assert DigitsValue("7") == 7 by {
      assert "7"[..0] == [];
    }
  }

  lemma DigitsOfOne(s: string)
    requires s == "1"
    ensures DigitPrefix(s) == s && DigitsValue(s) == 1
  {
    assert s[1..] == [];
    assert s[..0] == [];
  }

  /** A zero followed by one digit is read as that digit. */
  lemma ZeroThenDigit(s: string, c: char)
    requires IsDigit(c) && s == ['0', c]
    ensures DigitPrefix(s) == s && AllDigits(s) && DigitsValue(s) == DigitsValue([c])
  {
    assert s[1..] == [c];
    assert [c][1..] == [];
    assert s[..1] == "0";
    assert "0"[..0] == [];
    assert [c][..0] == [];
  }

  /**
   * The `array_search` of `InjectableDb::__get($dbName)`: the database id
   * whose mapping value equals the name, none when there is none.
   */
  function GroupId(config: DatabaseConfig, dbName: string): (r: Result<Option<int>>)
    requires config.Valid()
    ensures r == Ok(None) <==> forall i :: 0 <= i < |config.Section("db_mapping")| ==>
                                 !LooseEquals(dbName, config.Section("db_mapping")[i].val)
  {
    ArraySearchFindsFirst(dbName, config.Section("db_mapping"));
    match ArraySearch(dbName, config.Section("db_mapping"))
    case None => Ok(None)
    case Some(k) => match IntArgument(k)
      case Ok(id) => Ok(Some(id))
      case Throw(f) => Throw(f)
  }

  /** A group is found under the id of the first mapping entry whose value is the name. */
  lemma GroupIdIsFirstMatch(config: DatabaseConfig, dbName: string)
    requires config.Valid() && GroupId(config, dbName).Ok? && GroupId(config, dbName).value.Some?
    ensures var m := config.Section("db_mapping");
            exists i :: 0 <= i < |m| && IntArgument(m[i].key) == Ok(GroupId(config, dbName).value.value)
                        && LooseEquals(dbName, m[i].val)
                        && forall j :: 0 <= j < i ==> !LooseEquals(dbName, m[j].val)
  {
    ArraySearchFindsFirst(dbName, config.Section("db_mapping"));
  }

  /**
   * `InjectableDb::__get($dbName)`: the mapping is read through `getConfig()`,
   * so a configuration whose class lacks that method fails before the search.
   */
  function GroupLookup(config: DatabaseConfig, dbName: string): (r: Result<Option<int>>)
    requires config.Valid()
    ensures config.kind.EnvClass? ==> r == Throw(UndefinedGetConfig)
    ensures config.kind.ArrayClass? ==> r == GroupId(config, dbName)
  {
    var full :- config.GetConfig();
    GroupId(config, dbName)
  }

  // ---------------------------------------------------------------------------
  // Tables of a group

  /** `(int)substr((string)$tableId, 0, 1)`. */
  function LeadingDigit(k: Key): int {
    var t := KeyText(k);
    ToInt(if |t| >= 1 then t[..1] else "")
  }

  /** For an int key this is the database id the connection layer derives from a table id. */
  lemma LeadingDigitIsDbid(tableId: int)
    ensures LeadingDigit(IntKey(tableId)) == DbidFromTableId(tableId)
  {
  }

  /** `$name === $tableName && (int)substr(...) === $this->dbId`. */
  predicate Matches(e: Entry, dbId: int, tableName: string) {
    e.val == VStr(tableName) && LeadingDigit(e.key) == dbId
  }

  /** The loop of `InjectableDbGroup::__get` over the `tables` section. */
  function FindTable(tables: PArray, dbId: int, tableName: string): Result<Option<int>> {
    if tables == [] then Ok(None)
    else if Matches(tables[0], dbId, tableName) then
      match IntArgument(tables[0].key)
      case Ok(id) => Ok(Some(id))
      case Throw(f) => Throw(f)
    else FindTable(tables[1..], dbId, tableName)
  }

  /**
   * The loop stops at the first entry with the name and the group's leading
   * digit; it yields nothing exactly when there is no such entry.
   */
  lemma {:induction false} FindTableFindsFirst(tables: PArray, dbId: int, tableName: string)
    ensures FindTable(tables, dbId, tableName) == Ok(None) <==>
              forall i :: 0 <= i < |tables| ==> !Matches(tables[i], dbId, tableName)
    ensures FindTable(tables, dbId, tableName).Ok? && FindTable(tables, dbId, tableName).value.Some? ==>
              var id := FindTable(tables, dbId, tableName).value.value;
              exists i :: 0 <= i < |tables| && IntArgument(tables[i].key) == Ok(id) && Matches(tables[i], dbId, tableName)
                          && forall j :: 0 <= j < i ==> !Matches(tables[j], dbId, tableName)
  {
    if tables != [] && !Matches(tables[0], dbId, tableName) {
      var rest := tables[1..];
      FindTableFindsFirst(rest, dbId, tableName);
      var r := FindTable(rest, dbId, tableName);
      if r.Ok? && r.value.Some? {
        var i :| 0 <= i < |rest| && IntArgument(rest[i].key) == Ok(r.value.value) && Matches(rest[i], dbId, tableName)
                 && forall j :: 0 <= j < i ==> !Matches(rest[j], dbId, tableName);
        assert tables[i + 1] == rest[i];
        forall j | 0 <= j < i + 1 ensures !Matches(tables[j], dbId, tableName) {
          if j > 0 {
            assert tables[j] == rest[j - 1];
          }
        }
      }
      forall i | 0 <= i < |tables| && i > 0 ensures tables[i] == rest[i - 1] {
      }
    } else if tables != [] {
      assert Matches(tables[0], dbId, tableName);
    }
  }

  /** The search loop of `InjectableDbGroup::__get($tableName)` for the group `dbId`. */
  function TableId(config: DatabaseConfig, dbId: int, tableName: string): Result<Option<int>>
    requires config.Valid()
  {
    FindTable(config.Section("tables"), dbId, tableName)
  }

  /**
   * `InjectableDbGroup::__get($tableName)`: the tables are read through
   * `getConfig()`, so a configuration whose class lacks it fails first.
   */
  function TableLookup(config: DatabaseConfig, dbId: int, tableName: string): (r: Result<Option<int>>)
    requires config.Valid()
    ensures config.kind.EnvClass? ==> r == Throw(UndefinedGetConfig)
    ensures config.kind.ArrayClass? ==> r == TableId(config, dbId, tableName)
  {
    var full :- config.GetConfig();
    TableId(config, dbId, tableName)
  }

  /**
   * A configuration loaded from the environment reaches no group and no
   * table: even a name its mapping holds ends in the Error of the missing
   * `getConfig`.
   */
  lemma EnvConfigReachesNothing(s: EnvConfig.Sections, name: string, dbId: int, tableName: string)
    requires s.dbMapping == [Entry(IntKey(1), VStr(name))]
    ensures var config := DatabaseConfig(EnvConfig.AsConfig(s), EnvClass);
            && GroupId(config, name) == Ok(Some(1))
            && GroupLookup(config, name) == Throw(UndefinedGetConfig)
            && TableLookup(config, dbId, tableName) == Throw(UndefinedGetConfig)
  {
    var config := DatabaseConfig(EnvConfig.AsConfig(s), EnvClass);
    assert config.Section("db_mapping") == s.dbMapping;
    assert LooseEquals(name, s.dbMapping[0].val);
    GroupIdIsFirstMatch(config, name);
  }

  /**
   * A table reached through group `dbId` is configured under the id it is
   * handled as, and is served by the connection of database `dbId`.
   */
  lemma TableIdBelongsToGroup(config: DatabaseConfig, dbId: int, tableName: string)
    requires config.Valid() && TableId(config, dbId, tableName).Ok? && TableId(config, dbId, tableName).value.Some?
    ensures var id := TableId(config, dbId, tableName).value.value;
            var tables := config.Section("tables");
            (forall j :: 0 <= j < |tables| ==> tables[j].key.IntKey?) ==>
              && DbidFromTableId(id) == dbId
              && Lookup(tables, IntKey(id)).Some?
  {
    var tables := config.Section("tables");
    FindTableFindsFirst(tables, dbId, tableName);
    var id := TableId(config, dbId, tableName).value.value;
    var i :| 0 <= i < |tables| && IntArgument(tables[i].key) == Ok(id) && Matches(tables[i], dbId, tableName);
    if tables[i].key.IntKey? {
      assert tables[i].key == IntKey(id);
      LeadingDigitIsDbid(id);
      assert IntKey(id) in Keys(tables) by {
        assert Keys(tables)[i] == IntKey(id);
      }
    }
  }

  /**
   * A numeric string table key is matched by its text but used by its value:
   * under `'01' => 'users'` group 0 reaches table 1, which database 1 serves
   * and which is not configured under the int key 1.
   */
  lemma NumericStringTableKey(tables: PArray, key: string)
    requires key == "01" && tables == [Entry(StrKey(key), VStr("users"))]
    ensures FindTable(tables, 0, "users") == Ok(Some(1))
    ensures DbidFromTableId(1) == 1 && Lookup(tables, IntKey(1)).None?
  {
    assert LeadingDigit(StrKey(key)) == 0 by {
      var z := KeyText(StrKey(key))[..1];
      assert z == "0" == IntToString(0);
      ToIntOfIntToString(0);
    }
    assert IntArgument(StrKey(key)) == Ok(1) by {
      IntArgumentExamples(" 1 ", key, "-07", "web", "1.0");
    }
    assert DbidFromTableId(1) == 1 by {
      LeadingDigitIsDbid(1);
      assert IntToString(1) == "1";
    }
  }


  /**
   * Two databases may hold tables of the same name: with `101 => 'users'` and
   * `201 => 'users'`, group 2 reaches table 201 and group 1 table 101.
   */
  lemma SameNameInTwoGroups(tables: PArray)
    requires tables == [Entry(IntKey(101), VStr("users")), Entry(IntKey(201), VStr("users"))]
    ensures FindTable(tables, 1, "users") == Ok(Some(101))
    ensures FindTable(tables, 2, "users") == Ok(Some(201))
  {
    DbidOfThreeDigitId(101);
    DbidOfThreeDigitId(201);
    LeadingDigitIsDbid(101);
    LeadingDigitIsDbid(201);
    assert Matches(tables[0], 1, "users");
    assert !Matches(tables[0], 2, "users");
    assert tables[1..][0] == tables[1];
    assert Matches(tables[1..][0], 2, "users");
  }

  // ---------------------------------------------------------------------------
  // Handles

  /** `$db->name`: a group handle over the shared builders. */
  class InjectableDb {
    const sql: InjectableSql
    const config: DatabaseConfig

    constructor (sql: InjectableSql, config: DatabaseConfig)
      ensures this.sql == sql && this.config == config
    {
      this.sql := sql;
      this.config := config;
    }

    /** `__get`: a new group for the database id found, null when the name is not mapped. */
    method Get(dbName: string) returns (r: Result<Option<InjectableDbGroup>>)
      requires config.Valid()
      ensures match GroupLookup(config, dbName)
              case Throw(f) => r == Throw(f)
              case Ok(None) => r == Ok(None)
              case Ok(Some(id)) => r.Ok? && r.value.Some? && fresh(r.value.value)
                                   && r.value.value.dbId == id && r.value.value.sql == sql
                                   && r.value.value.config == config
    {
      var full := config.GetConfig();
      if full.Throw? {
        return Throw(full.fault);
      }
      var found := GroupId(config, dbName);
      if found.Throw? {
        return Throw(found.fault);
      }
      if found.value.None? {
        return Ok(None);
      }
      var group := new InjectableDbGroup(sql, found.value.value, config);
      r := Ok(Some(group));
    }
  }

  /** `$db->name->table`: a table handle for the group's table of that name. */
  class InjectableDbGroup {
    const sql: InjectableSql
    const dbId: int
    const config: DatabaseConfig

    constructor (sql: InjectableSql, dbId: int, config: DatabaseConfig)
      ensures this.sql == sql && this.dbId == dbId && this.config == config
    {
      this.sql := sql;
      this.dbId := dbId;
      this.config := config;
    }

    /** `__get`: a new table handle for the first matching table, null when none matches. */
    method Get(tableName: string) returns (r: Result<Option<InjectableDbTable>>)
      requires config.Valid()
      ensures match TableLookup(config, dbId, tableName)
              case Throw(f) => r == Throw(f)
              case Ok(None) => r == Ok(None)
              case Ok(Some(id)) => r.Ok? && r.value.Some? && fresh(r.value.value)
                                   && r.value.value.tableId == id && r.value.value.sql == sql
    {
      var full := config.GetConfig();
      if full.Throw? {
        return Throw(full.fault);
      }
      var tables := config.Section("tables");
      for i := 0 to |tables|
        invariant FindTable(tables, dbId, tableName) == FindTable(tables[i..], dbId, tableName)
      {
        assert tables[i..][1..] == tables[i + 1..];
        var e := tables[i];
        if e.val == VStr(tableName) && LeadingDigit(e.key) == dbId {
          var id := IntArgument(e.key);
          if id.Throw? {
            return Throw(id.fault);
          }
          var table := new InjectableDbTable(sql, id.value);
          return Ok(Some(table));
        }
      }
      r := Ok(None);
    }
  }

  /** A table handle: each operation forwards to the builder with the handle's table id. */
  class InjectableDbTable {
    const sql: InjectableSql
    const tableId: int

    constructor (sql: InjectableSql, tableId: int)
      ensures this.sql == sql && this.tableId == tableId
    {
      this.sql := sql;
      this.tableId := tableId;
    }

    /** `add`: `insert`. */
    method Add(data: PArray) returns (r: Result<bool>)
      requires sql.pdo.config.Valid()
      modifies sql, sql.pdo.connections, sql.pdo.columns
      ensures var plan := InsertPlan(sql.pdo.config, sql.Columns(old(sql.pdo.columns.cache), tableId), tableId, data);
              var conn := ConnectionFor(old(sql.pdo.connections.pool), sql.pdo.config, tableId);
              && WriteDone(plan, conn, r, old(sql.executed), sql.executed)
              && PoolDone(plan, conn, old(sql.pdo.connections.pool), sql.pdo.connections.pool, tableId)
      ensures FetchedAtMost(old(sql.pdo.columns.cache), sql.pdo.columns.cache, old(sql.pdo.columns.loads),
                            sql.pdo.columns.loads, sql.pdo.catalog, tableId)
    {
      r := sql.Insert(tableId, data);
    }

    /** `delete`: `delete` with the search array as the conditions. */
    method Delete(search: PArray) returns (r: Result<bool>)
      requires sql.pdo.config.Valid()
      modifies sql, sql.pdo.connections, sql.pdo.columns
      ensures var plan := DeletePlan(sql.pdo.config, sql.Columns(old(sql.pdo.columns.cache), tableId), tableId, search);
              var conn := ConnectionFor(old(sql.pdo.connections.pool), sql.pdo.config, tableId);
              && WriteDone(plan, conn, r, old(sql.executed), sql.executed)
              && PoolDone(plan, conn, old(sql.pdo.connections.pool), sql.pdo.connections.pool, tableId)
      ensures FetchedAtMost(old(sql.pdo.columns.cache), sql.pdo.columns.cache, old(sql.pdo.columns.loads),
                            sql.pdo.columns.loads, sql.pdo.catalog, tableId)
    {
      r := sql.Delete(tableId, search);
    }

    /** `update`: `update` with the search array as the conditions. */
    method Update(data: PArray, search: PArray) returns (r: Result<bool>)
      requires sql.pdo.config.Valid()
      modifies sql, sql.pdo.connections, sql.pdo.columns
      ensures var plan := UpdatePlan(sql.pdo.config, sql.Columns(old(sql.pdo.columns.cache), tableId), tableId,
                                     data, search);
              var conn := ConnectionFor(old(sql.pdo.connections.pool), sql.pdo.config, tableId);
              && WriteDone(plan, conn, r, old(sql.executed), sql.executed)
              && PoolDone(plan, conn, old(sql.pdo.connections.pool), sql.pdo.connections.pool, tableId)
      ensures FetchedAtMost(old(sql.pdo.columns.cache), sql.pdo.columns.cache, old(sql.pdo.columns.loads),
                            sql.pdo.columns.loads, sql.pdo.catalog, tableId)
    {
      r := sql.Update(tableId, data, search);
    }

    /** `get`: `select($tableId, $search_arr)`, which takes the search array as the field list. */
    method Get(search: PArray) returns (r: Result<seq<PArray>>)
      requires sql.pdo.config.Valid()
      modifies sql, sql.pdo.connections, sql.pdo.columns
      ensures var plan := SelectPlan(sql.pdo.config, sql.Columns(old(sql.pdo.columns.cache), tableId), tableId,
                                     search, [], None, DefaultLimit);
              var conn := ConnectionFor(old(sql.pdo.connections.pool), sql.pdo.config, tableId);
              && ReadDone(plan, conn, sql.database, r, old(sql.executed), sql.executed)
              && PoolDone(plan, conn, old(sql.pdo.connections.pool), sql.pdo.connections.pool, tableId)
      ensures FetchedAtMost(old(sql.pdo.columns.cache), sql.pdo.columns.cache, old(sql.pdo.columns.loads),
                            sql.pdo.columns.loads, sql.pdo.catalog, tableId)
    {
      r := sql.Select(tableId, search, [], None, DefaultLimit);
    }
  }

  /**
   * The table handle's `get` never filters rows: the search array becomes the
   * column list, so the statement has no WHERE and binds nothing.
   */
  lemma TableGetHasNoConditions(config: DatabaseConfig, cols: seq<string>, tableId: int, search: PArray)
    requires config.Valid() && SelectPlan(config, cols, tableId, search, [], None, DefaultLimit).Ok?
    ensures var q := SelectPlan(config, cols, tableId, search, [], None, DefaultLimit).value;
            q.Some? && q.value.bindings == []
            && q.value.sql == SelectSql(FieldList(if IsStar(search) then search else Filtered(cols, search).value),
                                        config.GetTableName(tableId).value, "", OrderClause(cols, None), DefaultLimit)
  {
  }

  /**
   * `get(['name' => $input])` on a table handle passes the key check and puts
   * the trimmed `$input` into the column list unchecked.
   */
  lemma TableGetSearchValueUnchecked(config: DatabaseConfig, cols: seq<string>, tableId: int, name: string, input: string)
    requires config.Valid() && config.GetTableName(tableId).Ok?
    requires IsIdentifier(name) && name in cols
    ensures var plan := SelectPlan(config, cols, tableId, [Entry(StrKey(name), VStr(input))], [], None, DefaultLimit);
            && plan.Ok? && plan.value.Some?
            && var text := "`" + Trim(input) + "`";
               |plan.value.value.sql| >= 7 + |text| && plan.value.value.sql[..7 + |text|] == "SELECT " + text
  {
    assert Filtered(cols, []) == Ok([]);
    SelectFieldValueUnchecked(config, cols, tableId, [Entry(StrKey(name), VStr(input))], [], None, DefaultLimit,
                              name, input);
  }
}
