/**
 * `EnvDatabaseConfig`: the same three sections, filled from environment
 * variables. Keys that start with the prefix are parsed as
 * `<type>_<id>_<field>` once every literal `DB_` has been removed.
 */
module EnvConfig {
  import opened Php
  import opened ArrayConfig

  /** The three sections while the environment is being read. */
  datatype Sections = Sections(databases: PArray, tables: PArray, dbMapping: PArray)

  /** What loading starts from: every section present and empty. */
  const EmptySections: Sections := Sections([], [], [])

  /** The configuration array the object keeps. */
  function AsConfig(s: Sections): (config: PArray)
    ensures DatabaseConfig(config, EnvClass).Valid()
    ensures Keys(config) == [StrKey("databases"), StrKey("tables"), StrKey("db_mapping")]
    ensures DatabaseConfig(config, EnvClass).Section("databases") == s.databases
    ensures DatabaseConfig(config, EnvClass).Section("tables") == s.tables
    ensures DatabaseConfig(config, EnvClass).Section("db_mapping") == s.dbMapping
  {
    var config := [ Entry(StrKey("databases"), VArr(s.databases)),
                    Entry(StrKey("tables"), VArr(s.tables)),
                    Entry(StrKey("db_mapping"), VArr(s.dbMapping)) ];
    assert Lookup(config[2..], StrKey("db_mapping")) == Some(VArr(s.dbMapping));
    assert Lookup(config[1..], StrKey("db_mapping")) == Some(VArr(s.dbMapping));
    assert Lookup(config[1..], StrKey("tables")) == Some(VArr(s.tables));
    config
  }

  /** `explode('_', str_replace('DB_', '', $key))`, whatever the prefix was. */
  function EnvKeyParts(key: string): seq<string> {
    Split(RemoveAll(key, "DB_"), '_')
  }

  /** The descriptor stored for a database id, or a fresh one. */
  function Descriptor(databases: PArray, id: int): PArray {
    match Lookup(databases, IntKey(id))
    case Some(VArr(a)) => a
    case _ => []  // only arrays are ever stored under `databases`
  }

  /**
   * `parseEnvKey($key, $value, &$config)`: type and field are lower-cased, the
   * id is `(int)` of the second part, later parts are ignored.
   */
  function ParseEnvKey(key: string, value: string, config: Sections): (r: Sections)
    ensures |EnvKeyParts(key)| < 3 ==> r == config
    ensures r.databases != config.databases ==> |EnvKeyParts(key)| >= 3 && Lower(EnvKeyParts(key)[0]) == "db"
    ensures r.tables != config.tables ==>
              |EnvKeyParts(key)| >= 3 && Lower(EnvKeyParts(key)[0]) == "table" && Lower(EnvKeyParts(key)[2]) == "name"
    ensures r.dbMapping != config.dbMapping ==>
              |EnvKeyParts(key)| >= 3 && Lower(EnvKeyParts(key)[0]) == "mapping" && Lower(EnvKeyParts(key)[2]) == "name"
    ensures |EnvKeyParts(key)| >= 3 && Lower(EnvKeyParts(key)[0]) == "db" ==>
              var id := ToInt(EnvKeyParts(key)[1]);
              Lookup(r.databases, IntKey(id)).Some? &&
              Lookup(r.databases, IntKey(id)).value.VArr? &&
              Lookup(Lookup(r.databases, IntKey(id)).value.a, ArrayKey(Lower(EnvKeyParts(key)[2]))) == Some(VStr(value))
    ensures |EnvKeyParts(key)| >= 3 && Lower(EnvKeyParts(key)[0]) == "table" && Lower(EnvKeyParts(key)[2]) == "name" ==>
              Lookup(r.tables, IntKey(ToInt(EnvKeyParts(key)[1]))) == Some(VStr(value))
    ensures |EnvKeyParts(key)| >= 3 && Lower(EnvKeyParts(key)[0]) == "mapping" && Lower(EnvKeyParts(key)[2]) == "name" ==>
              Lookup(r.dbMapping, IntKey(ToInt(EnvKeyParts(key)[1]))) == Some(VStr(value))
    ensures |EnvKeyParts(key)| >= 3 ==>
              var id := IntKey(ToInt(EnvKeyParts(key)[1]));
              SameExcept(r.databases, config.databases, id) && SameExcept(r.tables, config.tables, id)
              && SameExcept(r.dbMapping, config.dbMapping, id)
    ensures |EnvKeyParts(key)| >= 3 && Lower(EnvKeyParts(key)[0]) == "db" ==>
              var id := ToInt(EnvKeyParts(key)[1]);
              SameExcept(Descriptor(r.databases, id), Descriptor(config.databases, id), ArrayKey(Lower(EnvKeyParts(key)[2])))
  {
    var parts := EnvKeyParts(key);
    if |parts| < 3 then config
    else
      var kind := Lower(parts[0]);
      var id := ToInt(parts[1]);
      var field := Lower(parts[2]);
      if kind == "db" then
        var descriptor := Set(Descriptor(config.databases, id), ArrayKey(field), VStr(value));
        SetChangesOnlyKey(Descriptor(config.databases, id), ArrayKey(field), VStr(value));
        SetChangesOnlyKey(config.databases, IntKey(id), VArr(descriptor));
        config.(databases := Set(config.databases, IntKey(id), VArr(descriptor)))
      else if kind == "table" && field == "name" then
        SetChangesOnlyKey(config.tables, IntKey(id), VStr(value));
        config.(tables := Set(config.tables, IntKey(id), VStr(value)))
      else if kind == "mapping" && field == "name" then
        SetChangesOnlyKey(config.dbMapping, IntKey(id), VStr(value));
        config.(dbMapping := Set(config.dbMapping, IntKey(id), VStr(value)))
      else config
  }

  /** The sections after reading `env` in order, parsing the keys that start with `prefix`. */
  function EnvFold(env: seq<(string, string)>, prefix: string): Sections {
    if env == [] then EmptySections
    else
      var before := EnvFold(env[..|env| - 1], prefix);
      var (key, value) := env[|env| - 1];
      if StartsWith(key, prefix) then ParseEnvKey(key, value, before) else before
  }

  /** `loadFromEnv($prefix)` over the environment `env`, in its order. */
  method LoadFromEnv(env: seq<(string, string)>, prefix: string) returns (config: Sections)
    ensures config == EnvFold(env, prefix)
  {
    config := EmptySections;
    for i := 0 to |env|
      invariant config == EnvFold(env[..i], prefix)
    {
      assert env[..i + 1][..i] == env[..i];
      var (key, value) := env[i];
      if StartsWith(key, prefix) {
        config := ParseEnvKey(key, value, config);
      }
    }
    assert env[..|env|] == env;
  }

  /** `new EnvDatabaseConfig($prefix)`: load, then refuse a configuration without databases. */
  method NewEnvDatabaseConfig(env: seq<(string, string)>, prefix: string) returns (r: Result<DatabaseConfig>)
    ensures r.Throw? <==> EnvFold(env, prefix).databases == []
    ensures r.Throw? ==> r.fault.Runtime?
    ensures r.Ok? ==> r.value == DatabaseConfig(AsConfig(EnvFold(env, prefix)), EnvClass) && r.value.Valid()
  {
    var loaded := LoadFromEnv(env, prefix);
    if loaded.databases == [] {
      return Throw(Runtime("no database connection configured"));
    }
    return Ok(DatabaseConfig(AsConfig(loaded), EnvClass));
  }

  // ---------------------------------------------------------------------------
  // What the parse makes of particular keys

  /** The entries of `env` whose key starts with `prefix`. */
  function Prefixed(env: seq<(string, string)>, prefix: string): seq<(string, string)> {
    if env == [] then []
    else
      var rest := Prefixed(env[..|env| - 1], prefix);
      if StartsWith(env[|env| - 1].0, prefix) then rest + [env[|env| - 1]] else rest
  }

  /** Variables without the prefix play no part in the loaded configuration. */
  lemma {:induction false} OnlyPrefixedKeysMatter(env: seq<(string, string)>, prefix: string)
    ensures EnvFold(env, prefix) == EnvFold(Prefixed(env, prefix), prefix)
  {
    if env != [] {
      var init := env[..|env| - 1];
      OnlyPrefixedKeysMatter(init, prefix);
      var p := Prefixed(init, prefix);
      if StartsWith(env[|env| - 1].0, prefix) {
        assert (p + [env[|env| - 1]])[..|p|] == p;
      }
    }
  }

  /** With no prefixed variable every section stays empty, so construction fails. */
  lemma {:induction false} NoPrefixedKeysNoDatabases(env: seq<(string, string)>, prefix: string)
    requires forall i :: 0 <= i < |env| ==> !StartsWith(env[i].0, prefix)
    ensures EnvFold(env, prefix) == EmptySections
  {
    if env != [] {
      NoPrefixedKeysNoDatabases(env[..|env| - 1], prefix);
    }
  }


  /** `pat` occurs in `s` starting at index `i`. */
  predicate MatchAt(s: string, pat: string, i: int) {
    0 <= i && i + |pat| <= |s| && s[i..i + |pat|] == pat
  }

  /** `pat` occurs nowhere in `s`. */
  ghost predicate Avoids(s: string, pat: string) {
    forall i :: !MatchAt(s, pat, i)
  }

  lemma {:induction false} RemoveAllAvoided(s: string, pat: string)
    requires |pat| > 0 && Avoids(s, pat)
    ensures RemoveAll(s, pat) == s
    decreases |s|
  {
    if |s| >= |pat| {
      assert !MatchAt(s, pat, 0);
      assert s[0..|pat|] == s[..|pat|];
      forall i ensures !MatchAt(s[1..], pat, i) {
        assert !MatchAt(s, pat, i + 1);
        if 0 <= i && i + |pat| <= |s[1..]| {
          assert s[1..][i..i + |pat|] == s[i + 1..i + 1 + |pat|];
        }
      }
      RemoveAllAvoided(s[1..], pat);
      assert [s[0]] + s[1..] == s;
    }
  }

  /** No underscore of `s` follows a `B`, so `DB_` cannot occur in it. */
  lemma AvoidsDBWhenNoBUnderscore(s: string)
    requires forall k :: 0 < k < |s| ==> s[k] != '_' || s[k - 1] != 'B'
    ensures Avoids(s, "DB_")
  {
    forall i ensures !MatchAt(s, "DB_", i) {
      if 0 <= i && i + 3 <= |s| {
        var w := s[i..i + 3];
        assert w[1] == s[i + 1] && w[2] == s[i + 2];
        assert s[i + 2] != '_' || s[i + 1] != 'B';
      }
    }
  }

  lemma RemoveAllLeading(pat: string, s: string)
    requires |pat| > 0
    ensures RemoveAll(pat + s, pat) == RemoveAll(s, pat)
  {
    assert (pat + s)[..|pat|] == pat;
    assert (pat + s)[|pat|..] == s;
  }

  lemma DigitsHaveNoUnderscore(d: string)
    requires AllDigits(d)
    ensures '_' !in d
  {
    forall k | 0 <= k < |d| ensures d[k] != '_' {
      assert IsDigit(d[k]);
    }
  }

  /** The text of a natural number casts back to it. */
  lemma ToIntOfNatToString(n: nat)
    ensures ToInt(NatToString(n)) == n
  {
    var s := NatToString(n);
    assert s[0] !in NumericBlank && s[0] != '-' && s[0] != '+';
    assert TrimLeft(s, NumericBlank) == s;
    DigitPrefixOfDigits(s);
    DigitsValueOfNatToString(n);
  }

  lemma {:induction false} DigitPrefixOfDigits(s: string)
    requires AllDigits(s)
    ensures DigitPrefix(s) == s
  {
    if s != [] {
      DigitPrefixOfDigits(s[1..]);
      assert [s[0]] + s[1..] == s;
    }
  }

  /** `<digits>_<field>` with an underscore-free field holds no `DB_`. */
  lemma DigitsFieldAvoidsDB(d: string, f: string)
    requires |d| >= 1 && AllDigits(d) && '_' !in f
    ensures Avoids(d + "_" + f, "DB_")
  {
    var t := d + "_" + f;
    forall k | 0 < k < |t| ensures t[k] != '_' || t[k - 1] != 'B' {
      if k < |d| {
        assert t[k] == d[k] && IsDigit(d[k]);
      } else if k > |d| {
        assert t[k] == f[k - |d| - 1];
      } else {
        assert t[k - 1] == d[|d| - 1] && IsDigit(d[|d| - 1]);
      }
    }
    AvoidsDBWhenNoBUnderscore(t);
  }

  /**
   * With the default prefix, `DB_DB_<id>_<FIELD>` loses both `DB_`s, leaves two
   * parts and configures nothing.
   */
  lemma {:induction false} DoubledPrefixKeyIgnored(id: nat, field: string, value: string, config: Sections)
    requires '_' !in field
    ensures ParseEnvKey("DB_DB_" + NatToString(id) + "_" + field, value, config) == config
  {
    var d := NatToString(id);
    var rest := d + "_" + field;
    assert "DB_DB_" + d + "_" + field == "DB_" + ("DB_" + rest);
    RemoveAllLeading("DB_", "DB_" + rest);
    RemoveAllLeading("DB_", rest);
    DigitsFieldAvoidsDB(d, field);
    RemoveAllAvoided(rest, "DB_");
    DigitsHaveNoUnderscore(d);
    SplitAt('_', d, field);
    SplitWhole('_', field);
    assert |EnvKeyParts("DB_DB_" + d + "_" + field)| == 2;
  }

  /** `TABLE_<digits>_NAME` holds no `DB_`. */
  lemma TableKeyAvoidsDB(d: string)
    requires |d| >= 1 && AllDigits(d)
    ensures Avoids("TABLE_" + d + "_NAME", "DB_")
  {
    var t := "TABLE_" + d + "_NAME";
    forall k | 0 < k < |t| ensures t[k] != '_' || t[k - 1] != 'B' {
      if k < 5 {
        assert t[k] == "TABLE"[k];
      } else if k == 5 {
        assert t[k - 1] == 'E';
      } else if k < 6 + |d| {
        assert t[k] == d[k - 6] && IsDigit(d[k - 6]);
      } else if k == 6 + |d| {
        assert t[k - 1] == d[|d| - 1] && IsDigit(d[|d| - 1]);
      } else {
        assert t[k] == "NAME"[k - 7 - |d|];
      }
    }
    AvoidsDBWhenNoBUnderscore(t);
  }

  lemma TableKeyLosesPrefix(d: string)
    requires |d| >= 1 && AllDigits(d)
    ensures RemoveAll("DB_TABLE_" + d + "_NAME", "DB_") == "TABLE_" + d + "_NAME"
  {
    var rest := "TABLE_" + d + "_NAME";
    assert "DB_TABLE_" + d + "_NAME" == "DB_" + rest;
    RemoveAllLeading("DB_", rest);
    TableKeyAvoidsDB(d);
    RemoveAllAvoided(rest, "DB_");
  }

  lemma TableKeySplits(d: string)
    requires |d| >= 1 && AllDigits(d)
    ensures Split("TABLE_" + d + "_NAME", '_') == ["TABLE", d, "NAME"]
  {
    DigitsHaveNoUnderscore(d);
    assert "TABLE_" + d + "_NAME" == "TABLE" + "_" + (d + "_" + "NAME");
    SplitAt('_', "TABLE", d + "_" + "NAME");
    SplitAt('_', d, "NAME");
    SplitWhole('_', "NAME");
  }

  lemma LowerTableName()
    ensures Lower("TABLE") == "table" && Lower("NAME") == "name"
  {
    assert Lower("E") == "e";
    assert Lower("LE") == "le";
    assert Lower("BLE") == "ble";
    assert Lower("ABLE") == "able";
    assert Lower("AME") == "ame";
  }

  /** `DB_TABLE_<id>_NAME=<value>` stores `value` as the name of table `id`. */
  lemma {:induction false} TableKeyStoresName(id: nat, value: string, config: Sections)
    ensures ParseEnvKey("DB_TABLE_" + NatToString(id) + "_NAME", value, config)
            == config.(tables := Set(config.tables, IntKey(id), VStr(value)))
  {
    var d := NatToString(id);
    TableKeyLosesPrefix(d);
    TableKeySplits(d);
    var parts := EnvKeyParts("DB_TABLE_" + d + "_NAME");
    assert parts == ["TABLE", d, "NAME"];
    LowerTableName();
    ToIntOfNatToString(id);
    assert Lower(parts[0]) == "table" && Lower(parts[2]) == "name" && ToInt(parts[1]) == id;
  }
}
