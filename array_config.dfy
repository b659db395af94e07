/**
 * The configuration the layer reads: three sections, `databases` (id ->
 * connection descriptor), `tables` (table id -> table name) and `db_mapping`
 * (database id -> logical database name). `ArrayDatabaseConfig` takes them
 * from a PHP array; the environment-based configuration builds the same
 * array and shares the getters defined here.
 */
module ArrayConfig {
  import opened Php

  /** The sections `validate` insists on, in the order it checks them. */
  const RequiredSections: seq<string> := ["databases", "tables", "db_mapping"]

  /** `isset($config[$name]) && is_array($config[$name])`. */
  predicate SectionIsArray(config: PArray, name: string) {
    Lookup(config, StrKey(name)).Some? && Lookup(config, StrKey(name)).value.VArr?
  }

  /**
   * `validate()`: the first required section that is missing or not an array
   * raises InvalidArgumentException naming it.
   */
  function ValidateSections(config: PArray, sections: seq<string>): (r: Result<bool>)
    ensures r.Ok? <==> forall s :: s in sections ==> SectionIsArray(config, s)
    ensures r.Ok? ==> r.value
    ensures r.Throw? ==> exists i :: 0 <= i < |sections| && !SectionIsArray(config, sections[i])
                           && r.fault == InvalidArgument("missing section: " + sections[i])
                           && forall j :: 0 <= j < i ==> SectionIsArray(config, sections[j])
  {
    if sections == [] then Ok(true)
    else if !SectionIsArray(config, sections[0]) then Throw(InvalidArgument("missing section: " + sections[0]))
    else
      var rest := ValidateSections(config, sections[1..]);
      assert rest.Throw? ==> exists i :: 1 <= i < |sections| && !SectionIsArray(config, sections[i])
                               && rest.fault == InvalidArgument("missing section: " + sections[i])
                               && forall j :: 0 <= j < i ==> SectionIsArray(config, sections[j]) by {
        if rest.Throw? {
          var i :| 0 <= i < |sections[1..]| && !SectionIsArray(config, sections[1..][i])
                   && rest.fault == InvalidArgument("missing section: " + sections[1..][i])
                   && forall j :: 0 <= j < i ==> SectionIsArray(config, sections[1..][j]);
          assert sections[1..][i] == sections[i + 1];
          forall j | 0 <= j < i + 1 ensures SectionIsArray(config, sections[j]) {
            if j > 0 { assert sections[j] == sections[1..][j - 1]; }
          }
        }
      }
      rest
  }

  /** The class that made a configuration object; only `ArrayDatabaseConfig` defines `getConfig`. */
  datatype ConfigClass = ArrayClass | EnvClass

  /** What calling `getConfig` on an `EnvDatabaseConfig` raises. */
  const UndefinedGetConfig: Fault := CallError("Call to undefined method EnvDatabaseConfig::getConfig()")

  /**
   * A configuration object; its constructor has checked the three sections.
   * Both classes keep the same array and answer the three getters alike.
   */
  datatype DatabaseConfig = DatabaseConfig(config: PArray, kind: ConfigClass) {

    /** What construction guarantees: every required section is an array. */
    predicate Valid() {
      forall s :: s in RequiredSections ==> SectionIsArray(config, s)
    }

    /** `$this->config[$name]`, an array once the object is valid. */
    function Section(name: string): PArray
      requires name in RequiredSections && Valid()
    {
      Lookup(config, StrKey(name)).value.a
    }

    /** `getDbInfo`: the descriptor of database `dbId`; declared to return an array. */
    function GetDbInfo(dbId: int): (r: Result<PArray>)
      requires Valid()
      ensures !IsSet(Section("databases"), IntKey(dbId)) <==> r.Throw? && r.fault.InvalidArgument?
      ensures r.Ok? ==> Lookup(Section("databases"), IntKey(dbId)) == Some(VArr(r.value))
      ensures IsSet(Section("databases"), IntKey(dbId)) && r.Throw? ==>
                r.fault.TypeError? && !Lookup(Section("databases"), IntKey(dbId)).value.VArr?
    {
      var section := Section("databases");
      if !IsSet(section, IntKey(dbId)) then Throw(InvalidArgument("database id not configured: " + IntToString(dbId)))
      else match Lookup(section, IntKey(dbId)).value
        case VArr(a) => Ok(a)
        case _ => Throw(TypeError("getDbInfo(): return value must be of type array"))
    }

    /** `getTableName`: the name of table `tableId`; declared to return a string. */
    function GetTableName(tableId: int): (r: Result<string>)
      requires Valid()
      ensures !IsSet(Section("tables"), IntKey(tableId)) <==> r.Throw? && r.fault.InvalidArgument?
      ensures r.Ok? ==> Stringify(Lookup(Section("tables"), IntKey(tableId)).value) == Some(r.value)
      ensures IsSet(Section("tables"), IntKey(tableId)) && Stringify(Lookup(Section("tables"), IntKey(tableId)).value).Some? ==>
                r == Ok(Stringify(Lookup(Section("tables"), IntKey(tableId)).value).value)
      ensures IsSet(Section("tables"), IntKey(tableId)) && r.Throw? ==>
                r.fault.TypeError? && Stringify(Lookup(Section("tables"), IntKey(tableId)).value).None?
    {
      StringEntry(Section("tables"), tableId, "table id not configured: ")
    }

    /** `getDbName`: the logical name of database `dbId`; declared to return a string. */
    function GetDbName(dbId: int): (r: Result<string>)
      requires Valid()
      ensures !IsSet(Section("db_mapping"), IntKey(dbId)) <==> r.Throw? && r.fault.InvalidArgument?
      ensures r.Ok? ==> Stringify(Lookup(Section("db_mapping"), IntKey(dbId)).value) == Some(r.value)
      ensures IsSet(Section("db_mapping"), IntKey(dbId)) && Stringify(Lookup(Section("db_mapping"), IntKey(dbId)).value).Some? ==>
                r == Ok(Stringify(Lookup(Section("db_mapping"), IntKey(dbId)).value).value)
      ensures IsSet(Section("db_mapping"), IntKey(dbId)) && r.Throw? ==>
                r.fault.TypeError? && Stringify(Lookup(Section("db_mapping"), IntKey(dbId)).value).None?
    {
      StringEntry(Section("db_mapping"), dbId, "database group id not configured: ")
    }

    /**
     * `getConfig()`: the array given at construction, for the array class;
     * the env class does not define the method, so the call is an Error.
     */
    function GetConfig(): (r: Result<PArray>)
      ensures r.Ok? <==> kind.ArrayClass?
      ensures r.Ok? ==> r.value == config
      ensures r.Throw? ==> r.fault == UndefinedGetConfig
    {
      if kind.ArrayClass? then Ok(config) else Throw(UndefinedGetConfig)
    }
  }

  /** `$section[$id]` returned through a `string` return type. */
  function StringEntry(section: PArray, id: int, missing: string): Result<string> {
    if !IsSet(section, IntKey(id)) then Throw(InvalidArgument(missing + IntToString(id)))
    else match Stringify(Lookup(section, IntKey(id)).value)
      case Some(s) => Ok(s)
      case None => Throw(TypeError("return value must be of type string"))
  }

  /** `new ArrayDatabaseConfig($config)`: keeps the array as given, once `validate` passes. */
  function NewArrayDatabaseConfig(config: PArray): (r: Result<DatabaseConfig>)
    ensures r.Ok? <==> forall s :: s in RequiredSections ==> SectionIsArray(config, s)
    ensures r.Ok? ==> r.value.Valid() && r.value.kind == ArrayClass && r.value.GetConfig() == Ok(config)
    ensures r.Throw? ==> r.fault.InvalidArgument?
  {
    var checked :- ValidateSections(config, RequiredSections);
    Ok(DatabaseConfig(config, ArrayClass))
  }

  /** An id absent from its section raises InvalidArgumentException from all three getters. */
  lemma UnconfiguredIdsThrow(c: DatabaseConfig, id: int)
    requires c.Valid()
    ensures IntKey(id) !in Keys(c.Section("databases")) ==> c.GetDbInfo(id).Throw?
    ensures IntKey(id) !in Keys(c.Section("tables")) ==> c.GetTableName(id).Throw?
    ensures IntKey(id) !in Keys(c.Section("db_mapping")) ==> c.GetDbName(id).Throw?
  {
  }
}
