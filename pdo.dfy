/**
 * `InjectablePdo`: the connection pool, the table-id arithmetic and the three
 * whitelisting gates every statement goes through — the field filter, the
 * condition normaliser and the ORDER BY validator. Each gate is a pure
 * function of the table's column list; the class methods fetch that list
 * through the shared column cache and are proved equal to the functions.
 */
module Pdo {
  import opened Php
  import opened ArrayConfig
  import opened ColumnCache

  /** The operators a condition may use unless the caller passes its own list. */
  const DefaultAllowedOperators: seq<string> :=
    ["=", "!=", ">", "<", ">=", "<=", "LIKE", "IN", "NOT IN", "IS NULL", "IS NOT NULL"]

  // ---------------------------------------------------------------------------
  // Table ids

  /** `(int)substr((string)$tableId, 0, 1)`: the database id is the leading digit. */
  function DbidFromTableId(tableId: int): int {
    ToInt(IntToString(tableId)[..1])
  }

  lemma LeadingDigitToInt(c: char)
    requires IsDigit(c)
    ensures ToInt([c]) == DigitValue(c)
  {
    var s := [c];
    assert c !in NumericBlank;
    assert TrimLeft(s, NumericBlank) == s;
    assert s[1..] == [];
    assert DigitPrefix(s) == s;
    assert s[..0] == [];
    assert DigitsValue(s) == DigitValue(c);
  }

  /** A non-negative id maps to its first decimal digit; a negative one to 0 (the sign). */
  lemma DbidIsLeadingDigit(tableId: int)
    ensures tableId < 0 ==> DbidFromTableId(tableId) == 0
    ensures tableId >= 0 ==> 0 <= DbidFromTableId(tableId) <= 9
                             && DbidFromTableId(tableId) == DigitValue(NatToString(tableId)[0])
  {
    if tableId >= 0 {
      var s := NatToString(tableId);
      assert s[..1] == [s[0]];
      LeadingDigitToInt(s[0]);
    } else {
      var t := IntToString(tableId)[..1];
      assert t == "-";
      assert '-' !in NumericBlank;
      assert TrimLeft(t, NumericBlank) == t;
      assert t[1..] == [];
      assert DigitPrefix(t[1..]) == "";
      assert DigitsValue("") == 0;
    }
  }

  /** The leading decimal digit of `n`. */
  lemma {:induction false} LeadingDigitOfThreeDigits(n: nat)
    requires 100 <= n <= 999
    ensures NatToString(n)[0] == DigitChar(n / 100)
  {
    assert NatToString(n) == NatToString(n / 10) + [DigitChar(n % 10)];
    assert NatToString(n / 10) == NatToString(n / 100) + [DigitChar((n / 10) % 10)];
    assert n / 10 / 10 == n / 100;
    assert NatToString(n / 100) == [DigitChar(n / 100)];
  }

  /** The ids of the configuration's shape, three digits, map to their hundreds digit. */
  lemma DbidOfThreeDigitId(tableId: int)
    requires 100 <= tableId <= 999
    ensures DbidFromTableId(tableId) == tableId / 100
  {
    DbidIsLeadingDigit(tableId);
    LeadingDigitOfThreeDigits(tableId);
  }

  // ---------------------------------------------------------------------------
  // Connections

  /** What `new PDO(...)` is given: the DSN, the user and the password. */
  datatype Connection = Connection(dsn: string, user: Value, password: Value)

  /** `$dbInfo[$name]`: a missing entry reads as null. */
  function InfoField(info: PArray, name: string): Value {
    match Lookup(info, StrKey(name))
    case Some(v) => v
    case None => VNull
  }

  /** The MySQL DSN `getPdo` builds from a descriptor and the logical database name. */
  function Dsn(info: PArray, dbName: string): string {
    "mysql:host=" + Interpolate(InfoField(info, "host"))
    + ";port=" + Interpolate(InfoField(info, "port"))
    + ";dbname=" + dbName + ";charset=utf8mb4"
  }

  /** The connection `getPdo` opens for `dbid`, or the configuration error it raises first. */
  function Connect(config: DatabaseConfig, dbid: int): (r: Result<Connection>)
    requires config.Valid()
    ensures r.Ok? <==> config.GetDbInfo(dbid).Ok? && config.GetDbName(dbid).Ok?
    ensures r.Throw? && config.GetDbInfo(dbid).Ok? ==> r == Throw(config.GetDbName(dbid).fault)
    ensures r.Throw? && config.GetDbInfo(dbid).Throw? ==> r == Throw(config.GetDbInfo(dbid).fault)
    ensures r.Ok? ==> r.value.password == InfoField(config.GetDbInfo(dbid).value, "pw")
  {
    var info :- config.GetDbInfo(dbid);
    var name :- config.GetDbName(dbid);
    Ok(Connection(Dsn(info, name), InfoField(info, "user"), InfoField(info, "pw")))
  }

  /** The connection `pdoByTableId` hands back: the pooled one, else a fresh one. */
  function ConnectionFor(pool: map<int, Connection>, config: DatabaseConfig, tableId: int): (r: Result<Connection>)
    requires config.Valid()
    ensures DbidFromTableId(tableId) in pool ==> r == Ok(pool[DbidFromTableId(tableId)])
    ensures DbidFromTableId(tableId) !in pool ==> r == Connect(config, DbidFromTableId(tableId))
  {
    var dbid := DbidFromTableId(tableId);
    if dbid in pool then Ok(pool[dbid]) else Connect(config, dbid)
  }

  /** The pool after `pdoByTableId` answered `r`: the new connection is stored, nothing else moves. */
  predicate PoolAfter(before: map<int, Connection>, after: map<int, Connection>, tableId: int, r: Result<Connection>) {
    after == if r.Ok? then before[DbidFromTableId(tableId) := r.value] else before
  }

  /** The process-wide pool: one connection per database id, shared by every instance. */
  class ConnectionPool {
    var pool: map<int, Connection>

    constructor ()
      ensures pool == map[]
    {
      pool := map[];
    }
  }

  // ---------------------------------------------------------------------------
  // filterFields

  /** The name `filterFields` checks: the value under an int key, the key itself otherwise. */
  function FieldOf(e: Entry): Value {
    match e.key
    case IntKey(_) => e.val
    case StrKey(k) => VStr(k)
  }

  /** An entry whose name is a string, matches the identifier pattern and is a column. */
  predicate Admitted(cols: seq<string>, e: Entry) {
    FieldOf(e).VStr? && IsIdentifier(FieldOf(e).s) && FieldOf(e).s in cols
  }

  /** The name an entry stands for, "" when it has none. */
  function NameOf(e: Entry): string {
    if FieldOf(e).VStr? then FieldOf(e).s else ""
  }

  /** `trim()` handed an array. */
  const TrimArrayError: Fault := TypeError("trim(): array given")

  /** One step of `filterFields`: what the entry `e` does to the output built so far. */
  function Keep(cols: seq<string>, out: PArray, e: Entry): Result<PArray> {
    if !Admitted(cols, e) then Ok(out)
    else if e.key.IntKey? then Ok(out + [Entry(IntKey(CountIntKeys(out)), e.val)])
    else match Stringify(e.val)
      case Some(s) => Ok(Set(out, e.key, VStr(Trim(s))))
      case None => Throw(TrimArrayError)
  }

  /** `filterFields` over the column list `cols`, entry by entry in array order. */
  function Filtered(cols: seq<string>, data: PArray): Result<PArray>
    decreases |data|
  {
    if data == [] then Ok([])
    else
      var out :- Filtered(cols, data[..|data| - 1]);
      Keep(cols, out, data[|data| - 1])
  }

  /** The names of the admitted entries of `data`, in order. */
  function AdmittedNames(cols: seq<string>, data: PArray): seq<string>
    decreases |data|
  {
    if data == [] then []
    else AdmittedNames(cols, data[..|data| - 1])
         + (if Admitted(cols, data[|data| - 1]) then [NameOf(data[|data| - 1])] else [])
  }

  /** The names the entries of `out` stand for, in order. */
  function Names(out: PArray): (ns: seq<string>)
    ensures |ns| == |out|
    decreases |out|
  {
    if out == [] then [] else Names(out[..|out| - 1]) + [NameOf(out[|out| - 1])]
  }

  /** One more entry is one more `Keep` step. */
  lemma FilteredStep(cols: seq<string>, data: PArray, i: nat)
    requires i < |data| && Filtered(cols, data[..i]).Ok?
    ensures Filtered(cols, data[..i + 1]) == Keep(cols, Filtered(cols, data[..i]).value, data[i])
  {
    assert data[..i + 1][..i] == data[..i];
  }

  /** Once the filter has thrown, later entries change nothing. */
  lemma {:induction false} FilteredThrowPersists(cols: seq<string>, data: PArray, i: nat)
    requires i <= |data| && Filtered(cols, data[..i]).Throw?
    ensures Filtered(cols, data) == Filtered(cols, data[..i])
    decreases |data| - i
  {
    if i < |data| {
      assert data[..i + 1][..i] == data[..i];
      FilteredThrowPersists(cols, data, i + 1);
    } else {
      assert data[..i] == data;
    }
  }

  /** Everything the filter keeps is a whitelisted column, under an int or a string key. */
  lemma {:induction false} FilteredSound(cols: seq<string>, data: PArray)
    ensures Filtered(cols, data).Ok? ==> forall e :: e in Filtered(cols, data).value ==> Admitted(cols, e)
    decreases |data|
  {
    if data != [] {
      var init := data[..|data| - 1];
      var e := data[|data| - 1];
      FilteredSound(cols, init);
      if Filtered(cols, init).Ok? && Admitted(cols, e) && e.key.StrKey? && Stringify(e.val).Some? {
        SetEntries(Filtered(cols, init).value, e.key, VStr(Trim(Stringify(e.val).value)));
      }
    }
  }

  /** The filter throws exactly when an admitted string key carries an array value. */
  predicate Poisoned(cols: seq<string>, e: Entry) {
    Admitted(cols, e) && e.key.StrKey? && e.val.VArr?
  }

  lemma KeepThrowsIff(cols: seq<string>, out: PArray, e: Entry)
    ensures Keep(cols, out, e).Throw? <==> Poisoned(cols, e)
    ensures Keep(cols, out, e).Throw? ==> Keep(cols, out, e).fault == TrimArrayError
  {
  }

  /** The filter throws exactly when an admitted string key carries an array value. */
  lemma {:induction false} FilteredThrowsIff(cols: seq<string>, data: PArray)
    ensures Filtered(cols, data).Throw? <==> exists j :: 0 <= j < |data| && Poisoned(cols, data[j])
    ensures Filtered(cols, data).Throw? ==> Filtered(cols, data).fault == TrimArrayError
    decreases |data|
  {
    if data != [] {
      var init := data[..|data| - 1];
      var e := data[|data| - 1];
      FilteredThrowsIff(cols, init);
      if Filtered(cols, init).Throw? {
        var j :| 0 <= j < |init| && Poisoned(cols, init[j]);
        assert data[j] == init[j];
      } else {
        assert Filtered(cols, data) == Keep(cols, Filtered(cols, init).value, e);
        KeepThrowsIff(cols, Filtered(cols, init).value, e);
        if Poisoned(cols, e) {
          assert data[|data| - 1] == e;
        } else {
          assert Filtered(cols, data).Ok?;
          forall j | 0 <= j < |data| ensures !Poisoned(cols, data[j]) {
            if j < |init| { assert data[j] == init[j]; }
          }
        }
      }
    }
  }

  /** The filter's output is empty exactly when no entry is admitted. */
  lemma {:induction false} FilteredEmptyIff(cols: seq<string>, data: PArray)
    requires Filtered(cols, data).Ok?
    ensures Filtered(cols, data).value == [] <==> forall j :: 0 <= j < |data| ==> !Admitted(cols, data[j])
    decreases |data|
  {
    if data != [] {
      var init := data[..|data| - 1];
      FilteredEmptyIff(cols, init);
      assert forall j :: 0 <= j < |init| ==> init[j] == data[j];
    }
  }

  /** A string key that survives carries the trimmed text of its input value. */
  predicate TrimmedFrom(data: PArray, e: Entry) {
    && Lookup(data, e.key).Some?
    && Stringify(Lookup(data, e.key).value).Some?
    && e.val == VStr(Trim(Stringify(Lookup(data, e.key).value).value))
  }

  /** Every string key the filter keeps comes from the input. */
  lemma {:induction false} FilteredStrKeysFromInput(cols: seq<string>, data: PArray)
    requires Filtered(cols, data).Ok?
    ensures forall x :: x in Filtered(cols, data).value && x.key.StrKey? ==> x.key in Keys(data)
    decreases |data|
  {
    if data != [] {
      var init := data[..|data| - 1];
      var e := data[|data| - 1];
      assert data == init + [e];
      assert Filtered(cols, data) == Keep(cols, Filtered(cols, init).value, e);
      FilteredStrKeysFromInput(cols, init);
      KeysOfPrefix(data, |init|);
      assert Keys(data)[|init|] == e.key;
      var out := Filtered(cols, init).value;
      assert forall k :: k in Keys(init) ==> k in Keys(data);
      if Admitted(cols, e) && e.key.StrKey? {
        SetEntries(out, e.key, VStr(Trim(Stringify(e.val).value)));
      }
      forall x | x in Filtered(cols, data).value && x.key.StrKey? ensures x.key in Keys(data) {
        if x !in out {
          assert x.key == e.key;
        }
      }
    }
  }

  /** The entry an admitted `e` adds (int keys take the next index). */
  function Kept(out: PArray, e: Entry): Entry
    requires e.key.IntKey? || Stringify(e.val).Some?
  {
    if e.key.IntKey? then Entry(IntKey(CountIntKeys(out)), e.val)
    else Entry(e.key, VStr(Trim(Stringify(e.val).value)))
  }

  /** With distinct input keys, every admitted entry appends exactly one entry. */
  lemma FilteredAppends(cols: seq<string>, data: PArray)
    requires data != [] && DistinctKeys(data) && Filtered(cols, data).Ok?
    ensures var init := data[..|data| - 1];
            var e := data[|data| - 1];
            && Filtered(cols, init).Ok?
            && (!Admitted(cols, e) ==> Filtered(cols, data).value == Filtered(cols, init).value)
            && (Admitted(cols, e) ==>
                  && (e.key.IntKey? || Stringify(e.val).Some?)
                  && Filtered(cols, data).value == Filtered(cols, init).value + [Kept(Filtered(cols, init).value, e)])
  {
    var init := data[..|data| - 1];
    var e := data[|data| - 1];
    var out := Filtered(cols, init).value;
    if Admitted(cols, e) && e.key.StrKey? {
      FilteredStrKeysFromInput(cols, init);
      assert e.key !in Keys(init) by {
        forall i | 0 <= i < |init| ensures Keys(init)[i] != e.key {
          assert Keys(init)[i] == data[i].key;
        }
      }
      assert e.key !in Keys(out) by {
        forall i | 0 <= i < |out| ensures Keys(out)[i] != e.key {
          assert Keys(out)[i] == out[i].key;
          assert out[i] in out;
        }
      }
      SetFresh(out, e.key, VStr(Trim(Stringify(e.val).value)));
    }
  }

  /** On an array with distinct keys the survivors keep their input order. */
  lemma {:induction false} FilteredKeepsOrder(cols: seq<string>, data: PArray)
    requires DistinctKeys(data) && Filtered(cols, data).Ok?
    ensures Names(Filtered(cols, data).value) == AdmittedNames(cols, data)
    decreases |data|
  {
    if data != [] {
      var init := data[..|data| - 1];
      var e := data[|data| - 1];
      assert DistinctKeys(init);
      FilteredAppends(cols, data);
      FilteredKeepsOrder(cols, init);
      if Admitted(cols, e) {
        var out := Filtered(cols, init).value;
        var out' := Filtered(cols, data).value;
        assert out'[..|out|] == out;
        assert NameOf(Kept(out, e)) == NameOf(e);
      }
    }
  }

  /** `$out[] = ...` numbers the surviving int-keyed entries 0, 1, 2, ... */
  predicate Renumbered(out: PArray) {
    forall j :: 0 <= j < |out| && out[j].key.IntKey? ==> out[j].key.i == CountIntKeys(out[..j])
  }

  /** On an array with distinct keys the int-keyed survivors are renumbered from 0. */
  lemma {:induction false} FilteredRenumbers(cols: seq<string>, data: PArray)
    requires DistinctKeys(data) && Filtered(cols, data).Ok?
    ensures Renumbered(Filtered(cols, data).value)
    decreases |data|
  {
    if data != [] {
      var init := data[..|data| - 1];
      var e := data[|data| - 1];
      assert DistinctKeys(init);
      FilteredAppends(cols, data);
      FilteredRenumbers(cols, init);
      if Admitted(cols, e) {
        var out := Filtered(cols, init).value;
        var out' := Filtered(cols, data).value;
        forall j | 0 <= j < |out'| && out'[j].key.IntKey? ensures out'[j].key.i == CountIntKeys(out'[..j]) {
          assert out'[..j] == if j < |out| then out[..j] else out;
        }
      }
    }
  }

  /** On an array with distinct keys every string-keyed survivor holds its trimmed input value. */
  lemma {:induction false} FilteredTrims(cols: seq<string>, data: PArray)
    requires DistinctKeys(data) && Filtered(cols, data).Ok?
    ensures forall x :: x in Filtered(cols, data).value && x.key.StrKey? ==> TrimmedFrom(data, x)
    decreases |data|
  {
    if data != [] {
      var init := data[..|data| - 1];
      var e := data[|data| - 1];
      assert DistinctKeys(init);
      assert data == init + [e];
      FilteredAppends(cols, data);
      FilteredTrims(cols, init);
      FilteredStrKeysFromInput(cols, init);
      var out := Filtered(cols, init).value;
      forall x | x in Filtered(cols, data).value && x.key.StrKey? ensures TrimmedFrom(data, x) {
        if x in out {
          LookupInPrefix(init, [e], x.key);
        } else {
          assert x == Kept(out, e);
          assert e.key !in Keys(init) by {
            forall i | 0 <= i < |init| ensures Keys(init)[i] != e.key {
              assert Keys(init)[i] == data[i].key;
            }
          }
          LookupPastPrefix(init, [e], e.key);
        }
      }
    }
  }

  // ---------------------------------------------------------------------------
  // normalizeCondition

  /** A normalised condition: field, operator and value, as `normalizeCondition` returns them. */
  datatype Condition = Condition(field: Value, operator: string, value: Value)

  /** `$a[$k]` on an array: a missing entry reads as null. */
  function Item(a: PArray, k: Key): Value {
    match Lookup(a, k)
    case Some(v) => v
    case None => VNull
  }

  /** The key as a value, as `'field' => $key` stores it. */
  function KeyValue(k: Key): Value {
    match k
    case IntKey(i) => VInt(i)
    case StrKey(s) => VStr(s)
  }

  /** The name `normalizeCondition` checks: a string key, else `$value[0]` when set. */
  function CandidateField(key: Key, value: Value): Value {
    match key
    case StrKey(s) => VStr(s)
    case IntKey(_) => if value.VArr? && IsSet(value.a, IntKey(0)) then Item(value.a, IntKey(0)) else VNull
  }

  /** The candidate passes the identifier pattern; only then is the column list fetched. */
  predicate PatternPasses(key: Key, value: Value) {
    CandidateField(key, value).VStr? && IsIdentifier(CandidateField(key, value).s)
  }

  /** The candidate passes the pattern and is a column. */
  predicate FieldChecked(cols: seq<string>, key: Key, value: Value) {
    PatternPasses(key, value) && CandidateField(key, value).s in cols
  }

  /** `[field, operator, value]`: three entries whose first two are strings. */
  predicate IsTriple(value: Value) {
    value.VArr? && |value.a| == 3 && Item(value.a, IntKey(0)).VStr? && Item(value.a, IntKey(1)).VStr?
  }

  /** `['field' => ..., 'value' => ..., 'operator' => ...]` with `field` and `value` set. */
  predicate IsFieldMap(value: Value) {
    value.VArr? && IsSet(value.a, StrKey("field")) && IsSet(value.a, StrKey("value"))
  }

  /** The operator kept when it is in the allowed list, "=" otherwise. */
  function CanonicalOperator(op: string, allowed: seq<string>): (r: string)
    ensures r in allowed || r == "="
    ensures op in allowed ==> r == op
  {
    if op in allowed then op else "="
  }

  /** `normalizeCondition` over the column list `cols`. */
  function Normalize(cols: seq<string>, key: Key, value: Value, allowed: seq<string>): (r: Result<Option<Condition>>)
    ensures r == Ok(None) <==> !FieldChecked(cols, key, value)
    ensures r.Throw? ==> FieldChecked(cols, key, value) && !IsTriple(value) && IsFieldMap(value)
                         && Lookup(value.a, StrKey("operator")).Some?
                         && Lookup(value.a, StrKey("operator")).value.VArr?
    ensures r.Ok? && r.value.Some? ==> r.value.value.operator in allowed || r.value.value.operator == "="
    ensures r.Ok? && r.value.Some? && !value.VArr? ==> r.value.value == Condition(KeyValue(key), "=", value)
    ensures FieldChecked(cols, key, value) && !IsTriple(value) && !IsFieldMap(value) ==>
              r == Ok(Some(Condition(KeyValue(key), "=", value)))
    ensures IsTriple(value) && FieldChecked(cols, key, value) ==>
              r.Ok? && r.value.Some? && r.value.value.field == Item(value.a, IntKey(0))
              && r.value.value.value == Item(value.a, IntKey(2))
              && r.value.value.operator == CanonicalOperator(Upper(Trim(Item(value.a, IntKey(1)).s)), allowed)
    ensures FieldChecked(cols, key, value) && !IsTriple(value) && IsFieldMap(value) && r.Ok? ==>
              var op := Stringify(LookupOr(value.a, StrKey("operator"), VStr("=")));
              && op.Some? && r.value.Some?
              && r.value.value.field == Item(value.a, StrKey("field"))
              && r.value.value.value == Item(value.a, StrKey("value"))
              && r.value.value.operator == CanonicalOperator(Upper(Trim(op.value)), allowed)
  {
    if !PatternPasses(key, value) then Ok(None)
    else if CandidateField(key, value).s !in cols then Ok(None)
    else if IsTriple(value) then
      var op := Upper(Trim(Item(value.a, IntKey(1)).s));
      Ok(Some(Condition(Item(value.a, IntKey(0)), CanonicalOperator(op, allowed), Item(value.a, IntKey(2)))))
    else if IsFieldMap(value) then
      match Stringify(LookupOr(value.a, StrKey("operator"), VStr("=")))
      case None => Throw(TrimArrayError)
      case Some(op) =>
        Ok(Some(Condition(Item(value.a, StrKey("field")), CanonicalOperator(Upper(Trim(op)), allowed),
                          Item(value.a, StrKey("value")))))
    else Ok(Some(Condition(KeyValue(key), "=", value)))
  }

  /** `['id' => [1, 2, 3]]`: a plain list under a checked key is compared whole with `=`, the key as field. */
  lemma NormalizePlainListUnderKey(list: Value)
    requires list == VArr([Entry(IntKey(0), VInt(1)), Entry(IntKey(1), VInt(2)), Entry(IntKey(2), VInt(3))])
    ensures Normalize(["id"], StrKey("id"), list, DefaultAllowedOperators) == Ok(Some(Condition(VStr("id"), "=", list)))
  {
    assert FieldChecked(["id"], StrKey("id"), list) by {
      assert IdentBody("id");
    }
    assert Item(list.a, IntKey(0)) == VInt(1);
    assert !IsSet(list.a, StrKey("field"));
  }

  /**
   * A string key with a scalar value, or an int key with a triple, yields a
   * field that was checked against the whitelist.
   */
  lemma NormalizedFieldIsChecked(cols: seq<string>, key: Key, value: Value, allowed: seq<string>)
    requires Normalize(cols, key, value, allowed).Ok? && Normalize(cols, key, value, allowed).value.Some?
    requires (key.StrKey? && !value.VArr?) || (key.IntKey? && IsTriple(value))
    ensures var c := Normalize(cols, key, value, allowed).value.value;
            c.field.VStr? && IsIdentifier(c.field.s) && c.field.s in cols
  {
    if key.IntKey? {
      assert IsSet(value.a, IntKey(0));
    }
  }

  /**
   * The string key is what is checked, but a triple or a field map under it
   * supplies the field that is returned, unchecked.
   */
  lemma NormalizeReturnsUncheckedField(payload: string, value: Value)
    requires payload == "x` OR 1=1 -- "
    requires value == VArr([Entry(IntKey(0), VStr(payload)), Entry(IntKey(1), VStr("=")), Entry(IntKey(2), VInt(1))])
    ensures Normalize(["id"], StrKey("id"), value, DefaultAllowedOperators) == Ok(Some(Condition(VStr(payload), "=", VInt(1))))
    ensures payload !in ["id"] && !IsIdentifier(payload)
  {
    TripleUnderCheckedKey(["id"], StrKey("id"), value, VStr(payload), VInt(1));
    PayloadIsNoColumn(payload);
  }

  lemma PayloadIsNoColumn(payload: string)
    requires payload == "x` OR 1=1 -- "
    ensures payload !in ["id"] && !IsIdentifier(payload)
  {
    assert payload[1] == '`' && !IdentPart('`');
    assert payload[|payload| - 1] == ' ';
    assert payload != "id" by {
      assert |payload| != 2;
    }
  }

  /** A triple with operator `=` under a checked key compares its own first item with `=`. */
  lemma TripleUnderCheckedKey(cols: seq<string>, key: Key, value: Value, field: Value, v: Value)
    requires key == StrKey("id") && cols == ["id"] && field.VStr?
    requires value == VArr([Entry(IntKey(0), field), Entry(IntKey(1), VStr("=")), Entry(IntKey(2), v)])
    ensures Normalize(cols, key, value, DefaultAllowedOperators) == Ok(Some(Condition(field, "=", v)))
  {
    assert FieldChecked(cols, key, value) by {
      assert IdentBody("id");
    }
    assert Item(value.a, IntKey(0)) == field && Item(value.a, IntKey(1)) == VStr("=")
           && Item(value.a, IntKey(2)) == v by {
      TripleEntries(value.a, field, VStr("="), v);
    }
    assert CanonicalOperator(Upper(Trim("=")), DefaultAllowedOperators) == "=" by {
      EqualsSignCanonical("=");
    }
  }

  /** What a three-element list holds at 0, 1 and 2. */
  lemma TripleEntries(a: PArray, x: Value, y: Value, z: Value)
    requires a == [Entry(IntKey(0), x), Entry(IntKey(1), y), Entry(IntKey(2), z)]
    ensures Item(a, IntKey(0)) == x && Item(a, IntKey(1)) == y && Item(a, IntKey(2)) == z
  {
    assert a[1..][0] == a[1] && a[1..][1..] == a[2..] && a[2..][0] == a[2];
    assert Lookup(a[1..], IntKey(1)) == Some(y);
    assert Lookup(a[2..], IntKey(2)) == Some(z);
    assert Lookup(a[1..], IntKey(2)) == Some(z);
  }

  /** A field map without an `operator` entry (or with a null one) compares with `=`. */
  lemma FieldMapOperatorDefaults(cols: seq<string>, key: Key, value: Value, allowed: seq<string>)
    requires FieldChecked(cols, key, value) && !IsTriple(value) && IsFieldMap(value)
    requires !IsSet(value.a, StrKey("operator"))
    ensures Normalize(cols, key, value, allowed).Ok?
    ensures Normalize(cols, key, value, allowed).value == Some(Condition(Item(value.a, StrKey("field")), "=",
                                                                        Item(value.a, StrKey("value"))))
  {
    assert LookupOr(value.a, StrKey("operator"), VStr("=")) == VStr("=");
    assert CanonicalOperator(Upper(Trim("=")), allowed) == "=" by {
      EqualsSignCanonical("=");
    }
  }

  /** `strtoupper(trim('='))` is `=`. */
  lemma EqualsSignCanonical(eq: string)
    requires eq == "="
    ensures Upper(Trim(eq)) == eq
  {
    assert '=' !in Whitespace;
    TrimCharsUnchanged(eq, Whitespace);
    assert Upper(eq[1..]) == [];
  }

  /** `['field' => 'status', 'value' => 1, 'operator' => $op]` under the key `status`. */
  function StatusMap(op: string): Value {
    VArr([Entry(StrKey("field"), VStr("status")), Entry(StrKey("value"), VInt(1)), Entry(StrKey("operator"), VStr(op))])
  }

  /** Under a checked key, a field map yields its field and value with the canonical operator. */
  lemma StatusMapNormalizes(op: string, allowed: seq<string>)
    ensures Normalize(["status"], StrKey("status"), StatusMap(op), allowed)
              == Ok(Some(Condition(VStr("status"), CanonicalOperator(Upper(Trim(op)), allowed), VInt(1))))
  {
    var value := StatusMap(op);
    assert FieldChecked(["status"], StrKey("status"), value) by {
      assert IdentBody("status");
    }
    assert && !IsTriple(value) && IsFieldMap(value) && Lookup(value.a, StrKey("operator")) == Some(VStr(op))
           && Item(value.a, StrKey("field")) == VStr("status") && Item(value.a, StrKey("value")) == VInt(1) by {
      StatusMapEntries(op);
    }
    FieldMapResult(["status"], StrKey("status"), value, allowed, VStr("status"), VInt(1), op);
  }

  /** A checked field map whose operator is a string: its field, its value, and that operator made canonical. */
  lemma FieldMapResult(cols: seq<string>, key: Key, value: Value, allowed: seq<string>, field: Value, v: Value,
                       op: string)
    requires FieldChecked(cols, key, value) && !IsTriple(value) && IsFieldMap(value)
    requires Lookup(value.a, StrKey("operator")) == Some(VStr(op))
    requires Item(value.a, StrKey("field")) == field && Item(value.a, StrKey("value")) == v
    ensures Normalize(cols, key, value, allowed) == Ok(Some(Condition(field, CanonicalOperator(Upper(Trim(op)), allowed), v)))
  {
    assert LookupOr(value.a, StrKey("operator"), VStr("=")) == VStr(op);
  }

  /** What `StatusMap(op)` holds under each key `normalizeCondition` reads. */
  lemma StatusMapEntries(op: string)
    ensures var a := StatusMap(op).a;
            && Item(a, IntKey(0)) == VNull
            && Item(a, StrKey("field")) == VStr("status")
            && Item(a, StrKey("value")) == VInt(1)
            && Lookup(a, StrKey("operator")) == Some(VStr(op))
            && LookupOr(a, StrKey("operator"), VStr("=")) == VStr(op)
            && IsSet(a, StrKey("field")) && IsSet(a, StrKey("value"))
  {
    var a := StatusMap(op).a;
    assert a[1..][0] == a[1] && a[1..][1..] == [a[2]];
    assert Lookup(a[1..], StrKey("value")) == Some(VInt(1));
    assert Lookup(a[1..][1..], StrKey("operator")) == Some(VStr(op));
    assert Lookup(a[1..], StrKey("operator")) == Some(VStr(op));
  }

  lemma TrimUpperSpacedIn(op: string)
    requires op == " in "
    ensures Upper(Trim(op)) == "IN"
  {
    assert TrimLeft(op, Whitespace) == "in ";
    assert TrimRight("in ", Whitespace) == "in";
    UpperAt("in");
  }

  lemma TrimUpperDrop(op: string)
    requires op == "DROP"
    ensures Upper(Trim(op)) == "DROP"
  {
    TrimCharsUnchanged(op, Whitespace);
    UpperAt(op);
  }

  /** A field map's operator is trimmed and upper-cased: `" in "` becomes `IN`. */
  lemma FieldMapOperatorIn(op: string, allowed: seq<string>)
    requires op == " in " && allowed == DefaultAllowedOperators
    ensures Normalize(["status"], StrKey("status"), StatusMap(op), allowed)
              == Ok(Some(Condition(VStr("status"), "IN", VInt(1))))
  {
    assert CanonicalOperator(Upper(Trim(op)), allowed) == "IN" by {
      TrimUpperSpacedIn(op);
      assert allowed[7] == "IN";
    }
    StatusMapNormalizes(op, allowed);
  }

  /** An operator outside the allowed list, such as `DROP`, becomes `=`. */
  lemma FieldMapOperatorRefused(op: string, allowed: seq<string>)
    requires op == "DROP" && allowed == DefaultAllowedOperators
    ensures Normalize(["status"], StrKey("status"), StatusMap(op), allowed)
              == Ok(Some(Condition(VStr("status"), "=", VInt(1))))
  {
    assert CanonicalOperator(Upper(Trim(op)), allowed) == "=" by {
      TrimUpperDrop(op);
      DropNotAllowed(allowed);
    }
    StatusMapNormalizes(op, allowed);
  }

  lemma DropNotAllowed(allowed: seq<string>)
    requires allowed == DefaultAllowedOperators
    ensures "DROP" !in allowed
  {
    forall i | 0 <= i < |allowed| ensures allowed[i] != "DROP" {
      assert allowed[i][0] != 'D';
    }
  }

  /** An int key with a two-element list passes the check on `[0]` but yields the key itself as field. */
  lemma NormalizeListFallsBackToKey()
    ensures var value := VArr([Entry(IntKey(0), VStr("name")), Entry(IntKey(1), VStr("bob"))]);
            Normalize(["name"], IntKey(0), value, DefaultAllowedOperators)
              == Ok(Some(Condition(VInt(0), "=", value)))
  {
    var a := [Entry(IntKey(0), VStr("name")), Entry(IntKey(1), VStr("bob"))];
    assert Item(a, IntKey(0)) == VStr("name");
    assert IsIdentifier("name") by { assert IdentBody("name"); }
    assert !IsSet(a, StrKey("field"));
  }

  // ---------------------------------------------------------------------------
  // validateOrder

  /** The first column, or `id` when the list is empty. */
  function FallbackColumn(cols: seq<string>): string {
    if cols != [] then cols[0] else "id"
  }

  /** The blank-separated parts of a trimmed order request. */
  function RequestParts(o: string): seq<string> {
    Split(Trim(o), ' ')
  }

  /** The requested column: the first part with its backticks trimmed. */
  function RequestedField(o: string): string
    requires |RequestParts(o)| == 2
  {
    TrimChars(RequestParts(o)[0], {'`'})
  }

  /**
   * A request `validateOrder` honours: exactly two parts, a direction that
   * upper-cases to ASC or DESC, and a known column once backticks are trimmed.
   */
  predicate Honoured(cols: seq<string>, o: string) {
    && |RequestParts(o)| == 2
    && Upper(RequestParts(o)[1]) in ["ASC", "DESC"]
    && RequestedField(o) in cols
  }

  /**
   * The column and direction `validateOrder` settles on, or None when it
   * returns the empty string (no order given and no columns known).
   */
  function OrderChoice(cols: seq<string>, order: Option<string>): (r: Option<(string, string)>)
    ensures order.None? && cols != [] ==> r == Some((cols[0], "DESC"))
    ensures order.Some? && !Honoured(cols, order.value) ==> r == Some((FallbackColumn(cols), "DESC"))
    ensures order.Some? && Honoured(cols, order.value) ==>
              r == Some((RequestedField(order.value), RequestParts(order.value)[1]))
    ensures r.None? <==> order.None? && cols == []
    ensures r.Some? ==> r.value.0 in cols || (cols == [] && r.value.0 == "id")
    ensures r.Some? ==> r.value.1 == "DESC" || Upper(r.value.1) in ["ASC", "DESC"]
    ensures r.Some? && r.value.0 !in cols ==> r.value == ("id", "DESC")
  {
    match order
    case None => if cols == [] then None else Some((cols[0], "DESC"))
    case Some(o) =>
      var parts := Split(Trim(o), ' ');
      if |parts| != 2 || Upper(parts[1]) !in ["ASC", "DESC"] then Some((FallbackColumn(cols), "DESC"))
      else
        var field := TrimChars(parts[0], {'`'});
        if field !in cols then Some((FallbackColumn(cols), "DESC"))
        else Some((field, parts[1]))
  }

  /** `validateOrder` over the column list `cols`. */
  function OrderClause(cols: seq<string>, order: Option<string>): (r: string)
    ensures r == "" <==> order.None? && cols == []
    ensures r != "" ==> OrderChoice(cols, order).Some?
                        && r == "ORDER BY `" + OrderChoice(cols, order).value.0 + "` " + OrderChoice(cols, order).value.1
  {
    match OrderChoice(cols, order)
    case None => ""
    case Some((f, d)) => "ORDER BY `" + f + "` " + d
  }

  lemma UpperOfDirections()
    ensures Upper("ASC") == "ASC" && Upper("DESC") == "DESC"
    ensures Upper("asc") == "ASC" && Upper("desc") == "DESC"
  {
    assert Upper("C") == "C";
    assert Upper("SC") == "SC";
    assert Upper("ESC") == "ESC";
    assert Upper("c") == "C";
    assert Upper("sc") == "SC";
    assert Upper("esc") == "ESC";
  }

  /** `"<field> <dir>"` splits at its single blank. */
  lemma SplitRequest(field: string, dir: string)
    requires ' ' !in field && ' ' !in dir
    ensures Split(field + " " + dir, ' ') == [field, dir]
  {
    assert field + " " + dir == field + [' '] + dir;
    SplitAt(' ', field, dir);
    SplitWhole(' ', dir);
  }

  /** `strtoupper` leaves whitespace alone, so a non-blank upper-case came from a non-blank. */
  lemma NonBlankBeforeUpper(c: char)
    requires UpperChar(c) !in Whitespace
    ensures c !in Whitespace
  {
  }

  lemma DirectionsHaveNoWhitespace(u: string)
    requires u in ["ASC", "DESC"]
    ensures |u| >= 3 && forall i :: 0 <= i < |u| ==> u[i] !in Whitespace
  {
    if u == "ASC" {
      assert u[0] == 'A' && u[1] == 'S' && u[2] == 'C';
    } else {
      assert u[0] == 'D' && u[1] == 'E' && u[2] == 'S' && u[3] == 'C';
    }
  }

  /** A direction that upper-cases to ASC or DESC has no blank and does not end in whitespace. */
  lemma DirectionShape(dir: string)
    requires Upper(dir) in ["ASC", "DESC"]
    ensures dir != [] && dir[|dir| - 1] !in Whitespace && ' ' !in dir
  {
    var u := Upper(dir);
    DirectionsHaveNoWhitespace(u);
    UpperAt(dir);
    forall i | 0 <= i < |dir| ensures dir[i] !in Whitespace {
      NonBlankBeforeUpper(dir[i]);
    }
    BlankIsWhitespace();
  }

  lemma BlankIsWhitespace()
    ensures ' ' in Whitespace
  {
  }

  /**
   * A request `"<field> <direction>"` is honoured as written: the field,
   * stripped of backticks, is used when it names a known column, and the
   * direction keeps its own spelling in any mix of case.
   */
  lemma OrderChoiceHonoursValidRequest(cols: seq<string>, field: string, dir: string)
    requires field != [] && field[0] !in Whitespace && ' ' !in field
    requires TrimChars(field, {'`'}) in cols
    requires Upper(dir) in ["ASC", "DESC"]
    ensures OrderChoice(cols, Some(field + " " + dir)) == Some((TrimChars(field, {'`'}), dir))
  {
    var o := field + " " + dir;
    DirectionShape(dir);
    assert o[0] == field[0] && o[|o| - 1] == dir[|dir| - 1];
    TrimCharsUnchanged(o, Whitespace);
    SplitRequest(field, dir);
    assert RequestParts(o) == [field, dir];
  }

  /** With no order given, the first column, descending. */
  lemma OrderDefaultExample()
    ensures OrderClause(["id", "name"], None) == "ORDER BY `id` DESC"
  {
  }

  /** A well-formed request for a known column is used as written. */
  lemma OrderHonouredExample(cols: seq<string>, order: string)
    requires cols == ["id", "name"] && order == "name ASC"
    ensures OrderClause(cols, Some(order)) == "ORDER BY `name` ASC"
  {
    assert OrderChoice(cols, Some(order)) == Some(("name", "ASC")) by {
      assert order == "name" + " " + "ASC";
      TrimCharsUnchanged("name", {'`'});
      UpperOfDirections();
      OrderChoiceHonoursValidRequest(cols, "name", "ASC");
    }
    OrderText("name", "ASC", "ORDER BY `name` ASC");
  }

  /** The text of an ORDER BY clause for a literal column and direction. */
  lemma OrderText(f: string, d: string, text: string)
    requires (f, d, text) in {("name", "ASC", "ORDER BY `name` ASC"), ("name", "Asc", "ORDER BY `name` Asc"),
                              ("id", "DESC", "ORDER BY `id` DESC")}
    ensures "ORDER BY `" + f + "` " + d == text
  {
  }

  lemma BacktickedName(field: string)
    requires field == "`name`"
    ensures TrimChars(field, {'`'}) == "name"
  {
    assert TrimLeft(field, {'`'}) == "name`";
    assert TrimRight("name`", {'`'}) == "name";
  }

  lemma MixedCaseAsc(dir: string)
    requires dir == "Asc"
    ensures Upper(dir) == "ASC"
  {
    UpperAt(dir);
  }

  /** Backticks around the field are stripped, and a mixed-case direction is kept as written. */
  lemma OrderBacktickedExample(cols: seq<string>, order: string)
    requires cols == ["id", "name"] && order == "`name` Asc"
    ensures OrderClause(cols, Some(order)) == "ORDER BY `name` Asc"
  {
    assert OrderChoice(cols, Some(order)) == Some(("name", "Asc")) by {
      var field := "`name`";
      assert order == field + " " + "Asc";
      BacktickedName(field);
      MixedCaseAsc("Asc");
      OrderChoiceHonoursValidRequest(cols, field, "Asc");
    }
    OrderText("name", "Asc", "ORDER BY `name` Asc");
  }

  /** A request without a direction falls back to the first column, descending. */
  lemma OrderMalformedExample()
    ensures OrderClause(["id", "name"], Some("bogus")) == "ORDER BY `id` DESC"
  {
    var o := "bogus";
    TrimCharsUnchanged(o, Whitespace);
    assert ' ' !in o;
    SplitWhole(' ', o);
    assert |Split(Trim(o), ' ')| == 1;
  }

  /** A well-formed request for a column the table does not have falls back to the first column. */
  lemma OrderUnknownColumnExample(cols: seq<string>, order: string)
    requires cols == ["id", "name"] && order == "email ASC"
    ensures OrderClause(cols, Some(order)) == "ORDER BY `id` DESC"
  {
    assert !Honoured(cols, order) by {
      assert RequestParts(order) == ["email", "ASC"] by {
        assert order == "email" + " " + "ASC";
        assert order[0] == 'e' && order[|order| - 1] == 'C';
        TrimCharsUnchanged(order, Whitespace);
        SplitRequest("email", "ASC");
      }
      TrimCharsUnchanged("email", {'`'});
    }
    OrderText("id", "DESC", "ORDER BY `id` DESC");
  }

  // ---------------------------------------------------------------------------
  // The class

  class InjectablePdo {
    const config: DatabaseConfig
    /** The static `$pdoPool`, shared by every instance. */
    const connections: ConnectionPool
    /** The static column cache, shared by every instance. */
    const columns: TableColumnCache
    /** The database's metadata catalog, which the cache loads from. */
    const catalog: Catalog

    constructor (config: DatabaseConfig, connections: ConnectionPool, columns: TableColumnCache, catalog: Catalog)
      requires config.Valid()
      ensures this.config == config && this.connections == connections
      ensures this.columns == columns && this.catalog == catalog
    {
      this.config := config;
      this.connections := connections;
      this.columns := columns;
      this.catalog := catalog;
    }

    /** `getPdo`: the pooled connection of `dbid`, opened and pooled on first use. */
    method GetPdo(dbid: int) returns (r: Result<Connection>)
      requires config.Valid()
      modifies connections
      ensures dbid in old(connections.pool) ==>
                r == Ok(old(connections.pool)[dbid]) && connections.pool == old(connections.pool)
      ensures dbid !in old(connections.pool) ==> r == Connect(config, dbid)
      ensures dbid !in old(connections.pool) && r.Ok? ==> connections.pool == old(connections.pool)[dbid := r.value]
      ensures r.Throw? ==> connections.pool == old(connections.pool)
    {
      if dbid !in connections.pool {
        var info := config.GetDbInfo(dbid);
        if info.Throw? {
          return Throw(info.fault);
        }
        var name := config.GetDbName(dbid);
        if name.Throw? {
          return Throw(name.fault);
        }
        var conn := Connection(Dsn(info.value, name.value), InfoField(info.value, "user"), InfoField(info.value, "pw"));
        connections.pool := connections.pool[dbid := conn];
      }
      r := Ok(connections.pool[dbid]);
    }

    /** `pdoByTableId`: the connection of the database the id's leading digit names. */
    method PdoByTableId(tableId: int) returns (r: Result<Connection>)
      requires config.Valid()
      modifies connections
      ensures r == ConnectionFor(old(connections.pool), config, tableId)
      ensures PoolAfter(old(connections.pool), connections.pool, tableId, r)
    {
      r := GetPdo(DbidFromTableId(tableId));
    }

    /** `tableNameFromId`. */
    function TableNameFromId(tableId: int): (r: Result<string>)
      requires config.Valid()
      ensures r == config.GetTableName(tableId)
    {
      config.GetTableName(tableId)
    }

    /** `getTableColumns`: the table's columns through the shared cache. */
    method GetTableColumns(tableId: int) returns (cols: seq<string>)
      modifies columns
      ensures cols == Resolve(old(columns.cache), catalog, tableId)
      ensures Fetched(old(columns.cache), columns.cache, old(columns.loads), columns.loads, catalog, tableId)
    {
      cols := columns.Get(tableId, catalog);
    }

    /** `filterFields`: the whitelisted part of `data`, computed entry by entry. */
    method FilterFields(tableId: int, data: PArray) returns (r: Result<PArray>)
      modifies columns
      ensures r == Filtered(Resolve(old(columns.cache), catalog, tableId), data)
      ensures Fetched(old(columns.cache), columns.cache, old(columns.loads), columns.loads, catalog, tableId)
    {
      var cols := GetTableColumns(tableId);
      var out: PArray := [];
      var next: nat := 0;  // the index `$out[] = ...` assigns
      for i := 0 to |data|
        invariant Filtered(cols, data[..i]) == Ok(out)
        invariant next == CountIntKeys(out)
        invariant Fetched(old(columns.cache), columns.cache, old(columns.loads), columns.loads, catalog, tableId)
      {
        FilteredStep(cols, data, i);
        var k := data[i].key;
        var field := if k.IntKey? then data[i].val else VStr(k.s);
        if !field.VStr? || !IsIdentifier(field.s) {
          continue;
        }
        if field.s in cols {
          if k.IntKey? {
            var appended := out + [Entry(IntKey(next), field)];
            assert appended[..|out|] == out;
            assert Keep(cols, out, data[i]) == Ok(appended);
            CountIntKeysAppend(out, Entry(IntKey(next), field));
            out := appended;
            next := next + 1;
          } else {
            var s := Stringify(data[i].val);
            if s.None? {
              FilteredThrowPersists(cols, data, i + 1);
              return Throw(TrimArrayError);
            }
            assert Keep(cols, out, data[i]) == Ok(Set(out, k, VStr(Trim(s.value))));
            CountIntKeysSetStr(out, k, VStr(Trim(s.value)));
            out := Set(out, k, VStr(Trim(s.value)));
          }
        }
      }
      assert data[..|data|] == data;
      r := Ok(out);
    }

    /** `normalizeCondition`: the column list is fetched only for a candidate that passes the pattern. */
    method NormalizeCondition(tableId: int, key: Key, value: Value, allowed: seq<string>)
      returns (r: Result<Option<Condition>>)
      modifies columns
      ensures r == Normalize(Resolve(old(columns.cache), catalog, tableId), key, value, allowed)
      ensures PatternPasses(key, value) ==>
                Fetched(old(columns.cache), columns.cache, old(columns.loads), columns.loads, catalog, tableId)
      ensures !PatternPasses(key, value) ==> columns.cache == old(columns.cache) && columns.loads == old(columns.loads)
    {
      var field := if key.StrKey? then VStr(key.s)
                   else if value.VArr? && IsSet(value.a, IntKey(0)) then Item(value.a, IntKey(0))
                   else VNull;
      if !field.VStr? || !IsIdentifier(field.s) {
        return Ok(None);
      }
      var cols := GetTableColumns(tableId);
      if field.s !in cols {
        return Ok(None);
      }
      if IsTriple(value) {
        var op := Upper(Trim(Item(value.a, IntKey(1)).s));
        if op !in allowed {
          op := "=";
        }
        return Ok(Some(Condition(Item(value.a, IntKey(0)), op, Item(value.a, IntKey(2)))));
      } else if IsFieldMap(value) {
        var given := Stringify(LookupOr(value.a, StrKey("operator"), VStr("=")));
        if given.None? {
          return Throw(TrimArrayError);
        }
        var op := Upper(Trim(given.value));
        if op !in allowed {
          op := "=";
        }
        return Ok(Some(Condition(Item(value.a, StrKey("field")), op, Item(value.a, StrKey("value")))));
      } else {
        return Ok(Some(Condition(KeyValue(key), "=", value)));
      }
    }

    /** `validateOrder`: an ORDER BY clause naming a known column, or the fallback. */
    method ValidateOrder(tableId: int, order: Option<string>) returns (clause: string)
      modifies columns
      ensures clause == OrderClause(Resolve(old(columns.cache), catalog, tableId), order)
      ensures Fetched(old(columns.cache), columns.cache, old(columns.loads), columns.loads, catalog, tableId)
    {
      var cols := GetTableColumns(tableId);
      clause := OrderClause(cols, order);
    }
  }
}
