/**
 * The slice of PHP's runtime that the database layer leans on: loosely typed
 * values, ordered arrays with int-or-string keys, exceptions, and the string
 * builtins (trim, strtoupper, strtolower, explode, implode, str_replace,
 * casts and the identifier regular expression).
 */
module Php {

  datatype Option<+T> = None | Some(value: T)

  /** The exception classes the layer can raise. */
  datatype Fault =
    | InvalidArgument(detail: string)  // \InvalidArgumentException
    | Runtime(detail: string)          // \RuntimeException
    | TypeError(detail: string)        // \TypeError: a builtin or a typed parameter refused its argument
    | CallError(detail: string)        // \Error: a non-static method called statically, or one the class does not define

  /** A value, or the exception that interrupted its computation. */
  datatype Result<+T> = Ok(value: T) | Throw(fault: Fault) {
    predicate IsFailure() { Throw? }
    function PropagateFailure<U>(): Result<U>
      requires Throw?
    {
      Throw(fault)
    }
    function Extract(): T
      requires Ok?
    {
      value
    }
  }

  /** Array keys: PHP stores decimal integer strings as int keys. */
  datatype Key = IntKey(i: int) | StrKey(s: string)

  /** Loosely typed values (floats and objects do not occur in this layer). */
  datatype Value =
    | VNull
    | VBool(b: bool)
    | VInt(i: int)
    | VStr(s: string)
    | VArr(a: seq<Entry>)

  datatype Entry = Entry(key: Key, val: Value)

  /** An ordered PHP array: its entries in insertion order. */
  type PArray = seq<Entry>

  // ---------------------------------------------------------------------------
  // Arrays

  function Keys(a: PArray): (ks: seq<Key>)
    ensures |ks| == |a|
    ensures forall i :: 0 <= i < |a| ==> ks[i] == a[i].key
  {
    if a == [] then [] else [a[0].key] + Keys(a[1..])
  }

  /** Every key occurs once, as in every array PHP can build. */
  predicate DistinctKeys(a: PArray) {
    forall i, j :: 0 <= i < j < |a| ==> a[i].key != a[j].key
  }

  /** `$a[$k]` when the key exists. */
  function Lookup(a: PArray, k: Key): (r: Option<Value>)
    ensures r.Some? <==> k in Keys(a)
  {
    if a == [] then None
    else if a[0].key == k then Some(a[0].val)
    else Lookup(a[1..], k)
  }

  /** A key found in a prefix is found there in the whole array. */
  lemma {:induction false} LookupInPrefix(a: PArray, b: PArray, k: Key)
    requires k in Keys(a)
    ensures Lookup(a + b, k) == Lookup(a, k)
  {
    if a[0].key != k {
      assert (a + b)[1..] == a[1..] + b;
      assert k in Keys(a[1..]);
      LookupInPrefix(a[1..], b, k);
    }
  }

  /** A key the prefix lacks is looked up in the rest. */
  lemma {:induction false} LookupPastPrefix(a: PArray, b: PArray, k: Key)
    requires k !in Keys(a)
    ensures Lookup(a + b, k) == Lookup(b, k)
  {
    if a != [] {
      assert a[0].key != k by { assert Keys(a)[0] == a[0].key; }
      assert (a + b)[1..] == a[1..] + b;
      assert k !in Keys(a[1..]) by {
        forall i | 0 <= i < |a[1..]| ensures Keys(a[1..])[i] != k {
          assert Keys(a[1..])[i] == a[i + 1].key == Keys(a)[i + 1];
        }
      }
      LookupPastPrefix(a[1..], b, k);
    } else {
      assert a + b == b;
    }
  }

  /** The keys of a prefix are a prefix of the keys. */
  lemma KeysOfPrefix(a: PArray, m: nat)
    requires m <= |a|
    ensures Keys(a[..m]) == Keys(a)[..m]
  {
    assert forall i :: 0 <= i < m ==> Keys(a[..m])[i] == a[i].key == Keys(a)[i];
  }

  /** `isset($a[$k])`: the key exists and its value is not null. */
  predicate IsSet(a: PArray, k: Key) {
    Lookup(a, k).Some? && Lookup(a, k).value != VNull
  }

  /** `$a[$k] ?? $default`. */
  function LookupOr(a: PArray, k: Key, default: Value): Value {
    if IsSet(a, k) then Lookup(a, k).value else default
  }

  /** `$a[$k] = $v`: overwrite in place when the key exists, append otherwise. */
  function Set(a: PArray, k: Key, v: Value): (r: PArray)
    ensures Lookup(r, k) == Some(v)
    ensures Keys(r) == if k in Keys(a) then Keys(a) else Keys(a) + [k]
  {
    if a == [] then [Entry(k, v)]
    else if a[0].key == k then
      assert Keys([Entry(k, v)] + a[1..]) == Keys(a) by {
        assert Keys(a)[0] == k;
      }
      [Entry(k, v)] + a[1..]
    else
      var rest := Set(a[1..], k, v);
      SetPastHead(a, k, v, rest);
      [a[0]] + rest
  }

  /** The keys of an array with one entry put in front. */
  lemma KeysCons(e: Entry, rest: PArray)
    ensures Keys([e] + rest) == [e.key] + Keys(rest)
  {
    assert ([e] + rest)[1..] == rest;
  }

  /** Set past a head entry whose key differs: the head stays in front of the rest. */
  lemma SetPastHead(a: PArray, k: Key, v: Value, rest: PArray)
    requires a != [] && a[0].key != k
    requires Lookup(rest, k) == Some(v)
    requires Keys(rest) == if k in Keys(a[1..]) then Keys(a[1..]) else Keys(a[1..]) + [k]
    ensures Lookup([a[0]] + rest, k) == Some(v)
    ensures Keys([a[0]] + rest) == if k in Keys(a) then Keys(a) else Keys(a) + [k]
  {
    assert ([a[0]] + rest)[1..] == rest;
    KeysPastHead(a[0], a[1..], rest, k);
    assert a == [a[0]] + a[1..];
  }

  /** The key step of Set past a head entry whose key differs. */
  lemma KeysPastHead(h: Entry, tail: PArray, rest: PArray, k: Key)
    requires h.key != k
    requires Keys(rest) == if k in Keys(tail) then Keys(tail) else Keys(tail) + [k]
    ensures Keys([h] + rest) == if k in Keys([h] + tail) then Keys([h] + tail) else Keys([h] + tail) + [k]
  {
    if k in Keys(tail) {
      KeysPastHeadKnown(h, tail, rest, k);
    } else {
      KeysPastHeadNew(h, tail, rest, k);
    }
  }

  /** KeysPastHead when the key is already further on: the keys stay as they were. */
  lemma KeysPastHeadKnown(h: Entry, tail: PArray, rest: PArray, k: Key)
    requires h.key != k && k in Keys(tail) && Keys(rest) == Keys(tail)
    ensures k in Keys([h] + tail) && Keys([h] + rest) == Keys([h] + tail)
  {
    KeysCons(h, rest);
    KeysCons(h, tail);
  }

  /** KeysPastHead when the key is new: it goes after all the others. */
  lemma KeysPastHeadNew(h: Entry, tail: PArray, rest: PArray, k: Key)
    requires h.key != k && k !in Keys(tail) && Keys(rest) == Keys(tail) + [k]
    ensures k !in Keys([h] + tail) && Keys([h] + rest) == Keys([h] + tail) + [k]
  {
    KeysCons(h, rest);
    KeysCons(h, tail);
    assert [h.key] + (Keys(tail) + [k]) == ([h.key] + Keys(tail)) + [k];
  }

  /** Assignment brings in no entry other than the one assigned. */
  lemma {:induction false} SetEntries(a: PArray, k: Key, v: Value)
    ensures forall e :: e in Set(a, k, v) ==> e in a || e == Entry(k, v)
  {
    if a != [] && a[0].key != k {
      SetEntries(a[1..], k, v);
    }
  }

  /** Assignment to a new key appends. */
  lemma {:induction false} SetFresh(a: PArray, k: Key, v: Value)
    requires k !in Keys(a)
    ensures Set(a, k, v) == a + [Entry(k, v)]
  {
    if a != [] {
      assert a[0].key != k by { assert Keys(a)[0] == a[0].key; }
      assert k !in Keys(a[1..]) by {
        forall i | 0 <= i < |a[1..]| ensures Keys(a[1..])[i] != k {
          assert Keys(a[1..])[i] == a[i + 1].key == Keys(a)[i + 1];
        }
      }
      SetFresh(a[1..], k, v);
      calc {
        Set(a, k, v);
        [a[0]] + Set(a[1..], k, v);
        [a[0]] + (a[1..] + [Entry(k, v)]);
        ([a[0]] + a[1..]) + [Entry(k, v)];
        { assert [a[0]] + a[1..] == a; }
        a + [Entry(k, v)];
      }
    }
  }

  /** `$a === ['*']`. */
  predicate IsStar(a: PArray) {
    a == [Entry(IntKey(0), VStr("*"))]
  }

  /** How many int keys `a` holds. */
  function CountIntKeys(a: PArray): nat {
    if a == [] then 0 else (if a[0].key.IntKey? then 1 else 0) + CountIntKeys(a[1..])
  }

  /** Appending an entry counts it. */
  lemma {:induction false} CountIntKeysAppend(a: PArray, e: Entry)
    ensures CountIntKeys(a + [e]) == CountIntKeys(a) + (if e.key.IntKey? then 1 else 0)
  {
    if a != [] {
      assert (a + [e])[1..] == a[1..] + [e];
      CountIntKeysAppend(a[1..], e);
    } else {
      assert a + [e] == [e];
    }
  }

  /** Assigning under a string key leaves the int keys as they were. */
  lemma {:induction false} CountIntKeysSetStr(a: PArray, k: Key, v: Value)
    requires k.StrKey?
    ensures CountIntKeys(Set(a, k, v)) == CountIntKeys(a)
  {
    if a != [] && a[0].key != k {
      CountIntKeysSetStr(a[1..], k, v);
      assert Set(a, k, v)[1..] == Set(a[1..], k, v);
    } else if a != [] {
      assert Set(a, k, v)[1..] == a[1..];
    }
  }

  // ---------------------------------------------------------------------------
  // array_merge

  /** The values stored under int keys, in array order. */
  function IntValues(a: PArray): seq<Value> {
    if a == [] then [] else (if a[0].key.IntKey? then [a[0].val] else []) + IntValues(a[1..])
  }

  /** Appending an entry adds its value to the int values when its key is an int. */
  lemma {:induction false} IntValuesAppend(a: PArray, e: Entry)
    ensures IntValues(a + [e]) == IntValues(a) + (if e.key.IntKey? then [e.val] else [])
  {
    if a != [] {
      assert (a + [e])[1..] == a[1..] + [e];
      IntValuesAppend(a[1..], e);
    } else {
      assert a + [e] == [e];
    }
  }

  /** Assigning under a string key leaves the int values as they were. */
  lemma {:induction false} IntValuesSetStr(a: PArray, k: Key, v: Value)
    requires k.StrKey?
    ensures IntValues(Set(a, k, v)) == IntValues(a)
  {
    if a != [] && a[0].key != k {
      IntValuesSetStr(a[1..], k, v);
      assert Set(a, k, v)[1..] == Set(a[1..], k, v);
    } else if a != [] {
      assert Set(a, k, v)[1..] == a[1..];
    }
  }

  /** Assignment leaves every other key's lookup alone. */
  lemma {:induction false} LookupSetOther(a: PArray, k: Key, v: Value, other: Key)
    requires other != k
    ensures Lookup(Set(a, k, v), other) == Lookup(a, other)
  {
    if a != [] && a[0].key != k {
      assert Set(a, k, v)[1..] == Set(a[1..], k, v);
      LookupSetOther(a[1..], k, v, other);
    } else if a != [] {
      assert Set(a, k, v)[1..] == a[1..];
    }
  }

  /** `a` and `b` agree on every key but `k`. */
  ghost predicate SameExcept(a: PArray, b: PArray, k: Key) {
    forall other :: other != k ==> Lookup(a, other) == Lookup(b, other)
  }

  /** Assignment to `k` changes no other key. */
  lemma SetChangesOnlyKey(a: PArray, k: Key, v: Value)
    ensures SameExcept(Set(a, k, v), a, k)
  {
    forall other | other != k ensures Lookup(Set(a, k, v), other) == Lookup(a, other) {
      LookupSetOther(a, k, v, other);
    }
  }

  /** Appending an entry under another key leaves a lookup alone. */
  lemma LookupAppendOther(a: PArray, e: Entry, k: Key)
    requires e.key != k
    ensures Lookup(a + [e], k) == Lookup(a, k)
  {
    if k in Keys(a) {
      LookupInPrefix(a, [e], k);
    } else {
      LookupPastPrefix(a, [e], k);
    }
  }

  /** The value of the last entry under `k`, the one a later assignment leaves standing. */
  function LastValue(a: PArray, k: Key): Option<Value>
    decreases |a|
  {
    if a == [] then None
    else if a[|a| - 1].key == k then Some(a[|a| - 1].val)
    else LastValue(a[..|a| - 1], k)
  }

  /** One entry of `array_merge`: an int key is appended renumbered, a string key assigned. */
  function MergeStep(acc: PArray, e: Entry): PArray {
    if e.key.IntKey? then acc + [Entry(IntKey(CountIntKeys(acc)), e.val)] else Set(acc, e.key, e.val)
  }

  /** `array_merge` over the entries of its arguments, in order. */
  function MergeAll(s: PArray): PArray
    decreases |s|
  {
    if s == [] then [] else MergeStep(MergeAll(s[..|s| - 1]), s[|s| - 1])
  }

  /** `array_merge($a, $b)`. */
  function ArrayMerge(a: PArray, b: PArray): PArray {
    MergeAll(a + b)
  }

  /** A string key of the merge holds the last value given for it. */
  lemma {:induction false} MergeAllLookupStr(s: PArray, k: string)
    ensures Lookup(MergeAll(s), StrKey(k)) == LastValue(s, StrKey(k))
    decreases |s|
  {
    if s != [] {
      var init := s[..|s| - 1];
      var e := s[|s| - 1];
      MergeAllLookupStr(init, k);
      var acc := MergeAll(init);
      if e.key.IntKey? {
        LookupAppendOther(acc, Entry(IntKey(CountIntKeys(acc)), e.val), StrKey(k));
      } else if e.key != StrKey(k) {
        LookupSetOther(acc, e.key, e.val, StrKey(k));
      }
    }
  }

  /** The values under int keys are those of the inputs, in order. */
  lemma {:induction false} MergeAllIntValues(s: PArray)
    ensures IntValues(MergeAll(s)) == IntValues(s)
    decreases |s|
  {
    if s != [] {
      var init := s[..|s| - 1];
      var e := s[|s| - 1];
      MergeAllIntValues(init);
      IntValuesAppend(init, e);
      assert init + [e] == s;
      var acc := MergeAll(init);
      if e.key.IntKey? {
        IntValuesAppend(acc, Entry(IntKey(CountIntKeys(acc)), e.val));
      } else {
        IntValuesSetStr(acc, e.key, e.val);
      }
    }
  }

  /** The last value under a key of `a + b` is the one in `b` when `b` has the key. */
  lemma {:induction false} LastValueAppend(a: PArray, b: PArray, k: Key)
    ensures LastValue(a + b, k) == if LastValue(b, k).Some? then LastValue(b, k) else LastValue(a, k)
    decreases |b|
  {
    if b == [] {
      assert a + b == a;
    } else {
      assert (a + b)[..|a + b| - 1] == a + b[..|b| - 1];
      LastValueAppend(a, b[..|b| - 1], k);
    }
  }

  /** `array_merge`: a string key takes the second array's value if it has one, else the first's. */
  lemma ArrayMergeLookupStr(a: PArray, b: PArray, k: string)
    ensures Lookup(ArrayMerge(a, b), StrKey(k)) ==
              if LastValue(b, StrKey(k)).Some? then LastValue(b, StrKey(k)) else LastValue(a, StrKey(k))
  {
    MergeAllLookupStr(a + b, k);
    LastValueAppend(a, b, StrKey(k));
  }

  /** With distinct keys on both sides, a string key of `b` overrides the same key of `a`. */
  lemma ArrayMergeOverrides(a: PArray, b: PArray, k: string)
    requires DistinctKeys(a) && DistinctKeys(b)
    ensures Lookup(ArrayMerge(a, b), StrKey(k)) ==
              if StrKey(k) in Keys(b) then Lookup(b, StrKey(k)) else Lookup(a, StrKey(k))
  {
    ArrayMergeLookupStr(a, b, k);
    LastValueIsLookup(a, StrKey(k));
    LastValueIsLookup(b, StrKey(k));
  }

  /** `array_merge`: the int-keyed values of both arrays follow each other, renumbered. */
  lemma ArrayMergeIntValues(a: PArray, b: PArray)
    ensures IntValues(ArrayMerge(a, b)) == IntValues(a) + IntValues(b)
  {
    MergeAllIntValues(a + b);
    IntValuesConcat(a, b);
  }

  /** The int values of a concatenation are those of its parts. */
  lemma {:induction false} IntValuesConcat(a: PArray, b: PArray)
    ensures IntValues(a + b) == IntValues(a) + IntValues(b)
  {
    if a == [] {
      assert a + b == b;
    } else {
      var head := if a[0].key.IntKey? then [a[0].val] else [];
      assert (a + b)[0] == a[0] && (a + b)[1..] == a[1..] + b;
      assert IntValues(a + b) == head + IntValues(a[1..] + b);
      IntValuesConcat(a[1..], b);
      assert IntValues(a) == head + IntValues(a[1..]);
      assert head + (IntValues(a[1..]) + IntValues(b)) == (head + IntValues(a[1..])) + IntValues(b);
    }
  }

  /** In an array whose keys are distinct, the last value under a key is its only one. */
  lemma {:induction false} LastValueIsLookup(a: PArray, k: Key)
    requires DistinctKeys(a)
    ensures LastValue(a, k) == Lookup(a, k)
    decreases |a|
  {
    if a != [] {
      var init := a[..|a| - 1];
      var e := a[|a| - 1];
      assert init + [e] == a;
      LastValueIsLookup(init, k);
      if e.key == k {
        assert k !in Keys(init) by {
          forall i | 0 <= i < |init| ensures Keys(init)[i] != k {
            assert init[i] == a[i];
          }
        }
        LookupPastPrefix(init, [e], k);
      } else {
        LookupAppendOther(init, e, k);
      }
    }
  }

  // ---------------------------------------------------------------------------
  // Characters and identifiers

  predicate IsDigit(c: char) { '0' <= c <= '9' }
  predicate IsLetter(c: char) { 'a' <= c <= 'z' || 'A' <= c <= 'Z' }
  predicate IdentStart(c: char) { IsLetter(c) || c == '_' }
  predicate IdentPart(c: char) { IsLetter(c) || IsDigit(c) || c == '_' || c == '-' }

  /** `[a-zA-Z_][a-zA-Z0-9_-]*` matched by the whole string. */
  predicate IdentBody(s: string) {
    |s| >= 1 && IdentStart(s[0]) && forall i :: 1 <= i < |s| ==> IdentPart(s[i])
  }

  /**
   * `preg_match('/^[a-zA-Z_][a-zA-Z0-9_-]*$/', $s)`. Without the D modifier,
   * PCRE's `$` also matches just before a final newline.
   */
  predicate IsIdentifier(s: string) {
    IdentBody(s) || (|s| >= 2 && s[|s| - 1] == '\n' && IdentBody(s[..|s| - 1]))
  }

  // ---------------------------------------------------------------------------
  // Strings

  /** The characters `trim` strips by default: " \t\n\r\0\x0B". */
  const Whitespace: set<char> := {' ', '\t', '\n', '\r', 0 as char, 11 as char}

  function TrimLeft(s: string, cs: set<char>): (r: string)
    ensures |r| <= |s|
  {
    if s != [] && s[0] in cs then TrimLeft(s[1..], cs) else s
  }

  function TrimRight(s: string, cs: set<char>): (r: string)
    ensures |r| <= |s|
  {
    if s != [] && s[|s| - 1] in cs then TrimRight(s[..|s| - 1], cs) else s
  }

  /** What `trim` strips is a prefix made of `cs`: what is left starts with no such character. */
  lemma {:induction false} TrimLeftIsSuffix(s: string, cs: set<char>)
    ensures var r := TrimLeft(s, cs);
            r == s[|s| - |r|..] && (r == [] || r[0] !in cs)
            && forall i :: 0 <= i < |s| - |r| ==> s[i] in cs
  {
    if s != [] && s[0] in cs {
      TrimLeftIsSuffix(s[1..], cs);
    }
  }

  /** The right-hand counterpart of TrimLeftIsSuffix. */
  lemma {:induction false} TrimRightIsPrefix(s: string, cs: set<char>)
    ensures var r := TrimRight(s, cs);
            r == s[..|r|] && (r == [] || r[|r| - 1] !in cs)
            && forall i :: |r| <= i < |s| ==> s[i] in cs
  {
    if s != [] && s[|s| - 1] in cs {
      TrimRightIsPrefix(s[..|s| - 1], cs);
    }
  }

  /** `trim($s, $chars)`. */
  function TrimChars(s: string, cs: set<char>): string {
    TrimRight(TrimLeft(s, cs), cs)
  }

  /** A string with no strippable character at either end is left as it is. */
  lemma TrimCharsUnchanged(s: string, cs: set<char>)
    requires s != [] && s[0] !in cs && s[|s| - 1] !in cs
    ensures TrimChars(s, cs) == s
  {
    assert TrimLeft(s, cs) == s;
    assert TrimRight(s, cs) == s;
  }

  /** `trim($s)`. */
  function Trim(s: string): string {
    TrimChars(s, Whitespace)
  }

  function UpperChar(c: char): char {
    if 'a' <= c <= 'z' then (c as int - 32) as char else c
  }

  function LowerChar(c: char): char {
    if 'A' <= c <= 'Z' then (c as int + 32) as char else c
  }

  /** `strtoupper`, which is ASCII-only. */
  function Upper(s: string): (r: string)
    ensures |r| == |s|
  {
    if s == [] then [] else [UpperChar(s[0])] + Upper(s[1..])
  }

  /** `strtoupper` works character by character. */
  lemma {:induction false} UpperAt(s: string)
    ensures forall i :: 0 <= i < |s| ==> Upper(s)[i] == UpperChar(s[i])
  {
    if s != [] {
      UpperAt(s[1..]);
      assert Upper(s) == [UpperChar(s[0])] + Upper(s[1..]);
    }
  }

  /** `strtolower`, which is ASCII-only. */
  function Lower(s: string): (r: string)
    ensures |r| == |s|
  {
    if s == [] then [] else [LowerChar(s[0])] + Lower(s[1..])
  }

  function StartsWith(s: string, prefix: string): bool {
    |prefix| <= |s| && s[..|prefix|] == prefix
  }

  /** `str_replace($pat, '', $s)`: drops every occurrence, scanning left to right. */
  function RemoveAll(s: string, pat: string): string
    requires |pat| > 0
    decreases |s|
  {
    if |s| < |pat| then s
    else if s[..|pat|] == pat then RemoveAll(s[|pat|..], pat)
    else [s[0]] + RemoveAll(s[1..], pat)
  }

  function IndexOf(s: string, c: char): (i: nat)
    requires c in s
    ensures i < |s| && s[i] == c && c !in s[..i]
  {
    if s[0] == c then 0 else 1 + IndexOf(s[1..], c)
  }

  /** `explode($c, $s)` for a one-character delimiter. */
  function Split(s: string, c: char): (parts: seq<string>)
    ensures |parts| >= 1
    decreases |s|
  {
    if c !in s then [s]
    else
      var i := IndexOf(s, c);
      [s[..i]] + Split(s[i + 1..], c)
  }

  /** `implode($sep, $parts)`. */
  function Join(parts: seq<string>, sep: string): string {
    if parts == [] then ""
    else if |parts| == 1 then parts[0]
    else parts[0] + sep + Join(parts[1..], sep)
  }

  // ---------------------------------------------------------------------------
  // Integers and their decimal text

  function DigitChar(d: nat): char
    requires d <= 9
  {
    ('0' as int + d) as char
  }

  function DigitValue(c: char): nat
    requires IsDigit(c)
  {
    c as int - '0' as int
  }

  predicate AllDigits(s: string) {
    forall i :: 0 <= i < |s| ==> IsDigit(s[i])
  }

  function NatToString(n: nat): (s: string)
    ensures |s| >= 1 && AllDigits(s)
  {
    if n < 10 then [DigitChar(n)] else NatToString(n / 10) + [DigitChar(n % 10)]
  }

  /** `(string)$i`. */
  function IntToString(i: int): (s: string)
    ensures |s| >= 1
  {
    if i < 0 then "-" + NatToString(-i) else NatToString(i)
  }

  /** The value of a string of decimal digits. */
  function DigitsValue(s: string): nat
    requires AllDigits(s)
  {
    if s == [] then 0 else DigitsValue(s[..|s| - 1]) * 10 + DigitValue(s[|s| - 1])
  }

  /** The longest prefix of `s` made of digits. */
  function DigitPrefix(s: string): (p: string)
    ensures AllDigits(p) && |p| <= |s| && p == s[..|p|]
  {
    if s != [] && IsDigit(s[0]) then [s[0]] + DigitPrefix(s[1..]) else ""
  }

  /** Leading blanks a numeric string may carry: " \t\n\r\v\f". */
  const NumericBlank: set<char> := {' ', '\t', '\n', '\r', 11 as char, 12 as char}

  /** `(int)$s`: blanks, an optional sign, then the longest run of digits; 0 when there is none. */
  function ToInt(s: string): int {
    var t := TrimLeft(s, NumericBlank);
    if t != [] && t[0] == '-' then 0 - DigitsValue(DigitPrefix(t[1..])) as int
    else if t != [] && t[0] == '+' then DigitsValue(DigitPrefix(t[1..]))
    else DigitsValue(DigitPrefix(t))
  }

  /**
   * An integer numeric string in PHP 8: optional blanks, an optional sign,
   * at least one digit, optional blanks. Without strict types an `int`
   * parameter takes such a string silently.
   */
  predicate IsIntegerNumeric(s: string) {
    var t := TrimChars(s, NumericBlank);
    var d := if t != [] && (t[0] == '-' || t[0] == '+') then t[1..] else t;
    d != [] && AllDigits(d)
  }

  /** The decimal strings PHP turns into int keys: no sign on zero, no leading zero. */
  predicate IsCanonicalInt(s: string) {
    || s == "0"
    || (|s| >= 1 && '1' <= s[0] <= '9' && AllDigits(s))
    || (|s| >= 2 && s[0] == '-' && '1' <= s[1] <= '9' && AllDigits(s[1..]))
  }

  /** The key `$a[$s]` really uses. */
  function ArrayKey(s: string): Key {
    if IsCanonicalInt(s) then IntKey(ToInt(s)) else StrKey(s)
  }

  /** The text of a key, as `"$k"` renders it. */
  function KeyText(k: Key): string {
    match k
    case IntKey(i) => IntToString(i)
    case StrKey(s) => s
  }

  /** Coercion of a value passed to a builtin that takes a string; arrays are a TypeError. */
  function Stringify(v: Value): Option<string> {
    match v
    case VNull => Some("")
    case VBool(b) => Some(if b then "1" else "")
    case VInt(i) => Some(IntToString(i))
    case VStr(s) => Some(s)
    case VArr(_) => None
  }

  /** `(int)$v`: strings by their leading numeral, arrays by emptiness, booleans as 0 or 1. */
  function IntCast(v: Value): int {
    match v
    case VNull => 0
    case VBool(b) => if b then 1 else 0
    case VInt(i) => i
    case VStr(s) => ToInt(s)
    case VArr(a) => if a == [] then 0 else 1
  }

  /** A value interpolated into a double-quoted string; an array renders as "Array". */
  function Interpolate(v: Value): string {
    match v
    case VArr(_) => "Array"
    case _ => Stringify(v).value
  }

  // ---------------------------------------------------------------------------
  // Lemmas about the decimal text

  lemma {:induction false} DigitsValueOfNatToString(n: nat)
    ensures DigitsValue(NatToString(n)) == n
  {
    var s := NatToString(n);
    if n >= 10 {
      DigitsValueOfNatToString(n / 10);
      assert s[..|s| - 1] == NatToString(n / 10);
    }
  }

  /** The digit run of a numeral stops at the first non-digit after it. */
  lemma {:induction false} DigitPrefixOfNumeral(ds: string, rest: string)
    requires AllDigits(ds) && (rest == [] || !IsDigit(rest[0]))
    ensures DigitPrefix(ds + rest) == ds
  {
    if ds == [] {
      assert ds + rest == rest;
    } else {
      assert (ds + rest)[1..] == ds[1..] + rest;
      DigitPrefixOfNumeral(ds[1..], rest);
    }
  }

  /** `(int)(string)$i == $i`: the cast reads back the text an int prints as. */
  lemma ToIntOfIntToString(i: int)
    ensures ToInt(IntToString(i)) == i
  {
    var s := IntToString(i);
    var n: nat := if i < 0 then -i else i;
    var ds := NatToString(n);
    assert s[0] !in NumericBlank by {
      if i < 0 {
        assert s[0] == '-';
      } else {
        assert IsDigit(s[0]);
      }
    }
    assert TrimLeft(s, NumericBlank) == s;
    DigitPrefixOfNumeral(ds, []);
    assert ds + [] == ds;
    DigitsValueOfNatToString(n);
    if i < 0 {
      assert s[1..] == ds;
    } else {
      assert s[0] != '-' && s[0] != '+' by { assert IsDigit(s[0]); }
    }
  }

  /** Distinct naturals have distinct decimal text. */
  lemma NatToStringInjective(m: nat, n: nat)
    requires NatToString(m) == NatToString(n)
    ensures m == n
  {
    DigitsValueOfNatToString(m);
    DigitsValueOfNatToString(n);
  }

  // ---------------------------------------------------------------------------
  // Lemmas about explode

  /** `explode` cuts at the first delimiter when the head holds none. */
  lemma SplitAt(c: char, a: string, b: string)
    requires c !in a
    ensures Split(a + [c] + b, c) == [a] + Split(b, c)
  {
    var s := a + [c] + b;
    assert s[|a|] == c;
    var i := IndexOf(s, c);
    assert s[..|a|] == a;
    assert forall k :: 0 <= k < |a| ==> s[k] == a[k];
    assert i == |a|;
    assert s[..i] == a && s[i + 1..] == b;
  }

  lemma SplitWhole(c: char, a: string)
    requires c !in a
    ensures Split(a, c) == [a]
  {
  }
}
