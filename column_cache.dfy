/**
 * The schema cache: for each table id, the ordered list of its column names,
 * loaded from the database's metadata catalog on first use and kept until
 * it is cleared.
 */
module ColumnCache {
  import opened Php

  /** A row the catalog query returns, keyed by result-column name. */
  type CatalogRow = map<string, string>

  /**
   * The metadata catalog: the rows the column query returns for a table id,
   * in the order the database declares the columns.
   */
  type Catalog = int -> seq<CatalogRow>

  /** `array_column($rows, 'COLUMN_NAME')`: rows without that column are skipped. */
  function LoadColumns(rows: seq<CatalogRow>): (names: seq<string>)
    ensures |names| <= |rows|
    ensures forall n :: n in names ==> exists r :: r in rows && "COLUMN_NAME" in r && r["COLUMN_NAME"] == n
  {
    if rows == [] then []
    else (if "COLUMN_NAME" in rows[0] then [rows[0]["COLUMN_NAME"]] else []) + LoadColumns(rows[1..])
  }

  /** When every row names its column, the list follows the rows one for one. */
  lemma {:induction false} LoadColumnsKeepsRowOrder(rows: seq<CatalogRow>)
    requires forall i :: 0 <= i < |rows| ==> "COLUMN_NAME" in rows[i]
    ensures |LoadColumns(rows)| == |rows|
    ensures forall i :: 0 <= i < |rows| ==> LoadColumns(rows)[i] == rows[i]["COLUMN_NAME"]
  {
    if rows != [] {
      LoadColumnsKeepsRowOrder(rows[1..]);
    }
  }

  /** The list `get` hands back for `tableId`: the cached one, else a fresh load. */
  function Resolve(cache: map<int, seq<string>>, catalog: Catalog, tableId: int): seq<string> {
    if tableId in cache then cache[tableId] else LoadColumns(catalog(tableId))
  }

  /** The cache and load log after one `get` of `tableId`. */
  ghost predicate Fetched(before: map<int, seq<string>>, after: map<int, seq<string>>,
                          loadsBefore: seq<int>, loadsAfter: seq<int>, catalog: Catalog, tableId: int)
  {
    && after == before[tableId := Resolve(before, catalog, tableId)]
    && loadsAfter == loadsBefore + (if tableId in before then [] else [tableId])
  }

  /** The cache and load log after a call that made one `get` of `tableId`, or none. */
  ghost predicate FetchedAtMost(before: map<int, seq<string>>, after: map<int, seq<string>>,
                                loadsBefore: seq<int>, loadsAfter: seq<int>, catalog: Catalog, tableId: int)
  {
    || Fetched(before, after, loadsBefore, loadsAfter, catalog, tableId)
    || (after == before && loadsAfter == loadsBefore)
  }

  /** A second `get` of the same id after one or none changes nothing more and sees the same list. */
  lemma FetchedThenFetched(c0: map<int, seq<string>>, c1: map<int, seq<string>>, c2: map<int, seq<string>>,
                           l0: seq<int>, l1: seq<int>, l2: seq<int>, catalog: Catalog, tableId: int)
    requires FetchedAtMost(c0, c1, l0, l1, catalog, tableId)
    requires Fetched(c1, c2, l1, l2, catalog, tableId)
    ensures Resolve(c1, catalog, tableId) == Resolve(c0, catalog, tableId)
    ensures Fetched(c0, c2, l0, l2, catalog, tableId)
  {
    if Fetched(c0, c1, l0, l1, catalog, tableId) {
      assert tableId in c1;
      assert c2 == c1;
      assert l2 == l1 + [];
    }
  }

  /** Calls that each fetch `tableId` at most once fetch it at most once together. */
  lemma FetchedAtMostTwice(c0: map<int, seq<string>>, c1: map<int, seq<string>>, c2: map<int, seq<string>>,
                           l0: seq<int>, l1: seq<int>, l2: seq<int>, catalog: Catalog, tableId: int)
    requires FetchedAtMost(c0, c1, l0, l1, catalog, tableId)
    requires FetchedAtMost(c1, c2, l1, l2, catalog, tableId)
    ensures Resolve(c1, catalog, tableId) == Resolve(c0, catalog, tableId)
    ensures FetchedAtMost(c0, c2, l0, l2, catalog, tableId)
  {
    if Fetched(c1, c2, l1, l2, catalog, tableId) {
      FetchedThenFetched(c0, c1, c2, l0, l1, l2, catalog, tableId);
    } else if Fetched(c0, c1, l0, l1, catalog, tableId) {
      assert tableId in c1;
    }
  }

  /** Once `get` has stored a list, later lookups see that list, whatever catalog they are given. */
  lemma GetIsStable(cache: map<int, seq<string>>, catalog: Catalog, later: Catalog, tableId: int)
    ensures var stored := cache[tableId := Resolve(cache, catalog, tableId)];
            Resolve(stored, later, tableId) == Resolve(cache, catalog, tableId)
  {
  }

  /** Clearing one id forces a reload of that id and leaves every other id's answer alone. */
  lemma ClearOneReloads(cache: map<int, seq<string>>, catalog: Catalog, tableId: int, other: int)
    requires other != tableId
    ensures Resolve(cache - {tableId}, catalog, tableId) == LoadColumns(catalog(tableId))
    ensures Resolve(cache - {tableId}, catalog, other) == Resolve(cache, catalog, other)
  {
  }

  class TableColumnCache {
    /** Table id -> column names, in catalog order. */
    var cache: map<int, seq<string>>
    /** The table ids the loader was called for, oldest first. */
    ghost var loads: seq<int>

    constructor ()
      ensures cache == map[] && loads == []
    {
      cache := map[];
      loads := [];
    }

    /** The column list of `tableId`, loading and storing it on a miss. */
    method Get(tableId: int, catalog: Catalog) returns (cols: seq<string>)
      modifies this
      ensures cols == Resolve(old(cache), catalog, tableId)
      ensures tableId in old(cache) ==> cols == old(cache)[tableId] && cache == old(cache)
      ensures tableId !in old(cache) ==> cols == LoadColumns(catalog(tableId))
      ensures cache == old(cache)[tableId := cols]
      ensures loads == old(loads) + (if tableId in old(cache) then [] else [tableId])
    {
      if tableId !in cache {
        cache := cache[tableId := LoadColumns(catalog(tableId))];
        loads := loads + [tableId];
      }
      cols := cache[tableId];
    }

    /** Drops every entry (no argument) or only the entry of the given id. */
    method Clear(tableId: Option<int>)
      modifies this
      ensures tableId.None? ==> cache == map[]
      ensures tableId.Some? ==> cache == old(cache) - {tableId.value}
      ensures loads == old(loads)
    {
      if tableId.None? {
        cache := map[];
      } else {
        cache := cache - {tableId.value};
      }
    }
  }

  /** Two `get`s of one id with no `clear` between them hand back the same list and load at most once. */
  method GetTwice(c: TableColumnCache, tableId: int, catalog: Catalog, later: Catalog)
    returns (first: seq<string>, second: seq<string>)
    modifies c
    ensures first == second
    ensures |c.loads| <= |old(c.loads)| + 1
  {
    first := c.Get(tableId, catalog);
    second := c.Get(tableId, later);
  }
}
