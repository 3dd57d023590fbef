/** The Room tables the repository reads and writes, as maps keyed by their
    primary keys: `market_coins`, `currency_sync` (both behind `MarketCacheDao`)
    and the favorites table (behind `FavoritesDao`). */
module LocalStore {
  import opened Wrappers
  import opened Int64
  import opened Domain

  /** The contents of the two tables behind `MarketCacheDao`. */
  datatype Store = Store(
    rows: map<RowKey, MarketCoinEntity>,
    syncs: map<string, CurrencySyncEntity>)

  /** Every row sits under its own primary key. */
  ghost predicate RowsKeyed(rows: map<RowKey, MarketCoinEntity>) {
    forall k :: k in rows ==> KeyOf(rows[k]) == k
  }

  ghost predicate SyncsKeyed(syncs: map<string, CurrencySyncEntity>) {
    forall c :: c in syncs ==> syncs[c].vsCurrency == c
  }

  /** The keys `WHERE vsCurrency = :c` selects. */
  function CurrencyKeys(rows: map<RowKey, MarketCoinEntity>, c: string): (ks: set<RowKey>)
    ensures ks <= rows.Keys
    ensures forall k :: k in rows && k.vsCurrency == c <==> k in ks
  {
    set k | k in rows.Keys && k.vsCurrency == c
  }

  /** The keys `WHERE vsCurrency = :c AND id IN (:ids)` selects. */
  function IdKeys(rows: map<RowKey, MarketCoinEntity>, c: string, ids: seq<string>): (ks: set<RowKey>)
    ensures ks <= rows.Keys
    ensures forall k :: k in rows && k.vsCurrency == c && k.id in ids <==> k in ks
  {
    set k | k in rows.Keys && k.vsCurrency == c && k.id in ids
  }

  /** `s` is an answer of a query selecting `keys`: each selected row exactly
      once, in an order the database chooses. */
  ghost predicate Lists(s: seq<MarketCoinEntity>, rows: map<RowKey, MarketCoinEntity>, keys: set<RowKey>) {
    && (forall i, j :: 0 <= i < j < |s| ==> KeyOf(s[i]) != KeyOf(s[j]))
    && (forall i :: 0 <= i < |s| ==> KeyOf(s[i]) in keys && KeyOf(s[i]) in rows && rows[KeyOf(s[i])] == s[i])
    && (forall k :: k in keys && k in rows ==> exists i :: 0 <= i < |s| && KeyOf(s[i]) == k)
  }

  /** An answer is empty exactly when the query selects no row. */
  lemma ListsEmpty(s: seq<MarketCoinEntity>, rows: map<RowKey, MarketCoinEntity>, keys: set<RowKey>)
    requires Lists(s, rows, keys)
    requires keys <= rows.Keys
    ensures |s| == 0 <==> keys == {}
  {
    if keys != {} {
      var k :| k in keys;
      assert exists i :: 0 <= i < |s| && KeyOf(s[i]) == k;
    }
    if |s| > 0 {
      assert KeyOf(s[0]) in keys;
    }
  }

  /** Adding one more selected row to an answer. */
  lemma ListsExtend(s: seq<MarketCoinEntity>, rows: map<RowKey, MarketCoinEntity>, keys: set<RowKey>, k: RowKey)
    requires RowsKeyed(rows)
    requires Lists(s, rows, keys)
    requires k in rows && k !in keys
    ensures Lists(s + [rows[k]], rows, keys + {k})
  {
    var t := s + [rows[k]];
    assert KeyOf(t[|s|]) == k;
    forall k' | k' in keys + {k} && k' in rows
      ensures exists i :: 0 <= i < |t| && KeyOf(t[i]) == k'
    {
      if k' == k {
        assert KeyOf(t[|s|]) == k';
      } else {
        var i :| 0 <= i < |s| && KeyOf(s[i]) == k';
        assert KeyOf(t[i]) == k';
      }
    }
  }

  /** Some answer exists for every query over a well-keyed table. */
  ghost function ListingOf(rows: map<RowKey, MarketCoinEntity>, keys: set<RowKey>): (s: seq<MarketCoinEntity>)
    requires RowsKeyed(rows)
    requires keys <= rows.Keys
    ensures Lists(s, rows, keys)
    decreases keys
  {
    if keys == {} then
      []
    else
      var k :| k in keys;
      var s := ListingOf(rows, keys - {k});
      ListsExtend(s, rows, keys - {k}, k);
      assert keys - {k} + {k} == keys;
      s + [rows[k]]
  }

  /** `@Insert(onConflict = REPLACE) upsertAll(items)`: each item, in order,
      replaces the row under its key or is added. */
  function UpsertRows(rows: map<RowKey, MarketCoinEntity>, items: seq<MarketCoinEntity>): (r: map<RowKey, MarketCoinEntity>)
    ensures RowsKeyed(rows) ==> RowsKeyed(r)
    ensures forall k :: k in r <==> k in rows || exists i :: 0 <= i < |items| && KeyOf(items[i]) == k
    decreases |items|
  {
    if items == [] then rows
    else
      var last := items[|items| - 1];
      var r := UpsertRows(rows, items[..|items| - 1])[KeyOf(last) := last];
      assert forall i :: 0 <= i < |items| - 1 ==> items[..|items| - 1][i] == items[i];
      r
  }

  /** Under the key of an item that no later item shares, an upsert leaves
      that item: the last write wins. */
  lemma {:induction false} UpsertRowsLast(rows: map<RowKey, MarketCoinEntity>, items: seq<MarketCoinEntity>, i: int)
    requires 0 <= i < |items|
    requires forall j :: i < j < |items| ==> KeyOf(items[j]) != KeyOf(items[i])
    ensures KeyOf(items[i]) in UpsertRows(rows, items)
    ensures UpsertRows(rows, items)[KeyOf(items[i])] == items[i]
    decreases |items|
  {
    if i < |items| - 1 {
      var front := items[..|items| - 1];
      assert forall j :: 0 <= j < |front| ==> front[j] == items[j];
      UpsertRowsLast(rows, front, i);
    }
  }

  /** A key that no item has keeps its old row. */
  lemma {:induction false} UpsertRowsUntouched(rows: map<RowKey, MarketCoinEntity>, items: seq<MarketCoinEntity>, k: RowKey)
    requires forall i :: 0 <= i < |items| ==> KeyOf(items[i]) != k
    requires k in rows
    ensures UpsertRows(rows, items)[k] == rows[k]
    decreases |items|
  {
    if items != [] {
      var front := items[..|items| - 1];
      assert forall j :: 0 <= j < |front| ==> front[j] == items[j];
      UpsertRowsUntouched(rows, front, k);
    }
  }

  /** Every row after an upsert is its old row or one of the items. */
  lemma {:induction false} UpsertRowsFrom(rows: map<RowKey, MarketCoinEntity>, items: seq<MarketCoinEntity>, k: RowKey)
    requires k in UpsertRows(rows, items)
    ensures || (k in rows && UpsertRows(rows, items)[k] == rows[k])
            || exists i :: 0 <= i < |items| && UpsertRows(rows, items)[k] == items[i]
    decreases |items|
  {
    if items != [] {
      var front := items[..|items| - 1];
      var last := items[|items| - 1];
      if KeyOf(last) != k {
        UpsertRowsFrom(rows, front, k);
        if exists i :: 0 <= i < |front| && UpsertRows(rows, front)[k] == front[i] {
          var i :| 0 <= i < |front| && UpsertRows(rows, front)[k] == front[i];
          assert front[i] == items[i];
        }
      } else {
        assert UpsertRows(rows, items)[k] == items[|items| - 1];
      }
    }
  }

  /** `DELETE FROM market_coins WHERE vsCurrency = :c`. */
  function DeleteCurrency(rows: map<RowKey, MarketCoinEntity>, c: string): (r: map<RowKey, MarketCoinEntity>)
    ensures RowsKeyed(rows) ==> RowsKeyed(r)
    ensures r.Keys == rows.Keys - CurrencyKeys(rows, c)
    ensures forall k :: k in r ==> r[k] == rows[k]
  {
    map k | k in rows.Keys && k.vsCurrency != c :: rows[k]
  }

  /** `getSync(c) ?: CurrencySyncEntity(c, 0, 0)`. */
  function SyncOrDefault(syncs: map<string, CurrencySyncEntity>, c: string): CurrencySyncEntity
  {
    if c in syncs then syncs[c] else CurrencySyncEntity(c, 0, 0)
  }

  /** `MarketCacheDao` over the `market_coins` and `currency_sync` tables. */
  class MarketCacheDao {
    var rows: map<RowKey, MarketCoinEntity>
    var syncs: map<string, CurrencySyncEntity>

    ghost predicate Valid()
      reads this
    {
      RowsKeyed(rows) && SyncsKeyed(syncs)
    }

    ghost function Contents(): Store
      reads this
    {
      Store(rows, syncs)
    }

    /** Opens the two tables with what earlier launches left in them; every
      row sits under its primary key. */
    constructor (stored: Store)
      requires RowsKeyed(stored.rows) && SyncsKeyed(stored.syncs)
      ensures Valid() && rows == stored.rows && syncs == stored.syncs
    {
      rows := stored.rows;
      syncs := stored.syncs;
    }

    /** Reads the rows under `keys` one by one, in an unspecified order. */
    method Collect(keys: set<RowKey>) returns (r: seq<MarketCoinEntity>)
      requires Valid()
      requires keys <= rows.Keys
      ensures Lists(r, rows, keys)
    {
      r := [];
      var todo := keys;
      while todo != {}
        invariant todo <= keys
        invariant Lists(r, rows, keys - todo)
        decreases todo
      {
        var k :| k in todo;
        ListsExtend(r, rows, keys - todo, k);
        assert keys - todo + {k} == keys - (todo - {k});
        r := r + [rows[k]];
        todo := todo - {k};
      }
    }

    /** `getAllForCurrency(c)`; the `ORDER BY marketCap DESC` is not modelled. */
    method GetAllForCurrency(c: string) returns (r: seq<MarketCoinEntity>)
      requires Valid()
      ensures Lists(r, rows, CurrencyKeys(rows, c))
    {
      r := Collect(CurrencyKeys(rows, c));
    }

    /** `getByIds(c, ids)`. */
    method GetByIds(c: string, ids: seq<string>) returns (r: seq<MarketCoinEntity>)
      requires Valid()
      ensures Lists(r, rows, IdKeys(rows, c, ids))
    {
      r := Collect(IdKeys(rows, c, ids));
    }

    method UpsertAll(items: seq<MarketCoinEntity>)
      requires Valid()
      modifies this
      ensures Valid()
      ensures rows == UpsertRows(old(rows), items) && syncs == old(syncs)
    {
      var i := 0;
      while i < |items|
        invariant 0 <= i <= |items|
        invariant rows == UpsertRows(old(rows), items[..i]) && syncs == old(syncs)
      {
        assert items[..i + 1][..i] == items[..i];
        rows := rows[KeyOf(items[i]) := items[i]];
        i := i + 1;
      }
      assert items[..|items|] == items;
    }

    method DeleteForCurrency(c: string)
      requires Valid()
      modifies this
      ensures Valid()
      ensures rows == DeleteCurrency(old(rows), c) && syncs == old(syncs)
    {
      rows := map k | k in rows.Keys && k.vsCurrency != c :: rows[k];
    }

    /** `getSync(c)`: the currency's sync row, if any. */
    method GetSync(c: string) returns (r: Option<CurrencySyncEntity>)
      ensures r.Some? <==> c in syncs
      ensures r.Some? ==> r.value == syncs[c]
    {
      r := if c in syncs then Some(syncs[c]) else None;
    }

    /** `upsertSync(s)`: replaces the sync row of `s.vsCurrency`. */
    method UpsertSync(s: CurrencySyncEntity)
      requires Valid()
      modifies this
      ensures Valid()
      ensures syncs == old(syncs)[s.vsCurrency := s] && rows == old(rows)
    {
      syncs := syncs[s.vsCurrency := s];
    }
  }

  /** The favorites table: one record per coin id. */
  class FavoritesDao {
    var records: map<string, FavoriteCoinEntity>

    /** Opens the favorites table with what earlier launches left in it. */
    constructor (stored: map<string, FavoriteCoinEntity>)
      ensures records == stored
    {
      records := stored;
    }

    /** `upsert(entity)` with `REPLACE` on conflict. */
    method Upsert(entity: FavoriteCoinEntity)
      modifies this
      ensures records == old(records)[entity.id := entity]
    {
      records := records[entity.id := entity];
    }

    method DeleteById(id: string)
      modifies this
      ensures records == old(records) - {id}
    {
      records := records - {id};
    }

    method ClearAll()
      modifies this
      ensures records == map[]
    {
      records := map[];
    }

    /** `observeIsFavorite(id)`, one snapshot of the stream. */
    method IsFavorite(id: string) returns (r: bool)
      ensures r <==> id in records
    {
      r := id in records;
    }
  }
}
