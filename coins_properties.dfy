/** What the three queries of `CoinsRepository` guarantee, stated over the
    functions `FetchTop`, `FetchOne` and `FetchByIds`, which the repository's
    methods are proved to follow. */
module CoinsProperties {
  import opened Wrappers
  import opened Int64
  import opened Text
  import opened Domain
  import opened LocalStore
  import opened Coins

  /** No two coins of the list share an id. */
  predicate DistinctIds(cs: seq<Coin>) {
    forall i, j :: 0 <= i < j < |cs| ==> cs[i].id != cs[j].id
  }

  /** Rows of other currencies are left as they were. */
  ghost predicate OtherCurrenciesKept(before: map<RowKey, MarketCoinEntity>, after: map<RowKey, MarketCoinEntity>, c: string) {
    forall k: RowKey :: k.vsCurrency != c ==> (k in after <==> k in before) && (k in after ==> after[k] == before[k])
  }

  /** The persisted rows of currency `c`. */
  ghost function RowsOf(rows: map<RowKey, MarketCoinEntity>, c: string): set<MarketCoinEntity> {
    set k | k in rows.Keys && k.vsCurrency == c :: rows[k]
  }

  // ---------------------------------------------------------------------------
  // fetchTopCoins

  /** One of the four ways `fetchTopCoins` answers without the remote API. */
  predicate TopShortCircuits(mem: Memory, store: Store, c: string, force: bool, now: Millis, stored: seq<MarketCoinEntity>) {
    var sync := SyncOrDefault(store.syncs, c);
    || (!force && FreshIn(mem.top, c, now, TOP_TTL_MS))
    || (now < sync.nextAllowedAtMs && |stored| > 0)
    || (!force && sync.lastFetchedAtMs > 0 && now - sync.lastFetchedAtMs <= TOP_TTL_MS && |stored| > 0)
    || FreshIn(mem.top, c, now, MIN_INTERVAL_MS)
  }

  /** The remote API is called exactly when no short cut applies, always with
      the lowercased currency and nothing else; a short cut writes nothing to
      the database. */
  lemma TopCallDecision(mem: Memory, store: Store, v: string, force: bool, now: Millis,
                        stored: seq<MarketCoinEntity>, api: MarketsApi)
    ensures var a := FetchTop(mem, store, v, force, now, stored, api);
      && (a.call.Some? <==> !TopShortCircuits(mem, store, Lower(v), force, now, stored))
      && (a.call.Some? ==> a.call.value == MarketsRequest(Lower(v), None, None, None))
      && (a.call.None? ==> a.store == store && a.result.Success?)
  {
  }

  /** A top-list query that calls the remote API has passed every short cut:
      what follows is its remote part. */
  lemma TopCallIsRemote(mem: Memory, store: Store, v: string, force: bool, now: Millis,
                        stored: seq<MarketCoinEntity>, api: MarketsApi)
    requires FetchTop(mem, store, v, force, now, stored, api).call.Some?
    ensures FetchTop(mem, store, v, force, now, stored, api)
         == TopRemote(mem, store, Lower(v), now, SyncOrDefault(store.syncs, Lower(v)), ToDomainAll(stored), api)
  {
  }

  /** A fresh in-memory entry answers an unforced call and changes nothing. */
  lemma TopMemoryHit(mem: Memory, store: Store, v: string, now: Millis, stored: seq<MarketCoinEntity>, api: MarketsApi)
    requires Lower(v) in mem.top && now - mem.top[Lower(v)].atMs <= TOP_TTL_MS
    ensures FetchTop(mem, store, v, false, now, stored, api) == Answer(Success(mem.top[Lower(v)].value), None, mem, store)
  {
  }

  /** During a backoff window a non-empty persisted list is returned as it is,
      with no remote call and nothing written. */
  lemma TopBackoffServesStore(mem: Memory, store: Store, v: string, force: bool, now: Millis,
                              stored: seq<MarketCoinEntity>, api: MarketsApi)
    requires Lists(stored, store.rows, CurrencyKeys(store.rows, Lower(v)))
    requires !(!force && FreshIn(mem.top, Lower(v), now, TOP_TTL_MS))
    requires now < SyncOrDefault(store.syncs, Lower(v)).nextAllowedAtMs
    requires CurrencyKeys(store.rows, Lower(v)) != {}
    ensures FetchTop(mem, store, v, force, now, stored, api) == Answer(Success(ToDomainAll(stored)), None, mem, store)
  {
    ListsEmpty(stored, store.rows, CurrencyKeys(store.rows, Lower(v)));
  }

  /** An unforced call soon after a successful fetch (for instance after a
      restart, with the memory empty) reads the database and fills the
      in-memory entry from it. */
  lemma TopPersistedWithinTtl(mem: Memory, store: Store, v: string, now: Millis,
                              stored: seq<MarketCoinEntity>, api: MarketsApi)
    requires Lists(stored, store.rows, CurrencyKeys(store.rows, Lower(v)))
    requires !FreshIn(mem.top, Lower(v), now, TOP_TTL_MS)
    requires now >= SyncOrDefault(store.syncs, Lower(v)).nextAllowedAtMs
    requires var sync := SyncOrDefault(store.syncs, Lower(v));
      sync.lastFetchedAtMs > 0 && now - sync.lastFetchedAtMs <= TOP_TTL_MS
    requires CurrencyKeys(store.rows, Lower(v)) != {}
    ensures FetchTop(mem, store, v, false, now, stored, api)
         == Answer(Success(ToDomainAll(stored)), None,
                   mem.(top := mem.top[Lower(v) := CacheEntry(now, ToDomainAll(stored))]), store)
  {
    ListsEmpty(stored, store.rows, CurrencyKeys(store.rows, Lower(v)));
  }

  /** An in-memory entry at most 5000 ms old stops every remote call, even a
      forced one; the answer is that entry unless the backoff check already
      returned the persisted list. */
  lemma TopMinIntervalBeatsForce(mem: Memory, store: Store, v: string, force: bool, now: Millis,
                                 stored: seq<MarketCoinEntity>, api: MarketsApi)
    requires Lower(v) in mem.top && now - mem.top[Lower(v)].atMs <= MIN_INTERVAL_MS
    ensures var a := FetchTop(mem, store, v, force, now, stored, api);
      && a.call.None? && a.store == store
      && (force ==>
            && a.mem == mem
            && a.result == if now < SyncOrDefault(store.syncs, Lower(v)).nextAllowedAtMs && |stored| > 0
                       then Success(ToDomainAll(stored)) else Success(mem.top[Lower(v)].value))
  {
  }

  /** Each stored row of the currency comes from one of the listed coins. */
  lemma ReplacedRowsFromList(rows: map<RowKey, MarketCoinEntity>, c: string, cs: seq<Coin>, now: Millis)
    ensures RowsOf(UpsertRows(DeleteCurrency(rows, c), ToMarketEntities(cs, c, now)), c)
         <= (set x | x in cs :: ToMarketEntity(x, c, now))
  {
    var base := DeleteCurrency(rows, c);
    var items := ToMarketEntities(cs, c, now);
    var r := UpsertRows(base, items);
    forall e | e in RowsOf(r, c) ensures e in (set x | x in cs :: ToMarketEntity(x, c, now)) {
      var k :| k in r && k.vsCurrency == c && r[k] == e;
      assert k !in base;
      UpsertRowsFrom(base, items, k);
      var i :| 0 <= i < |items| && r[k] == items[i];
      assert cs[i] in cs;
    }
  }

  /** Deleting a currency's rows and upserting rows of that currency leaves
      every other currency's rows as they were. */
  lemma ReplaceKeepsOtherCurrencies(rows: map<RowKey, MarketCoinEntity>, c: string, cs: seq<Coin>, now: Millis)
    ensures OtherCurrenciesKept(rows, UpsertRows(DeleteCurrency(rows, c), ToMarketEntities(cs, c, now)), c)
  {
    var base := DeleteCurrency(rows, c);
    var items := ToMarketEntities(cs, c, now);
    var r := UpsertRows(base, items);
    forall k: RowKey | k.vsCurrency != c ensures (k in r <==> k in rows) && (k in r ==> r[k] == rows[k]) {
      assert forall i :: 0 <= i < |items| ==> KeyOf(items[i]).vsCurrency == c;
      if k in rows {
        UpsertRowsUntouched(base, items, k);
      }
    }
  }

  /** The row under the i-th coin's key is the i-th coin's row. */
  lemma CurrencyRowIsListed(rows: map<RowKey, MarketCoinEntity>, c: string, cs: seq<Coin>, now: Millis, i: int)
    requires DistinctIds(cs) && 0 <= i < |cs|
    ensures var r := UpsertRows(DeleteCurrency(rows, c), ToMarketEntities(cs, c, now));
      RowKey(c, cs[i].id) in r && r[RowKey(c, cs[i].id)] == ToMarketEntity(cs[i], c, now)
  {
    var items := ToMarketEntities(cs, c, now);
    assert KeyOf(items[i]) == RowKey(c, cs[i].id);
    assert forall j :: i < j < |items| ==> KeyOf(items[j]) == RowKey(c, cs[j].id);
    UpsertRowsLast(DeleteCurrency(rows, c), items, i);
  }

  /** Each listed coin is stored as a row of the currency. */
  lemma ListStoredAsRows(rows: map<RowKey, MarketCoinEntity>, c: string, cs: seq<Coin>, now: Millis)
    requires DistinctIds(cs)
    ensures (set x | x in cs :: ToMarketEntity(x, c, now))
         <= RowsOf(UpsertRows(DeleteCurrency(rows, c), ToMarketEntities(cs, c, now)), c)
  {
    var r := UpsertRows(DeleteCurrency(rows, c), ToMarketEntities(cs, c, now));
    forall x | x in cs ensures ToMarketEntity(x, c, now) in RowsOf(r, c) {
      var i :| 0 <= i < |cs| && cs[i] == x;
      CurrencyRowIsListed(rows, c, cs, now, i);
      assert RowKey(c, x.id).vsCurrency == c;
    }
  }

  /** Deleting a currency's rows and upserting a list with distinct ids leaves
      exactly that list as the currency's rows, and the other currencies alone. */
  lemma ReplaceCurrencyRows(rows: map<RowKey, MarketCoinEntity>, c: string, cs: seq<Coin>, now: Millis)
    requires DistinctIds(cs)
    ensures var r := UpsertRows(DeleteCurrency(rows, c), ToMarketEntities(cs, c, now));
      && RowsOf(r, c) == (set x | x in cs :: ToMarketEntity(x, c, now))
      && OtherCurrenciesKept(rows, r, c)
  {
    ReplacedRowsFromList(rows, c, cs, now);
    ListStoredAsRows(rows, c, cs, now);
    ReplaceKeepsOtherCurrencies(rows, c, cs, now);
  }

  /** A successful remote call returns the fetched list, refreshes the
      in-memory entry, clears the backoff and replaces the currency's
      persisted rows by rows of the fetched list: by exactly that list when
      its ids are distinct. */
  lemma TopSuccess(mem: Memory, store: Store, v: string, force: bool, now: Millis,
                   stored: seq<MarketCoinEntity>, api: MarketsApi, dtos: seq<MarketDto>)
    requires RowsKeyed(store.rows)
    requires FetchTop(mem, store, v, force, now, stored, api).call.Some?
    requires api(TopRequest(Lower(v))) == Success(dtos)
    ensures var a := FetchTop(mem, store, v, force, now, stored, api);
      && a.result == Success(FromDtos(dtos))
      && a.mem == mem.(top := mem.top[Lower(v) := CacheEntry(now, FromDtos(dtos))])
      && a.store.syncs == store.syncs[Lower(v) := CurrencySyncEntity(Lower(v), now, 0)]
      && RowsOf(a.store.rows, Lower(v)) <= (set x | x in FromDtos(dtos) :: ToMarketEntity(x, Lower(v), now))
      && (DistinctIds(FromDtos(dtos)) ==>
            RowsOf(a.store.rows, Lower(v)) == (set x | x in FromDtos(dtos) :: ToMarketEntity(x, Lower(v), now)))
      && OtherCurrenciesKept(store.rows, a.store.rows, Lower(v))
  {
    TopCallIsRemote(mem, store, v, force, now, stored, api);
    var fetched := FromDtos(dtos);
    ReplacedRowsFromList(store.rows, Lower(v), fetched, now);
    ReplaceKeepsOtherCurrencies(store.rows, Lower(v), fetched, now);
    if DistinctIds(fetched) {
      ListStoredAsRows(store.rows, Lower(v), fetched, now);
    }
  }

  /** On HTTP 429 the backoff is written (keeping the last successful fetch
      time) and the persisted list, if any, is returned and cached in memory;
      without one the 429 propagates and the memory is untouched. */
  lemma TopRateLimited(mem: Memory, store: Store, v: string, force: bool, now: Millis,
                       stored: seq<MarketCoinEntity>, api: MarketsApi, f: Failure)
    requires FetchTop(mem, store, v, force, now, stored, api).call.Some?
    requires api(TopRequest(Lower(v))) == Failure(f) && IsRateLimited(f)
    ensures var a := FetchTop(mem, store, v, force, now, stored, api);
      && a.store.rows == store.rows
      && a.store.syncs == store.syncs[Lower(v) := CurrencySyncEntity(Lower(v),
           SyncOrDefault(store.syncs, Lower(v)).lastFetchedAtMs, NextAllowedAt(now, f.retryAfterSec))]
      && (|stored| > 0 ==>
            && a.result == Success(ToDomainAll(stored))
            && a.mem == mem.(top := mem.top[Lower(v) := CacheEntry(now, ToDomainAll(stored))]))
      && (|stored| == 0 ==> a.result == Failure(f) && a.mem == mem)
  {
    TopCallIsRemote(mem, store, v, force, now, stored, api);
  }

  /** Any other failure propagates and changes nothing. */
  lemma TopOtherFailure(mem: Memory, store: Store, v: string, force: bool, now: Millis,
                        stored: seq<MarketCoinEntity>, api: MarketsApi, f: Failure)
    requires FetchTop(mem, store, v, force, now, stored, api).call.Some?
    requires api(TopRequest(Lower(v))) == Failure(f) && !IsRateLimited(f)
    ensures FetchTop(mem, store, v, force, now, stored, api) == Answer(Failure(f), Some(TopRequest(Lower(v))), mem, store)
  {
    TopCallIsRemote(mem, store, v, force, now, stored, api);
  }

  // ---------------------------------------------------------------------------
  // fetchCoin

  /** A fresh in-memory entry for `"currency:id"` answers an unforced call. */
  lemma CoinMemoryHit(mem: Memory, store: Store, id: string, v: string, now: Millis, api: MarketsApi)
    requires FreshIn(mem.coins, Lower(v) + ":" + id, now, TOP_TTL_MS)
    ensures FetchOne(mem, store, id, v, false, now, api)
         == Answer(Success(Some(mem.coins[Lower(v) + ":" + id].value)), None, mem, store)
  {
  }

  /** During a backoff window a persisted row for the coin is returned with no
      remote call; there is no 5000 ms floor on this query. */
  lemma CoinBackoffServesRow(mem: Memory, store: Store, id: string, v: string, force: bool, now: Millis, api: MarketsApi)
    requires !(!force && FreshIn(mem.coins, Lower(v) + ":" + id, now, TOP_TTL_MS))
    requires now < SyncOrDefault(store.syncs, Lower(v)).nextAllowedAtMs
    requires RowKey(Lower(v), id) in store.rows
    ensures FetchOne(mem, store, id, v, force, now, api)
         == Answer(Success(Some(ToDomain(store.rows[RowKey(Lower(v), id)]))), None, mem, store)
  {
  }

  /** The single-coin request names the id and asks for one item of page 1. */
  lemma CoinRequestShape(mem: Memory, store: Store, id: string, v: string, force: bool, now: Millis, api: MarketsApi)
    ensures var a := FetchOne(mem, store, id, v, force, now, api);
      a.call.Some? ==> a.call.value == MarketsRequest(Lower(v), Some(id), Some(1), Some(1))
  {
  }

  /** An empty response is "not found": null, and nothing changes. */
  lemma CoinNotFound(mem: Memory, store: Store, id: string, v: string, force: bool, now: Millis, api: MarketsApi)
    requires FetchOne(mem, store, id, v, force, now, api).call.Some?
    requires api(CoinRequest(Lower(v), id)) == Success([])
    ensures FetchOne(mem, store, id, v, force, now, api) == Answer(Success(None), Some(CoinRequest(Lower(v), id)), mem, store)
  {
  }

  /** A found coin is cached under `"currency:id"` at `now` and upserted as one
      row; the sync rows are not touched. */
  lemma CoinFound(mem: Memory, store: Store, id: string, v: string, force: bool, now: Millis, api: MarketsApi, dtos: seq<MarketDto>)
    requires FetchOne(mem, store, id, v, force, now, api).call.Some?
    requires api(CoinRequest(Lower(v), id)) == Success(dtos) && |dtos| > 0
    ensures var a := FetchOne(mem, store, id, v, force, now, api);
      && a.result == Success(Some(FromDto(dtos[0])))
      && a.mem == mem.(coins := mem.coins[Lower(v) + ":" + id := CacheEntry(now, FromDto(dtos[0]))])
      && a.store.rows == store.rows[RowKey(Lower(v), dtos[0].id) := ToMarketEntity(FromDto(dtos[0]), Lower(v), now)]
      && a.store.syncs == store.syncs
  {
    var e := ToMarketEntity(FromDto(dtos[0]), Lower(v), now);
    assert [e][..0] == [];
    assert UpsertRows(store.rows, [e]) == store.rows[KeyOf(e) := e];
  }

  /** Every failure of the single-coin call propagates, a 429 included, and
      no backoff is recorded. */
  lemma CoinFailure(mem: Memory, store: Store, id: string, v: string, force: bool, now: Millis, api: MarketsApi, f: Failure)
    requires FetchOne(mem, store, id, v, force, now, api).call.Some?
    requires api(CoinRequest(Lower(v), id)) == Failure(f)
    ensures FetchOne(mem, store, id, v, force, now, api) == Answer(Failure(f), Some(CoinRequest(Lower(v), id)), mem, store)
  {
  }

  // ---------------------------------------------------------------------------
  // fetchCoinsByIds

  /** An empty id list yields an empty list and touches nothing. */
  lemma ByIdsEmpty(mem: Memory, store: Store, v: string, force: bool, now: Millis, stored: seq<MarketCoinEntity>, api: MarketsApi)
    ensures FetchByIds(mem, store, [], v, force, now, stored, api) == Answer(Success([]), None, mem, store)
  {
  }

  /** The cache key depends only on the currency's lowercase form and on the
      multiset of the ids, not on their order. */
  lemma IdsCacheKeyPermutation(v1: string, v2: string, ids1: seq<string>, ids2: seq<string>)
    requires Lower(v1) == Lower(v2)
    requires multiset(ids1) == multiset(ids2)
    ensures IdsCacheKey(Lower(v1), ids1) == IdsCacheKey(Lower(v2), ids2)
    ensures IdsParam(ids1) == IdsParam(ids2)
  {
    SortPermutationInvariant(ids1, ids2);
  }

  /** Any permutation of the same ids gives the same query: same cache entry,
      same request, same effects. */
  lemma ByIdsPermutation(mem: Memory, store: Store, ids1: seq<string>, ids2: seq<string>, v: string, force: bool,
                         now: Millis, stored: seq<MarketCoinEntity>, api: MarketsApi)
    requires multiset(ids1) == multiset(ids2)
    ensures FetchByIds(mem, store, ids1, v, force, now, stored, api) == FetchByIds(mem, store, ids2, v, force, now, stored, api)
  {
    SortPermutationInvariant(ids1, ids2);
    assert |ids1| == |multiset(ids1)| == |multiset(ids2)| == |ids2|;
    assert IdsCacheKey(Lower(v), ids1) == IdsCacheKey(Lower(v), ids2);
    assert IdsRequest(Lower(v), ids1) == IdsRequest(Lower(v), ids2);
  }

  /** An entry at most 5000 ms old is returned even when forced, before the
      database is consulted: nothing is read, written or called. */
  lemma ByIdsMinIntervalBeatsForce(mem: Memory, store: Store, ids: seq<string>, v: string, force: bool, now: Millis,
                                   stored: seq<MarketCoinEntity>, api: MarketsApi)
    requires ids != []
    requires IdsCacheKey(Lower(v), ids) in mem.byIds && now - mem.byIds[IdsCacheKey(Lower(v), ids)].atMs <= MIN_INTERVAL_MS
    ensures FetchByIds(mem, store, ids, v, force, now, stored, api)
         == Answer(Success(mem.byIds[IdsCacheKey(Lower(v), ids)].value), None, mem, store)
  {
  }

  /** The batch request carries the sorted, comma-joined ids and a page size of
      `min(|ids|, 250)`. */
  lemma ByIdsRequestShape(mem: Memory, store: Store, ids: seq<string>, v: string, force: bool, now: Millis,
                          stored: seq<MarketCoinEntity>, api: MarketsApi)
    ensures var a := FetchByIds(mem, store, ids, v, force, now, stored, api);
      a.call.Some? ==>
        && a.call.value == MarketsRequest(Lower(v), Some(Join(SortStrings(ids), ",")), Some(PageSize(ids)), Some(1))
        && |ids| > 0
        && a.call.value.perPage.value == (if |ids| < MAX_PAGE_SIZE then |ids| else MAX_PAGE_SIZE)
  {
  }

  /** During a backoff window the persisted subset of the requested ids, when
      not empty, is returned with no remote call. */
  lemma ByIdsBackoffServesStore(mem: Memory, store: Store, ids: seq<string>, v: string, force: bool, now: Millis,
                                stored: seq<MarketCoinEntity>, api: MarketsApi)
    requires ids != []
    requires Lists(stored, store.rows, IdKeys(store.rows, Lower(v), ids))
    requires !FreshIn(mem.byIds, IdsCacheKey(Lower(v), ids), now, MIN_INTERVAL_MS)
    requires !(!force && FreshIn(mem.byIds, IdsCacheKey(Lower(v), ids), now, TOP_TTL_MS))
    requires now < SyncOrDefault(store.syncs, Lower(v)).nextAllowedAtMs
    requires IdKeys(store.rows, Lower(v), ids) != {}
    ensures FetchByIds(mem, store, ids, v, force, now, stored, api) == Answer(Success(ToDomainAll(stored)), None, mem, store)
  {
    ListsEmpty(stored, store.rows, IdKeys(store.rows, Lower(v), ids));
  }

  /** A batch query that calls the remote API has passed both cache tiers and
      the backoff check: what follows is its remote part. */
  lemma ByIdsCallIsRemote(mem: Memory, store: Store, ids: seq<string>, v: string, force: bool, now: Millis,
                          stored: seq<MarketCoinEntity>, api: MarketsApi)
    requires FetchByIds(mem, store, ids, v, force, now, stored, api).call.Some?
    ensures |ids| > 0
    ensures FetchByIds(mem, store, ids, v, force, now, stored, api)
         == ByIdsRemote(mem, store, Lower(v), IdsCacheKey(Lower(v), ids), IdsRequest(Lower(v), ids), now,
                        SyncOrDefault(store.syncs, Lower(v)), ToDomainAll(stored), api)
  {
  }

  /** A successful batch call upserts the fetched rows (rows of other ids
      stay), clears the backoff and caches the list under the batch key. */
  lemma ByIdsSuccess(mem: Memory, store: Store, ids: seq<string>, v: string, force: bool, now: Millis,
                     stored: seq<MarketCoinEntity>, api: MarketsApi, dtos: seq<MarketDto>)
    requires FetchByIds(mem, store, ids, v, force, now, stored, api).call.Some?
    requires api(IdsRequest(Lower(v), ids)) == Success(dtos)
    ensures var a := FetchByIds(mem, store, ids, v, force, now, stored, api);
      && a.result == Success(FromDtos(dtos))
      && a.mem == mem.(byIds := mem.byIds[IdsCacheKey(Lower(v), ids) := CacheEntry(now, FromDtos(dtos))])
      && a.store.rows == UpsertRows(store.rows, ToMarketEntities(FromDtos(dtos), Lower(v), now))
      && a.store.syncs == store.syncs[Lower(v) := CurrencySyncEntity(Lower(v), now, 0)]
      && store.rows.Keys <= a.store.rows.Keys
      && (forall k :: k in store.rows && (k.vsCurrency != Lower(v) || forall x :: x in FromDtos(dtos) ==> x.id != k.id)
            ==> a.store.rows[k] == store.rows[k])
  {
    ByIdsCallIsRemote(mem, store, ids, v, force, now, stored, api);
    var items := ToMarketEntities(FromDtos(dtos), Lower(v), now);
    forall k | k in store.rows && (k.vsCurrency != Lower(v) || forall x :: x in FromDtos(dtos) ==> x.id != k.id)
      ensures UpsertRows(store.rows, items)[k] == store.rows[k]
    {
      forall i | 0 <= i < |items| ensures KeyOf(items[i]) != k {
        assert FromDtos(dtos)[i] in FromDtos(dtos);
      }
      UpsertRowsUntouched(store.rows, items, k);
    }
  }

  /** On HTTP 429 the backoff is written; the persisted subset, if any, is
      returned but, unlike the top list, not cached in memory. */
  lemma ByIdsRateLimited(mem: Memory, store: Store, ids: seq<string>, v: string, force: bool, now: Millis,
                         stored: seq<MarketCoinEntity>, api: MarketsApi, f: Failure)
    requires FetchByIds(mem, store, ids, v, force, now, stored, api).call.Some?
    requires api(IdsRequest(Lower(v), ids)) == Failure(f) && IsRateLimited(f)
    ensures var a := FetchByIds(mem, store, ids, v, force, now, stored, api);
      && a.mem == mem
      && a.store.rows == store.rows
      && a.store.syncs == store.syncs[Lower(v) := CurrencySyncEntity(Lower(v),
           SyncOrDefault(store.syncs, Lower(v)).lastFetchedAtMs, NextAllowedAt(now, f.retryAfterSec))]
      && a.result == if |stored| > 0 then Success(ToDomainAll(stored)) else Failure(f)
  {
    ByIdsCallIsRemote(mem, store, ids, v, force, now, stored, api);
    assert |ToDomainAll(stored)| == |stored|;
  }

  /** Any other failure of the batch call propagates and changes nothing. */
  lemma ByIdsOtherFailure(mem: Memory, store: Store, ids: seq<string>, v: string, force: bool, now: Millis,
                          stored: seq<MarketCoinEntity>, api: MarketsApi, f: Failure)
    requires FetchByIds(mem, store, ids, v, force, now, stored, api).call.Some?
    requires api(IdsRequest(Lower(v), ids)) == Failure(f) && !IsRateLimited(f)
    ensures FetchByIds(mem, store, ids, v, force, now, stored, api)
         == Answer(Failure(f), Some(IdsRequest(Lower(v), ids)), mem, store)
  {
    ByIdsCallIsRemote(mem, store, ids, v, force, now, stored, api);
  }

  // ---------------------------------------------------------------------------
  // Properties that span several calls

  /** When the first succeeds, two unforced calls within the TTL issue at most
      one remote call, and when the first one called, the second returns the
      same list. */
  lemma TwoCallsWithinTtl(mem: Memory, store: Store, v: string, now1: Millis, now2: Millis,
                          stored1: seq<MarketCoinEntity>, stored2: seq<MarketCoinEntity>, api: MarketsApi)
    requires now1 <= now2 && now2 - now1 <= TOP_TTL_MS
    requires FetchTop(mem, store, v, false, now1, stored1, api).result.Success?
    ensures var a1 := FetchTop(mem, store, v, false, now1, stored1, api);
      var a2 := FetchTop(a1.mem, a1.store, v, false, now2, stored2, api);
      a1.call.None? || (a2.call.None? && a2.result == a1.result)
  {
  }

  /** A failed first call writes no memory entry and, with nothing persisted,
      no short cut applies: one second later an unforced call reaches the
      API again, whether the first failure was a 429 or another error. */
  lemma FailedFirstCallCallsAgain(sec: Long)
    requires 0 <= sec
    ensures var mem, store := Memory(map[], map[], map[]), Store(map[], map[]);
      var api429: MarketsApi := _ => Failure(HttpError(HTTP_TOO_MANY_REQUESTS, Some(sec)));
      var apiOther: MarketsApi := _ => Failure(OtherError("timeout"));
      var b1 := FetchTop(mem, store, "usd", false, 1000, [], api429);
      var b2 := FetchTop(b1.mem, b1.store, "usd", false, 1001, [], api429);
      var c1 := FetchTop(mem, store, "usd", false, 1000, [], apiOther);
      var c2 := FetchTop(c1.mem, c1.store, "usd", false, 1001, [], apiOther);
      && b1.call.Some? && b2.call.Some? && b2.result.Failure?
      && c1.call.Some? && c2.call.Some? && c2.result.Failure?
  {
  }

  /** When the first succeeds, two forced calls within 5000 ms issue at most
      one remote call. */
  lemma ForcedTwiceWithinMinInterval(mem: Memory, store: Store, v: string, now1: Millis, now2: Millis,
                                     stored1: seq<MarketCoinEntity>, stored2: seq<MarketCoinEntity>, api: MarketsApi)
    requires now1 <= now2 && now2 - now1 <= MIN_INTERVAL_MS
    requires FetchTop(mem, store, v, true, now1, stored1, api).result.Success?
    ensures var a1 := FetchTop(mem, store, v, true, now1, stored1, api);
      var a2 := FetchTop(a1.mem, a1.store, v, true, now2, stored2, api);
      a1.call.None? || a2.call.None?
  {
  }

  /** After a 429 with `Retry-After: sec` and persisted data, every call in the
      next `sec` seconds is answered from the data without a remote call. */
  lemma BackoffHonoured(mem: Memory, store: Store, v: string, force1: bool, force2: bool, now1: Millis, now2: Millis,
                        stored1: seq<MarketCoinEntity>, stored2: seq<MarketCoinEntity>, api: MarketsApi, sec: Long)
    requires RowsKeyed(store.rows)
    requires Lists(stored1, store.rows, CurrencyKeys(store.rows, Lower(v)))
    requires Lists(stored2, store.rows, CurrencyKeys(store.rows, Lower(v)))
    requires CurrencyKeys(store.rows, Lower(v)) != {}
    requires FetchTop(mem, store, v, force1, now1, stored1, api).call.Some?
    requires api(TopRequest(Lower(v))) == Failure(HttpError(HTTP_TOO_MANY_REQUESTS, Some(sec)))
    requires InLongRange(now1 + sec * 1000)
    requires now1 <= now2 < now1 + sec * 1000
    ensures var a1 := FetchTop(mem, store, v, force1, now1, stored1, api);
      var a2 := FetchTop(a1.mem, a1.store, v, force2, now2, stored2, api);
      && a1.result == Success(ToDomainAll(stored1))
      && a2.call.None?
      && (a2.result == Success(ToDomainAll(stored1)) || a2.result == Success(ToDomainAll(stored2)))
  {
    ListsEmpty(stored1, store.rows, CurrencyKeys(store.rows, Lower(v)));
    ListsEmpty(stored2, store.rows, CurrencyKeys(store.rows, Lower(v)));
    TopRateLimited(mem, store, v, force1, now1, stored1, api, HttpError(HTTP_TOO_MANY_REQUESTS, Some(sec)));
  }

  /** Once the window has passed (and 5000 ms with it) a forced call reaches
      the remote API again. */
  lemma BackoffExpires(mem: Memory, store: Store, v: string, force1: bool, now1: Millis, now2: Millis,
                       stored1: seq<MarketCoinEntity>, stored2: seq<MarketCoinEntity>, api: MarketsApi, sec: Long)
    requires FetchTop(mem, store, v, force1, now1, stored1, api).call.Some?
    requires api(TopRequest(Lower(v))) == Failure(HttpError(HTTP_TOO_MANY_REQUESTS, Some(sec)))
    requires InLongRange(now1 + sec * 1000)
    requires now2 >= now1 + sec * 1000 && now2 - now1 > MIN_INTERVAL_MS
    ensures var a1 := FetchTop(mem, store, v, force1, now1, stored1, api);
      FetchTop(a1.mem, a1.store, v, true, now2, stored2, api).call == Some(TopRequest(Lower(v)))
  {
    TopRateLimited(mem, store, v, force1, now1, stored1, api, HttpError(HTTP_TOO_MANY_REQUESTS, Some(sec)));
  }

  /** A rate limit with no `Retry-After` and nothing persisted propagates the
      429 to the caller. */
  lemma RateLimitWithoutFallback(mem: Memory, store: Store, v: string, force: bool, now: Millis,
                                 stored: seq<MarketCoinEntity>, api: MarketsApi)
    requires Lists(stored, store.rows, CurrencyKeys(store.rows, Lower(v)))
    requires CurrencyKeys(store.rows, Lower(v)) == {}
    requires FetchTop(mem, store, v, force, now, stored, api).call.Some?
    requires api(TopRequest(Lower(v))) == Failure(HttpError(HTTP_TOO_MANY_REQUESTS, None))
    ensures FetchTop(mem, store, v, force, now, stored, api).result == Failure(HttpError(HTTP_TOO_MANY_REQUESTS, None))
  {
    ListsEmpty(stored, store.rows, CurrencyKeys(store.rows, Lower(v)));
  }

  /** A coin written by a successful top fetch is the row the single-coin
      query reads back, field for field, for any later database state that
      holds the same rows and is in a backoff window, even with empty memory. */
  lemma PersistedCoinReadBack(mem: Memory, store: Store, v: string, force: bool, now: Millis,
                              stored: seq<MarketCoinEntity>, api: MarketsApi, dtos: seq<MarketDto>, i: int,
                              later: Store, force2: bool, now2: Millis, api2: MarketsApi)
    requires RowsKeyed(store.rows)
    requires FetchTop(mem, store, v, force, now, stored, api).call.Some?
    requires api(TopRequest(Lower(v))) == Success(dtos)
    requires 0 <= i < |dtos| && forall j :: i < j < |dtos| ==> dtos[j].id != dtos[i].id
    requires later.rows == FetchTop(mem, store, v, force, now, stored, api).store.rows
    requires now2 < SyncOrDefault(later.syncs, Lower(v)).nextAllowedAtMs
    ensures FetchOne(EmptyMemory, later, dtos[i].id, v, force2, now2, api2)
         == Answer(Success(Some(FromDto(dtos[i]))), None, EmptyMemory, later)
  {
    TopCallIsRemote(mem, store, v, force, now, stored, api);
    var c := Lower(v);
    var items := ToMarketEntities(FromDtos(dtos), c, now);
    assert forall j :: i < j < |items| ==> KeyOf(items[j]) == RowKey(c, dtos[j].id);
    UpsertRowsLast(DeleteCurrency(store.rows, c), items, i);
  }

  /** Scenario: fetch the top list, get rate-limited on a later forced
      refresh, restart the process (memory empty): inside the backoff window
      the single-coin query returns the persisted coin without a remote call. */
  lemma RestartDuringBackoffServesPersistedCoin(
    mem: Memory, store: Store, v: string, now1: Millis, stored1: seq<MarketCoinEntity>, api1: MarketsApi,
    dtos: seq<MarketDto>, i: int,
    now2: Millis, stored2: seq<MarketCoinEntity>, api2: MarketsApi, sec: Long,
    force3: bool, now3: Millis, api3: MarketsApi)
    requires RowsKeyed(store.rows)
    requires FetchTop(mem, store, v, false, now1, stored1, api1).call.Some?
    requires api1(TopRequest(Lower(v))) == Success(dtos)
    requires 0 <= i < |dtos| && forall j :: i < j < |dtos| ==> dtos[j].id != dtos[i].id
    requires var a1 := FetchTop(mem, store, v, false, now1, stored1, api1);
      FetchTop(a1.mem, a1.store, v, true, now2, stored2, api2).call.Some?
    requires api2(TopRequest(Lower(v))) == Failure(HttpError(HTTP_TOO_MANY_REQUESTS, Some(sec)))
    requires InLongRange(now2 + sec * 1000)
    requires now3 < now2 + sec * 1000
    ensures var a1 := FetchTop(mem, store, v, false, now1, stored1, api1);
      var a2 := FetchTop(a1.mem, a1.store, v, true, now2, stored2, api2);
      FetchOne(EmptyMemory, a2.store, dtos[i].id, v, force3, now3, api3)
        == Answer(Success(Some(FromDto(dtos[i]))), None, EmptyMemory, a2.store)
  {
    var a1 := FetchTop(mem, store, v, false, now1, stored1, api1);
    var c := Lower(v);
    TopRateLimited(a1.mem, a1.store, v, true, now2, stored2, api2, HttpError(HTTP_TOO_MANY_REQUESTS, Some(sec)));
    var a2 := FetchTop(a1.mem, a1.store, v, true, now2, stored2, api2);
    assert SyncOrDefault(a2.store.syncs, c).nextAllowedAtMs == now2 + sec * 1000;
    PersistedCoinReadBack(mem, store, v, false, now1, stored1, api1, dtos, i, a2.store, force3, now3, api3);
  }

  /** Currency codes differing only in letter case reach the same cache
      entries, the same rows and the same requests. */
  lemma CurrencyCaseInsensitive(mem: Memory, store: Store, v1: string, v2: string, id: string, ids: seq<string>,
                                force: bool, now: Millis, stored: seq<MarketCoinEntity>, api: MarketsApi)
    requires Lower(v1) == Lower(v2)
    ensures FetchTop(mem, store, v1, force, now, stored, api) == FetchTop(mem, store, v2, force, now, stored, api)
    ensures FetchOne(mem, store, id, v1, force, now, api) == FetchOne(mem, store, id, v2, force, now, api)
    ensures FetchByIds(mem, store, ids, v1, force, now, stored, api) == FetchByIds(mem, store, ids, v2, force, now, stored, api)
  {
  }

  // ---------------------------------------------------------------------------
  // Favorites

  /** Favoriting then unfavoriting a coin leaves the table as before, minus any
      record the coin had already: no residue and no duplicate. */
  lemma FavoriteThenUnfavorite(records: map<string, FavoriteCoinEntity>, coin: Coin)
    ensures FavoritesAfter(FavoritesAfter(records, coin, true), coin, false) == records - {coin.id}
    ensures coin.id !in records ==> FavoritesAfter(FavoritesAfter(records, coin, true), coin, false) == records
  {
  }

  /** `observeIsFavorite` reports the last `setFavorite`, and `observeFavorites`
      gives back the coin that was favorited. */
  lemma FavoriteObserved(records: map<string, FavoriteCoinEntity>, coin: Coin, favorite: bool)
    ensures (coin.id in FavoritesAfter(records, coin, favorite)) == favorite
    ensures favorite ==> FavoriteToCoin(FavoritesAfter(records, coin, favorite)[coin.id]) == coin
  {
  }
}
