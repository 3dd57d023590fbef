/** The market-data cache and rate-limit engine of `CoinsRepository`.

    Each query is given twice: as a function of the state before the call
    (`FetchTop`, `FetchOne`, `FetchByIds`), which says what the query returns,
    which remote request it makes and what both cache tiers hold afterwards;
    and as a method of class `CoinsRepository`, which performs the same steps
    on its own maps and on the DAO, and is proved to agree with the function.

    The clock is the parameter `now`; the remote `getMarkets` endpoint is the
    parameter `api`, a function from the request to the response or the
    exception it throws. */
module Coins {
  import opened Wrappers
  import opened Int64
  import opened Text
  import opened Domain
  import opened LocalStore

  /** Freshness window of every in-memory and persisted entry. */
  const TOP_TTL_MS: int := 5 * 60_000
  /** Hard floor between two remote calls for one cache key; `force` does not bypass it. */
  const MIN_INTERVAL_MS: int := 5_000
  /** Backoff after an HTTP 429 that carries no usable `Retry-After`. */
  const DEFAULT_BACKOFF_MS: int := 60_000
  /** Largest page the batch query asks for. */
  const MAX_PAGE_SIZE: int := 250
  const HTTP_TOO_MANY_REQUESTS: int := 429

  /** An in-memory value with the time it was stored. */
  datatype CacheEntry<T> = CacheEntry(atMs: Millis, value: T)

  /** The three in-memory maps: by currency, by `"currency:id"`, and by
      `"currency:" + sorted ids joined by ","`. */
  datatype Memory = Memory(
    top: map<string, CacheEntry<seq<Coin>>>,
    coins: map<string, CacheEntry<Coin>>,
    byIds: map<string, CacheEntry<seq<Coin>>>)

  const EmptyMemory: Memory := Memory(map[], map[], map[])

  /** The arguments of `getMarkets(vsCurrency, ids, perPage, page)`; `None`
      leaves the endpoint's default in place. */
  datatype MarketsRequest = MarketsRequest(
    vsCurrency: string,
    ids: Option<string>,
    perPage: Option<int>,
    page: Option<int>)

  /** What the remote call throws: an `HttpException` with its status code and
      the `Retry-After` header read as a `Long` (absent when missing or not a
      number), or any other exception. */
  datatype Failure =
    | HttpError(code: int, retryAfterSec: Option<Long>)
    | OtherError(message: string)

  /** The remote market source: the response, or what it throws, for each request. */
  type MarketsApi = MarketsRequest -> Result<seq<MarketDto>, Failure>

  /** The effect of one query: its result or exception, the remote request it
      made (at most one), and both tiers afterwards. */
  datatype Answer<T> = Answer(
    result: Result<T, Failure>,
    call: Option<MarketsRequest>,
    mem: Memory,
    store: Store)

  predicate IsRateLimited(f: Failure) {
    f.HttpError? && f.code == HTTP_TOO_MANY_REQUESTS
  }

  /** Wrapping an intermediate result does not change the wrapped total. */
  lemma WrapAddWrap(a: int, b: int)
    ensures Wrap(a + Wrap(b)) == Wrap(a + b)
  {
    var x, y := a + Wrap(b), a + b;
    assert (x - y) % TWO_64 == 0 by {
      assert (b - Wrap(b)) % TWO_64 == 0;
    }
    var d := Wrap(x) - Wrap(y);
    assert (x - Wrap(x)) % TWO_64 == 0 && (y - Wrap(y)) % TWO_64 == 0;
    assert d % TWO_64 == 0;
  }

  /** The end of the backoff window after a 429 at `now`: `now + retryAfter * 1000`
      when the header is usable, else `now + 60000`, both in `Long` arithmetic. */
  function NextAllowedAt(now: Millis, retryAfterSec: Option<Long>): (r: Long)
    ensures retryAfterSec.Some? && InLongRange(now + retryAfterSec.value * 1000) ==>
      r == now + retryAfterSec.value * 1000
    ensures retryAfterSec.None? && now + DEFAULT_BACKOFF_MS <= MAX_LONG ==> r == now + DEFAULT_BACKOFF_MS
  {
    match retryAfterSec
    case Some(sec) =>
      WrapAddWrap(now, sec * 1000);
      Wrap(now + Wrap(sec * 1000))
    case None => Wrap(now + DEFAULT_BACKOFF_MS)
  }

  /** The sync row written after a 429: the backoff moves, the last successful
      fetch time stays. */
  function BackedOff(currency: string, sync: CurrencySyncEntity, now: Millis, f: Failure): CurrencySyncEntity
    requires f.HttpError?
  {
    CurrencySyncEntity(currency, sync.lastFetchedAtMs, NextAllowedAt(now, f.retryAfterSec))
  }

  /** True when `key` has an entry in `cache` at most `window` ms old. */
  predicate FreshIn<T>(cache: map<string, CacheEntry<T>>, key: string, now: Millis, window: int) {
    key in cache && now - cache[key].atMs <= window
  }

  function TopRequest(currency: string): MarketsRequest {
    MarketsRequest(currency, None, None, None)
  }

  /** `fetchTopCoins(vsCurrency, force)`. `stored` is the database's answer to
      `getAllForCurrency`, in the order it chose. */
  function FetchTop(mem: Memory, store: Store, vsCurrency: string, force: bool, now: Millis,
                    stored: seq<MarketCoinEntity>, api: MarketsApi): Answer<seq<Coin>>
  {
    var currency := Lower(vsCurrency);
    if !force && FreshIn(mem.top, currency, now, TOP_TTL_MS) then
      Answer(Success(mem.top[currency].value), None, mem, store)
    else
      TopFromStore(mem, store, currency, force, now, stored, api)
  }

  /** `fetchTopCoins` once the in-memory fast path has not answered: the
      backoff, persisted-data and minimum-interval checks, then the call. */
  function TopFromStore(mem: Memory, store: Store, currency: string, force: bool, now: Millis,
                        stored: seq<MarketCoinEntity>, api: MarketsApi): Answer<seq<Coin>>
  {
    var sync := SyncOrDefault(store.syncs, currency);
    var cacheFromDb := ToDomainAll(stored);
    if now < sync.nextAllowedAtMs && |cacheFromDb| > 0 then
      Answer(Success(cacheFromDb), None, mem, store)
    else if !force && sync.lastFetchedAtMs > 0 && now - sync.lastFetchedAtMs <= TOP_TTL_MS && |cacheFromDb| > 0 then
      Answer(Success(cacheFromDb), None, mem.(top := mem.top[currency := CacheEntry(now, cacheFromDb)]), store)
    else if FreshIn(mem.top, currency, now, MIN_INTERVAL_MS) then
      Answer(Success(mem.top[currency].value), None, mem, store)
    else
      TopRemote(mem, store, currency, now, sync, cacheFromDb, api)
  }

  /** The remote call of `fetchTopCoins` and what each reply does. */
  function TopRemote(mem: Memory, store: Store, currency: string, now: Millis, sync: CurrencySyncEntity,
                     cacheFromDb: seq<Coin>, api: MarketsApi): Answer<seq<Coin>>
  {
    var req := TopRequest(currency);
    match api(req) {
      case Success(dtos) =>
        var fetched := FromDtos(dtos);
        var rows := UpsertRows(DeleteCurrency(store.rows, currency), ToMarketEntities(fetched, currency, now));
        Answer(Success(fetched), Some(req),
               mem.(top := mem.top[currency := CacheEntry(now, fetched)]),
               Store(rows, store.syncs[currency := CurrencySyncEntity(currency, now, 0)]))
      case Failure(f) =>
        if IsRateLimited(f) then
          var limited := store.(syncs := store.syncs[currency := BackedOff(currency, sync, now, f)]);
          if |cacheFromDb| > 0 then
            Answer(Success(cacheFromDb), Some(req), mem.(top := mem.top[currency := CacheEntry(now, cacheFromDb)]), limited)
          else
            Answer(Failure(f), Some(req), mem, limited)
        else
          Answer(Failure(f), Some(req), mem, store)
    }
  }

  function CoinKey(currency: string, id: string): string {
    currency + ":" + id
  }

  function CoinRequest(currency: string, id: string): MarketsRequest {
    MarketsRequest(currency, Some(id), Some(1), Some(1))
  }

  /** `fetchCoin(id, vsCurrency, force)`: `None` is Kotlin's `null`. */
  function FetchOne(mem: Memory, store: Store, id: string, vsCurrency: string, force: bool, now: Millis,
                     api: MarketsApi): Answer<Option<Coin>>
  {
    var currency := Lower(vsCurrency);
    var key := CoinKey(currency, id);
    if !force && FreshIn(mem.coins, key, now, TOP_TTL_MS) then
      Answer(Success(Some(mem.coins[key].value)), None, mem, store)
    else
      var sync := SyncOrDefault(store.syncs, currency);
      if now < sync.nextAllowedAtMs && RowKey(currency, id) in store.rows then
        Answer(Success(Some(ToDomain(store.rows[RowKey(currency, id)]))), None, mem, store)
      else
        CoinRemote(mem, store, currency, key, id, now, api)
  }

  /** The remote call of `fetchCoin` and what each reply does; no failure is
      caught. */
  function CoinRemote(mem: Memory, store: Store, currency: string, key: string, id: string, now: Millis,
                      api: MarketsApi): Answer<Option<Coin>>
  {
    var req := CoinRequest(currency, id);
    match api(req) {
      case Failure(f) =>
        Answer(Failure(f), Some(req), mem, store)
      case Success(dtos) =>
        if |dtos| == 0 then
          Answer(Success(None), Some(req), mem, store)
        else
          var fetched := FromDto(dtos[0]);
          Answer(Success(Some(fetched)), Some(req),
                 mem.(coins := mem.coins[key := CacheEntry(now, fetched)]),
                 store.(rows := UpsertRows(store.rows, [ToMarketEntity(fetched, currency, now)])))
    }
  }

  /** The `ids` argument of the batch request: the ids sorted and joined by ",". */
  function IdsParam(ids: seq<string>): string {
    Join(SortStrings(ids), ",")
  }

  /** The key of the batch cache. */
  function IdsCacheKey(currency: string, ids: seq<string>): string {
    currency + ":" + IdsParam(ids)
  }

  /** `ids.size.coerceAtMost(250)`. */
  function PageSize(ids: seq<string>): (n: int)
    ensures n <= MAX_PAGE_SIZE && n <= |ids|
    ensures n == |ids| || n == MAX_PAGE_SIZE
  {
    if |ids| <= MAX_PAGE_SIZE then |ids| else MAX_PAGE_SIZE
  }

  function IdsRequest(currency: string, ids: seq<string>): MarketsRequest {
    MarketsRequest(currency, Some(IdsParam(ids)), Some(PageSize(ids)), Some(1))
  }

  /** `fetchCoinsByIds(ids, vsCurrency, force)`. `stored` is the database's
      answer to `getByIds(currency, ids)`, in the order it chose. */
  function FetchByIds(mem: Memory, store: Store, ids: seq<string>, vsCurrency: string, force: bool, now: Millis,
                      stored: seq<MarketCoinEntity>, api: MarketsApi): Answer<seq<Coin>>
  {
    if |ids| == 0 then
      Answer(Success([]), None, mem, store)
    else
      var currency := Lower(vsCurrency);
      ByIdsKeyed(mem, store, currency, IdsCacheKey(currency, ids), IdsRequest(currency, ids), force, now, stored, api)
  }

  /** `fetchCoinsByIds` for a non-empty id list, in terms of its cache key and
      its request, the only two things it derives from the ids. */
  function ByIdsKeyed(mem: Memory, store: Store, currency: string, key: string, req: MarketsRequest, force: bool,
                      now: Millis, stored: seq<MarketCoinEntity>, api: MarketsApi): Answer<seq<Coin>>
  {
    if !force && FreshIn(mem.byIds, key, now, TOP_TTL_MS) then
      Answer(Success(mem.byIds[key].value), None, mem, store)
    else if FreshIn(mem.byIds, key, now, MIN_INTERVAL_MS) then
      Answer(Success(mem.byIds[key].value), None, mem, store)
    else
      ByIdsFromStore(mem, store, currency, key, req, now, stored, api)
  }

  /** `fetchCoinsByIds` once neither in-memory tier has answered: the backoff
      check against the database, then the call. */
  function ByIdsFromStore(mem: Memory, store: Store, currency: string, key: string, req: MarketsRequest,
                          now: Millis, stored: seq<MarketCoinEntity>, api: MarketsApi): Answer<seq<Coin>>
  {
    var sync := SyncOrDefault(store.syncs, currency);
    var fromDb := ToDomainAll(stored);
    if now < sync.nextAllowedAtMs && |fromDb| > 0 then
      Answer(Success(fromDb), None, mem, store)
    else
      ByIdsRemote(mem, store, currency, key, req, now, sync, fromDb, api)
  }

  /** The remote part of `fetchCoinsByIds`, reached when neither tier could answer. */
  function ByIdsRemote(mem: Memory, store: Store, currency: string, key: string, req: MarketsRequest, now: Millis,
                       sync: CurrencySyncEntity, fromDb: seq<Coin>, api: MarketsApi): Answer<seq<Coin>>
  {
    match api(req) {
      case Success(dtos) =>
        var fetched := FromDtos(dtos);
        Answer(Success(fetched), Some(req),
               mem.(byIds := mem.byIds[key := CacheEntry(now, fetched)]),
               Store(UpsertRows(store.rows, ToMarketEntities(fetched, currency, now)),
                     store.syncs[currency := CurrencySyncEntity(currency, now, 0)]))
      case Failure(f) =>
        if IsRateLimited(f) then
          var limited := store.(syncs := store.syncs[currency := BackedOff(currency, sync, now, f)]);
          if |fromDb| > 0 then
            Answer(Success(fromDb), Some(req), mem, limited)
          else
            Answer(Failure(f), Some(req), mem, limited)
        else
          Answer(Failure(f), Some(req), mem, store)
    }
  }

  /** The favorites after `setFavorite(coin, favorite)`. */
  function FavoritesAfter(records: map<string, FavoriteCoinEntity>, coin: Coin, favorite: bool): (r: map<string, FavoriteCoinEntity>)
    ensures favorite ==> r.Keys == records.Keys + {coin.id} && r[coin.id] == ToFavorite(coin)
    ensures !favorite ==> r.Keys == records.Keys - {coin.id}
    ensures forall id :: id in records && id != coin.id ==> id in r && r[id] == records[id]
  {
    if favorite then records[coin.id := ToFavorite(coin)] else records - {coin.id}
  }

  /** A listing of a query's rows has one entry exactly when the one key asked
      for is present, and then it is that row. */
  lemma SingleIdListing(s: seq<MarketCoinEntity>, rows: map<RowKey, MarketCoinEntity>, c: string, id: string)
    requires RowsKeyed(rows)
    requires Lists(s, rows, IdKeys(rows, c, [id]))
    ensures |s| > 0 <==> RowKey(c, id) in rows
    ensures |s| > 0 ==> s[0] == rows[RowKey(c, id)]
  {
    ListsEmpty(s, rows, IdKeys(rows, c, [id]));
    if |s| > 0 {
      assert KeyOf(s[0]) in IdKeys(rows, c, [id]);
    }
  }

  /** The repository object: the three in-memory maps it updates in place and
      the two DAOs it is given. */
  class CoinsRepository {
    var topCacheByCurrency: map<string, CacheEntry<seq<Coin>>>
    var coinCache: map<string, CacheEntry<Coin>>
    var coinsByIdsCache: map<string, CacheEntry<seq<Coin>>>
    const marketCacheDao: MarketCacheDao
    const favoritesDao: FavoritesDao

    ghost function Caches(): Memory
      reads this
    {
      Memory(topCacheByCurrency, coinCache, coinsByIdsCache)
    }

    constructor (marketCacheDao: MarketCacheDao, favoritesDao: FavoritesDao)
      ensures Caches() == EmptyMemory
      ensures this.marketCacheDao == marketCacheDao && this.favoritesDao == favoritesDao
    {
      this.marketCacheDao := marketCacheDao;
      this.favoritesDao := favoritesDao;
      topCacheByCurrency := map[];
      coinCache := map[];
      coinsByIdsCache := map[];
    }

    method FetchTopCoins(vsCurrency: string, force: bool, now: Millis, api: MarketsApi)
      returns (r: Result<seq<Coin>, Failure>, call: Option<MarketsRequest>, ghost stored: seq<MarketCoinEntity>)
      requires marketCacheDao.Valid()
      modifies this, marketCacheDao
      ensures marketCacheDao.Valid()
      ensures Lists(stored, old(marketCacheDao.rows), CurrencyKeys(old(marketCacheDao.rows), Lower(vsCurrency)))
      ensures Answer(r, call, Caches(), marketCacheDao.Contents())
           == FetchTop(old(Caches()), old(marketCacheDao.Contents()), vsCurrency, force, now, stored, api)
    {
      var currency := Lower(vsCurrency);
      if !force && currency in topCacheByCurrency && now - topCacheByCurrency[currency].atMs <= TOP_TTL_MS {
        stored := ListingOf(marketCacheDao.rows, CurrencyKeys(marketCacheDao.rows, currency));
        return Success(topCacheByCurrency[currency].value), None, stored;
      }
      r, call, stored := TopCoinsFromStore(currency, force, now, api);
    }

    /** The part of `FetchTopCoins` after the in-memory fast path. */
    method TopCoinsFromStore(currency: string, force: bool, now: Millis, api: MarketsApi)
      returns (r: Result<seq<Coin>, Failure>, call: Option<MarketsRequest>, ghost stored: seq<MarketCoinEntity>)
      requires marketCacheDao.Valid()
      modifies this, marketCacheDao
      ensures marketCacheDao.Valid()
      ensures Lists(stored, old(marketCacheDao.rows), CurrencyKeys(old(marketCacheDao.rows), currency))
      ensures Answer(r, call, Caches(), marketCacheDao.Contents())
           == TopFromStore(old(Caches()), old(marketCacheDao.Contents()), currency, force, now, stored, api)
    {
      call := None;
      var found := marketCacheDao.GetSync(currency);
      var sync := if found.Some? then found.value else CurrencySyncEntity(currency, 0, 0);
      var entities := marketCacheDao.GetAllForCurrency(currency);
      stored := entities;
      var cacheFromDb := ToDomainAll(entities);

      if now < sync.nextAllowedAtMs {
        if |cacheFromDb| > 0 {
          return Success(cacheFromDb), call, stored;
        }
      }

      if !force && sync.lastFetchedAtMs > 0 && now - sync.lastFetchedAtMs <= TOP_TTL_MS && |cacheFromDb| > 0 {
        topCacheByCurrency := topCacheByCurrency[currency := CacheEntry(now, cacheFromDb)];
        return Success(cacheFromDb), call, stored;
      }
      if currency in topCacheByCurrency && now - topCacheByCurrency[currency].atMs <= MIN_INTERVAL_MS {
        return Success(topCacheByCurrency[currency].value), call, stored;
      }
      r, call := CallTop(currency, now, sync, cacheFromDb, api);
    }

    /** The remote call of `FetchTopCoins` and its `try`/`catch`. */
    method CallTop(currency: string, now: Millis, sync: CurrencySyncEntity, cacheFromDb: seq<Coin>, api: MarketsApi)
      returns (r: Result<seq<Coin>, Failure>, call: Option<MarketsRequest>)
      requires marketCacheDao.Valid()
      modifies this, marketCacheDao
      ensures marketCacheDao.Valid()
      ensures Answer(r, call, Caches(), marketCacheDao.Contents())
           == TopRemote(old(Caches()), old(marketCacheDao.Contents()), currency, now, sync, cacheFromDb, api)
    {
      var req := TopRequest(currency);
      call := Some(req);
      var reply := api(req);
      match reply
      case Success(dtos) =>
        var fetched := FromDtos(dtos);
        marketCacheDao.DeleteForCurrency(currency);
        marketCacheDao.UpsertAll(ToMarketEntities(fetched, currency, now));
        marketCacheDao.UpsertSync(CurrencySyncEntity(currency, now, 0));
        topCacheByCurrency := topCacheByCurrency[currency := CacheEntry(now, fetched)];
        r := Success(fetched);
      case Failure(f) =>
        r := Failure(f);
        if IsRateLimited(f) {
          marketCacheDao.UpsertSync(BackedOff(currency, sync, now, f));
          if |cacheFromDb| > 0 {
            topCacheByCurrency := topCacheByCurrency[currency := CacheEntry(now, cacheFromDb)];
            r := Success(cacheFromDb);
          }
        }
    }

    method FetchCoin(id: string, vsCurrency: string, force: bool, now: Millis, api: MarketsApi)
      returns (r: Result<Option<Coin>, Failure>, call: Option<MarketsRequest>)
      requires marketCacheDao.Valid()
      modifies this, marketCacheDao
      ensures marketCacheDao.Valid()
      ensures Answer(r, call, Caches(), marketCacheDao.Contents())
           == FetchOne(old(Caches()), old(marketCacheDao.Contents()), id, vsCurrency, force, now, api)
    {
      var currency := Lower(vsCurrency);
      var cacheKey := CoinKey(currency, id);
      call := None;
      var cached := if cacheKey in coinCache then Some(coinCache[cacheKey]) else None;
      if !force && cached.Some? && now - cached.value.atMs <= TOP_TTL_MS {
        return Success(Some(cached.value.value)), call;
      }

      var found := marketCacheDao.GetSync(currency);
      var sync := if found.Some? then found.value else CurrencySyncEntity(currency, 0, 0);
      if now < sync.nextAllowedAtMs {
        var rows := marketCacheDao.GetByIds(currency, [id]);
        SingleIdListing(rows, marketCacheDao.rows, currency, id);
        var fromDb := if |rows| > 0 then Some(ToDomain(rows[0])) else None;
        if fromDb.Some? {
          return Success(fromDb), call;
        }
      }

      r, call := CallCoin(id, currency, cacheKey, now, api);
    }

    /** The remote call of `FetchCoin`. */
    method CallCoin(id: string, currency: string, cacheKey: string, now: Millis, api: MarketsApi)
      returns (r: Result<Option<Coin>, Failure>, call: Option<MarketsRequest>)
      requires marketCacheDao.Valid()
      modifies this, marketCacheDao
      ensures marketCacheDao.Valid()
      ensures Answer(r, call, Caches(), marketCacheDao.Contents())
           == CoinRemote(old(Caches()), old(marketCacheDao.Contents()), currency, cacheKey, id, now, api)
    {
      var req := CoinRequest(currency, id);
      call := Some(req);
      var reply := api(req);
      match reply
      case Failure(f) =>
        r := Failure(f);
      case Success(list) =>
        if |list| == 0 {
          return Success(None), call;
        }
        var fetched := FromDto(list[0]);
        coinCache := coinCache[cacheKey := CacheEntry(now, fetched)];
        marketCacheDao.UpsertAll([ToMarketEntity(fetched, currency, now)]);
        r := Success(Some(fetched));
    }

    method FetchCoinsByIds(ids: seq<string>, vsCurrency: string, force: bool, now: Millis, api: MarketsApi)
      returns (r: Result<seq<Coin>, Failure>, call: Option<MarketsRequest>, ghost stored: seq<MarketCoinEntity>)
      requires marketCacheDao.Valid()
      modifies this, marketCacheDao
      ensures marketCacheDao.Valid()
      ensures Lists(stored, old(marketCacheDao.rows), IdKeys(old(marketCacheDao.rows), Lower(vsCurrency), ids))
      ensures Answer(r, call, Caches(), marketCacheDao.Contents())
           == FetchByIds(old(Caches()), old(marketCacheDao.Contents()), ids, vsCurrency, force, now, stored, api)
    {
      var currency := Lower(vsCurrency);
      stored := ListingOf(marketCacheDao.rows, IdKeys(marketCacheDao.rows, currency, ids));
      if |ids| == 0 {
        return Success([]), None, stored;
      }
      var cacheKey := IdsCacheKey(currency, ids);
      if !force && cacheKey in coinsByIdsCache && now - coinsByIdsCache[cacheKey].atMs <= TOP_TTL_MS {
        return Success(coinsByIdsCache[cacheKey].value), None, stored;
      }
      if cacheKey in coinsByIdsCache && now - coinsByIdsCache[cacheKey].atMs <= MIN_INTERVAL_MS {
        return Success(coinsByIdsCache[cacheKey].value), None, stored;
      }
      r, call, stored := CoinsByIdsFromStore(ids, currency, now, api, stored);
    }

    /** The part of `FetchCoinsByIds` after both in-memory tiers. `listing` is
        the answer `getByIds` would give, used when it is not asked. */
    method CoinsByIdsFromStore(ids: seq<string>, currency: string, now: Millis, api: MarketsApi,
                               ghost listing: seq<MarketCoinEntity>)
      returns (r: Result<seq<Coin>, Failure>, call: Option<MarketsRequest>, ghost stored: seq<MarketCoinEntity>)
      requires marketCacheDao.Valid()
      requires Lists(listing, marketCacheDao.rows, IdKeys(marketCacheDao.rows, currency, ids))
      modifies this, marketCacheDao
      ensures marketCacheDao.Valid()
      ensures Lists(stored, old(marketCacheDao.rows), IdKeys(old(marketCacheDao.rows), currency, ids))
      ensures Answer(r, call, Caches(), marketCacheDao.Contents())
           == ByIdsFromStore(old(Caches()), old(marketCacheDao.Contents()), currency, IdsCacheKey(currency, ids),
                             IdsRequest(currency, ids), now, stored, api)
    {
      ghost var keys := IdKeys(marketCacheDao.rows, currency, ids);
      stored := listing;
      var found := marketCacheDao.GetSync(currency);
      var sync := if found.Some? then found.value else CurrencySyncEntity(currency, 0, 0);

      if now < sync.nextAllowedAtMs {
        var rows := marketCacheDao.GetByIds(currency, ids);
        stored := rows;
        var fromDb := ToDomainAll(rows);
        if |fromDb| > 0 {
          return Success(fromDb), None, stored;
        }
      }
      r, call, stored := CallByIds(ids, currency, now, sync, api, keys, stored);
      assert |ToDomainAll(stored)| == |stored|;
    }

    /** The remote part of `FetchCoinsByIds`. `before` is the answer of an
        earlier `getByIds`, if one was made (otherwise any answer). */
    method CallByIds(ids: seq<string>, currency: string, now: Millis, sync: CurrencySyncEntity, api: MarketsApi,
                     ghost keys: set<RowKey>, ghost before: seq<MarketCoinEntity>)
      returns (r: Result<seq<Coin>, Failure>, call: Option<MarketsRequest>, ghost stored: seq<MarketCoinEntity>)
      requires marketCacheDao.Valid()
      requires keys == IdKeys(marketCacheDao.rows, currency, ids)
      requires Lists(before, marketCacheDao.rows, keys)
      modifies this, marketCacheDao
      ensures marketCacheDao.Valid()
      ensures Lists(stored, old(marketCacheDao.rows), keys)
      ensures |stored| == 0 <==> |before| == 0
      ensures Answer(r, call, Caches(), marketCacheDao.Contents())
           == ByIdsRemote(old(Caches()), old(marketCacheDao.Contents()), currency, IdsCacheKey(currency, ids),
                          IdsRequest(currency, ids), now, sync, ToDomainAll(stored), api)
    {
      stored := before;
      var req := MarketsRequest(currency, Some(Join(SortStrings(ids), ",")), Some(PageSize(ids)), Some(1));
      call := Some(req);
      var reply := api(req);
      match reply
      case Success(dtos) =>
        var fetched := FromDtos(dtos);
        marketCacheDao.UpsertAll(ToMarketEntities(fetched, currency, now));
        marketCacheDao.UpsertSync(CurrencySyncEntity(currency, now, 0));
        coinsByIdsCache := coinsByIdsCache[IdsCacheKey(currency, ids) := CacheEntry(now, fetched)];
        r := Success(fetched);

      case Failure(f) =>
        r := Failure(f);
        if IsRateLimited(f) {
          marketCacheDao.UpsertSync(BackedOff(currency, sync, now, f));
          var rows := marketCacheDao.GetByIds(currency, ids);
          ListsEmpty(before, marketCacheDao.rows, keys);
          ListsEmpty(rows, marketCacheDao.rows, keys);
          stored := rows;
          var fromDb := ToDomainAll(rows);
          if |fromDb| > 0 {
            r := Success(fromDb);
          }
        }
    }

    method SetFavorite(coin: Coin, favorite: bool)
      modifies favoritesDao
      ensures favoritesDao.records == FavoritesAfter(old(favoritesDao.records), coin, favorite)
    {
      if favorite {
        favoritesDao.Upsert(ToFavorite(coin));
      } else {
        favoritesDao.DeleteById(coin.id);
      }
    }

    method ClearFavorites()
      modifies favoritesDao
      ensures favoritesDao.records == map[]
    {
      favoritesDao.ClearAll();
    }
  }
}
