# Coin market cache and currency settings, in Dafny

A model of the data layer of an Android crypto-market app (Kotlin):

- `CoinsRepository` answers three queries against a remote market API:
  the top list for a currency (`fetchTopCoins`), a single coin (`fetchCoin`)
  and a batch by ids (`fetchCoinsByIds`). It keeps two cache tiers: three
  in-memory maps of time-stamped entries, and a local database with the
  table `market_coins` (primary key currency and id) and the table
  `currency_sync` (per currency, the last successful fetch and the end of the
  backoff window written after HTTP 429).
- It also keeps the favorites table in step with `setFavorite` and
  `clearFavorites`.
- `SettingsRepository` keeps the currency preferences: the currency in use,
  the remembered manual currency and the "use location currency" flag.

## Layout

| file | module | contents |
|---|---|---|
| wrappers.dfy | `Wrappers` | `Option`, `Result` |
| int64.dfy | `Int64` | Kotlin `Long`: its range and two's-complement wrap-around |
| text.dfy | `Text` | `lowercase()`, `isBlank()`, the string order `sorted()` uses, insertion sort, `joinToString` |
| domain.dfy | `Domain` | `Coin`, `MarketDto`, `MarketCoinEntity`, `CurrencySyncEntity`, `FavoriteCoinEntity` and the converters between them |
| local_store.dfy | `LocalStore` | the two tables as maps keyed by primary key, their updates, and the DAOs as classes |
| coins.dfy | `Coins` | the three queries as functions of the starting state, and `CoinsRepository` as a class whose methods are proved to follow them |
| coins_properties.dfy | `CoinsProperties` | what the queries guarantee, alone and across calls |
| settings.dfy | `Settings` | the preferences, each setter as a function, `SettingsRepository` as a class, and the save/restore properties |

## How the model reads

- **State.**
  - Memory is a `Memory` value holding the three maps.
  - The database is a `Store` value: rows keyed by `(vsCurrency, id)` and
    sync rows keyed by currency.
  - Each `CoinsRepository` method changes its own three map fields and the
    fields of `MarketCacheDao`.
  - Its `ensures` equates the result, the remote request it made (at most
    one) and the new state with `FetchTop`, `FetchOne` or `FetchByIds`
    applied to the old state.
  - The DAOs and `SettingsRepository` are opened on the state the previous
    launches left: their constructors take the stored tables or
    preferences, not an empty store.
- **Where the spec functions come from.**
  - `FetchTop` is `fetchTopCoins` (CoinsRepository.kt:48-103): `TopFromStore`
    is its cache and backoff checks (57-70), `TopRemote` the call and its
    `catch` (72-102).
  - `FetchOne` is `fetchCoin` (105-133), with `CoinRemote` its remote branch
    (118-132).
  - `FetchByIds` is `fetchCoinsByIds` (135-180): `ByIdsKeyed` builds the
    batch key and checks memory (135-145), `ByIdsFromStore` the backoff
    checks (146-152), `ByIdsRemote` the call and its `catch` (154-180).
  - `SyncOrDefault` is the `getSync(...) ?: CurrencySyncEntity(...)` default
    (CoinsRepository.kt:57, 112, 146); `Join` is the `joinToString(",")` of
    the sorted ids (139).
  - `IsBlank` and `IsNullOrBlank` are Kotlin's `isBlank()` and
    `isNullOrBlank()` as used in SettingsRepository.kt:54.
- **Parameters instead of effects.**
  - The clock reading is a parameter `now`.
  - The remote API is a parameter `api`: a function from a request to either
    a list of DTOs or a failure.
  - A failure is either an HTTP error (status code plus the parsed
    `Retry-After` value, if any) or any other exception.
- **Query order.** The order in which the database returns rows is not fixed
  by the model. The row list a query returns is a ghost out-parameter
  `stored`. It is constrained by `Lists`: exactly the matching rows, each
  once, in some order.
- **Integers.**
  - Clock readings are `Millis` (0 to `Long.MAX_VALUE`), so `now - atMs`
    does not overflow.
  - The backoff end `now + retryAfterSec * 1000` is computed with 64-bit
    wrap-around, as Kotlin does. `NextAllowedAt` proves it equals the exact
    sum whenever that sum fits.

## Model

| member | source | states |
|---|---|---|
| Text.Lower | app/src/main/java/cz/ash/mobilniapplikace/data/CoinsRepository.kt:50 | is as long as its input, keeps every character that is not an upper-case ASCII letter, maps each A–Z to its lower-case letter, and its result has no upper-case letters |
| Text.LowerIdempotent | app/src/main/java/cz/ash/mobilniapplikace/data/settings/SettingsRepository.kt:22 | lowercasing an already lowercased code changes nothing, so `setVsCurrency` then `vsCurrencyFlow` yields the stored code |
| Text.LowerKeepsBlank | app/src/main/java/cz/ash/mobilniapplikace/data/settings/SettingsRepository.kt:54 | a code is blank exactly when its lowercase form is blank |
| Text.StrLeTotal | app/src/main/java/cz/ash/mobilniapplikace/data/CoinsRepository.kt:139 | any two ids are ordered one way or the other by the comparison `sorted()` uses |
| Text.StrLeTransitive | app/src/main/java/cz/ash/mobilniapplikace/data/CoinsRepository.kt:139 | that comparison is transitive |
| Text.StrLeAntisymmetric | app/src/main/java/cz/ash/mobilniapplikace/data/CoinsRepository.kt:139 | two ids ordered both ways are equal |
| Text.StrLeReflexive | app/src/main/java/cz/ash/mobilniapplikace/data/CoinsRepository.kt:139 | each id is ordered before or equal to itself |
| Text.Insert | app/src/main/java/cz/ash/mobilniapplikace/data/CoinsRepository.kt:139 | inserting into a sorted list gives a sorted list holding the old items plus the new one |
| Text.SortStrings | app/src/main/java/cz/ash/mobilniapplikace/data/CoinsRepository.kt:139 | `ids.sorted()` is sorted and a permutation of `ids` |
| Text.SortedHeadIsLeast | app/src/main/java/cz/ash/mobilniapplikace/data/CoinsRepository.kt:139 | the head of a sorted list is at most every item |
| Text.TailMultiset | app/src/main/java/cz/ash/mobilniapplikace/data/CoinsRepository.kt:139 | dropping the head of a non-empty list leaves its items minus one copy of the head (used to show that sorting the ids keeps their items) |
| Text.SortedUnique | app/src/main/java/cz/ash/mobilniapplikace/data/CoinsRepository.kt:139 | two sorted lists with the same items are equal |
| Text.SortPermutationInvariant | app/src/main/java/cz/ash/mobilniapplikace/data/CoinsRepository.kt:139-140 | sorting two permutations of the same ids gives the same list |
| Int64.Wrap | app/src/main/java/cz/ash/mobilniapplikace/data/CoinsRepository.kt:94 | Kotlin `Long` arithmetic: the result is in range, equals the exact value when that fits, and differs from it by a multiple of 2^64 |
| Coins.WrapAddWrap | app/src/main/java/cz/ash/mobilniapplikace/data/CoinsRepository.kt:94 | wrapping `retryAfterSec * 1000` before adding `now` gives the same `Long` as wrapping the exact sum |
| Coins.NextAllowedAt | app/src/main/java/cz/ash/mobilniapplikace/data/CoinsRepository.kt:93-94 | the backoff ends `retryAfterSec * 1000` ms after `now` when the header parsed, else 60000 ms after, exactly whenever the sum fits in a `Long` |
| Coins.PageSize | app/src/main/java/cz/ash/mobilniapplikace/data/CoinsRepository.kt:155 | `perPage` is `ids.size` capped at 250 |
| Domain.FromDto | app/src/main/java/cz/ash/mobilniapplikace/data/CoinsRepository.kt:73-83 | each DTO field is copied to its coin field: `image` to `imageUrl`, `currentPrice` to `priceUsd`, and so on |
| Domain.ToDomain | app/src/main/java/cz/ash/mobilniapplikace/data/CoinsRepository.kt:205-214 | a row turns into the coin with its id, symbol, name and image, `price` as `priceUsd`, and its change and market cap |
| Domain.ToMarketEntity | app/src/main/java/cz/ash/mobilniapplikace/data/CoinsRepository.kt:216-227 | the row is keyed by the currency and the coin's id, is stamped with `nowMs`, and `toDomain` gives back the coin |
| Domain.EntityRoundTrip | app/src/main/java/cz/ash/mobilniapplikace/data/CoinsRepository.kt:205-227 | a row is rebuilt by `toMarketEntity` from its own coin, currency and timestamp |
| Domain.ToFavorite | app/src/main/java/cz/ash/mobilniapplikace/data/CoinsRepository.kt:183-194 | the favorite record reads back as the coin it was made from |
| Domain.FavoriteToCoin | app/src/main/java/cz/ash/mobilniapplikace/data/CoinsRepository.kt:31-44 | `observeFavorites` turns a record into the coin with its id and last-known data |
| LocalStore.CurrencyKeys | app/src/main/java/cz/ash/mobilniapplikace/data/local/MarketCacheDao.kt:10-11 | the keys `getAllForCurrency` selects are the stored ones with that currency |
| LocalStore.IdKeys | app/src/main/java/cz/ash/mobilniapplikace/data/local/MarketCacheDao.kt:13-14 | the keys `getByIds` selects are the stored ones with that currency and an id in the list |
| LocalStore.ListsEmpty | app/src/main/java/cz/ash/mobilniapplikace/data/local/MarketCacheDao.kt:10-14 | a query's answer is empty exactly when no stored row matches |
| LocalStore.ListsExtend | app/src/main/java/cz/ash/mobilniapplikace/data/local/MarketCacheDao.kt:10-14 | adding one matching row and its key keeps a listing a listing |
| LocalStore.ListingOf | app/src/main/java/cz/ash/mobilniapplikace/data/local/MarketCacheDao.kt:10-14 | every query has an answer listing exactly its rows |
| LocalStore.UpsertRows | app/src/main/java/cz/ash/mobilniapplikace/data/local/MarketCacheDao.kt:16-17 | `REPLACE` keeps rows keyed by their primary key, and a key is present after the upsert exactly when it was before or some item has it |
| LocalStore.UpsertRowsLast | app/src/main/java/cz/ash/mobilniapplikace/data/local/MarketCacheDao.kt:16-17 | among items sharing a key, the last one wins |
| LocalStore.UpsertRowsUntouched | app/src/main/java/cz/ash/mobilniapplikace/data/local/MarketCacheDao.kt:16-17 | a row no item replaces is kept |
| LocalStore.UpsertRowsFrom | app/src/main/java/cz/ash/mobilniapplikace/data/local/MarketCacheDao.kt:16-17 | every row after an upsert is its old row or one of the items |
| LocalStore.DeleteCurrency | app/src/main/java/cz/ash/mobilniapplikace/data/local/MarketCacheDao.kt:19-20 | exactly the rows of that currency are deleted and the others stay unchanged |
| LocalStore.MarketCacheDao.Collect | app/src/main/java/cz/ash/mobilniapplikace/data/local/MarketCacheDao.kt:10-14 | the loop that reads a query's rows returns a listing of exactly the selected keys |
| LocalStore.MarketCacheDao.GetAllForCurrency | app/src/main/java/cz/ash/mobilniapplikace/data/local/MarketCacheDao.kt:10-11 | returns the currency's rows, each once, and changes nothing |
| LocalStore.MarketCacheDao.GetByIds | app/src/main/java/cz/ash/mobilniapplikace/data/local/MarketCacheDao.kt:13-14 | returns the currency's rows for the given ids, each once |
| LocalStore.MarketCacheDao.UpsertAll | app/src/main/java/cz/ash/mobilniapplikace/data/local/MarketCacheDao.kt:16-17 | the rows become the old rows upserted item by item, and the sync rows are unchanged |
| LocalStore.MarketCacheDao.DeleteForCurrency | app/src/main/java/cz/ash/mobilniapplikace/data/local/MarketCacheDao.kt:19-20 | removes that currency's rows only |
| LocalStore.MarketCacheDao.GetSync | app/src/main/java/cz/ash/mobilniapplikace/data/local/MarketCacheDao.kt:23-24 | returns the currency's sync row, or nothing |
| LocalStore.MarketCacheDao.UpsertSync | app/src/main/java/cz/ash/mobilniapplikace/data/local/MarketCacheDao.kt:26-27 | replaces the sync row of that currency and leaves the market rows alone |
| LocalStore.FavoritesDao.Upsert | app/src/main/java/cz/ash/mobilniapplikace/data/local/FavoritesDao.kt:14-15 | stores the record under its id, replacing any earlier one |
| LocalStore.FavoritesDao.DeleteById | app/src/main/java/cz/ash/mobilniapplikace/data/local/FavoritesDao.kt:17-18 | removes the record with that id only |
| LocalStore.FavoritesDao.ClearAll | app/src/main/java/cz/ash/mobilniapplikace/data/CoinsRepository.kt:201-203 | leaves the table empty |
| LocalStore.FavoritesDao.IsFavorite | app/src/main/java/cz/ash/mobilniapplikace/data/local/FavoritesDao.kt:20-21 | true exactly when a record with that id exists |
| Coins.FavoritesAfter | app/src/main/java/cz/ash/mobilniapplikace/data/CoinsRepository.kt:183-199 | favoriting stores the record made from the coin; unfavoriting removes the id; no other record changes |
| Coins.SingleIdListing | app/src/main/java/cz/ash/mobilniapplikace/data/CoinsRepository.kt:114 | `getByIds(currency, listOf(id)).firstOrNull()` is the row for that key, or null when the key is absent |
| Coins.CoinsRepository.constructor | app/src/main/java/cz/ash/mobilniapplikace/data/CoinsRepository.kt:14-26 | starts with the three in-memory maps empty |
| Coins.CoinsRepository.FetchTopCoins | app/src/main/java/cz/ash/mobilniapplikace/data/CoinsRepository.kt:48-103 | the result, the request made and both tiers afterwards are those of `FetchTop` on the old state |
| Coins.CoinsRepository.TopCoinsFromStore | app/src/main/java/cz/ash/mobilniapplikace/data/CoinsRepository.kt:57-70 | the backoff check, the persisted-data check and the 5000 ms check, as in `FetchTop` |
| Coins.CoinsRepository.CallTop | app/src/main/java/cz/ash/mobilniapplikace/data/CoinsRepository.kt:72-102 | the remote call and its `try`/`catch`, as in `FetchTop` |
| Coins.CoinsRepository.FetchCoin | app/src/main/java/cz/ash/mobilniapplikace/data/CoinsRepository.kt:105-133 | the result, the request and both tiers afterwards are those of `FetchOne` |
| Coins.CoinsRepository.CallCoin | app/src/main/java/cz/ash/mobilniapplikace/data/CoinsRepository.kt:118-132 | the remote call of `fetchCoin`, with no `catch` |
| Coins.CoinsRepository.FetchCoinsByIds | app/src/main/java/cz/ash/mobilniapplikace/data/CoinsRepository.kt:135-181 | the result, the request and both tiers afterwards are those of `FetchByIds` |
| Coins.CoinsRepository.CoinsByIdsFromStore | app/src/main/java/cz/ash/mobilniapplikace/data/CoinsRepository.kt:146-152 | the backoff check of the batch query |
| Coins.CoinsRepository.CallByIds | app/src/main/java/cz/ash/mobilniapplikace/data/CoinsRepository.kt:154-180 | the batch call and its `catch`; the 429 fallback re-reads the same rows |
| Coins.CoinsRepository.SetFavorite | app/src/main/java/cz/ash/mobilniapplikace/data/CoinsRepository.kt:183-199 | the favorites become `FavoritesAfter` of the old favorites |
| Coins.CoinsRepository.ClearFavorites | app/src/main/java/cz/ash/mobilniapplikace/data/CoinsRepository.kt:201-203 | no favorite remains |
| CoinsProperties.TopCallDecision | app/src/main/java/cz/ash/mobilniapplikace/data/CoinsRepository.kt:48-73 | the top-list query calls the API exactly when none of its four short cuts applies, always with the lowercased currency and no other parameter; a short cut succeeds and writes nothing to the database |
| CoinsProperties.TopCallIsRemote | app/src/main/java/cz/ash/mobilniapplikace/data/CoinsRepository.kt:54-72 | a query that calls the API has passed every short cut |
| CoinsProperties.TopMemoryHit | app/src/main/java/cz/ash/mobilniapplikace/data/CoinsRepository.kt:54 | an unforced call with an in-memory entry at most 5 min old returns it and changes nothing |
| CoinsProperties.TopBackoffServesStore | app/src/main/java/cz/ash/mobilniapplikace/data/CoinsRepository.kt:57-63 | during a backoff window the non-empty persisted list is returned without a call or a write, forced or not |
| CoinsProperties.TopPersistedWithinTtl | app/src/main/java/cz/ash/mobilniapplikace/data/CoinsRepository.kt:66-69 | an unforced call within 5 min of the last successful fetch returns the persisted list and caches it in memory, with no call |
| CoinsProperties.TopMinIntervalBeatsForce | app/src/main/java/cz/ash/mobilniapplikace/data/CoinsRepository.kt:61-70 | an in-memory entry at most 5000 ms old stops every call, forced ones too; a forced call returns that entry unless the backoff returned the persisted list |
| CoinsProperties.ReplaceCurrencyRows | app/src/main/java/cz/ash/mobilniapplikace/data/CoinsRepository.kt:85-86 | when the fetched ids are distinct, delete-then-upsert leaves exactly the fetched coins as the currency's rows, and other currencies untouched |
| CoinsProperties.ReplacedRowsFromList | app/src/main/java/cz/ash/mobilniapplikace/data/CoinsRepository.kt:85-86 | each remaining row of the currency comes from the fetched list, whatever its ids |
| CoinsProperties.ReplaceKeepsOtherCurrencies | app/src/main/java/cz/ash/mobilniapplikace/data/CoinsRepository.kt:85-86 | delete-then-upsert leaves every other currency's rows as they were |
| CoinsProperties.ListStoredAsRows | app/src/main/java/cz/ash/mobilniapplikace/data/CoinsRepository.kt:85-86 | when the fetched ids are distinct, each fetched coin is stored as a row of the currency |
| CoinsProperties.CurrencyRowIsListed | app/src/main/java/cz/ash/mobilniapplikace/data/CoinsRepository.kt:86 | when the fetched ids are distinct, the row under a fetched coin's key is that coin's row |
| CoinsProperties.TopSuccess | app/src/main/java/cz/ash/mobilniapplikace/data/CoinsRepository.kt:73-90 | a successful call returns the fetched list, replaces the currency's rows by rows of that list (by exactly that list when its ids are distinct) and keeps other currencies' rows, clears the backoff (`lastFetchedAtMs = now`, `nextAllowedAtMs = 0`) and caches it in memory |
| CoinsProperties.TopRateLimited | app/src/main/java/cz/ash/mobilniapplikace/data/CoinsRepository.kt:92-101 | on 429 the backoff end is written and the last fetch time is kept; the persisted list, if any, is returned and cached; otherwise the 429 propagates with memory untouched; rows never change |
| CoinsProperties.TopOtherFailure | app/src/main/java/cz/ash/mobilniapplikace/data/CoinsRepository.kt:91-101 | any other failure propagates and nothing changes |
| CoinsProperties.CoinMemoryHit | app/src/main/java/cz/ash/mobilniapplikace/data/CoinsRepository.kt:108-110 | an unforced call with an entry under `"currency:id"` at most 5 min old returns it |
| CoinsProperties.CoinBackoffServesRow | app/src/main/java/cz/ash/mobilniapplikace/data/CoinsRepository.kt:112-116 | during a backoff window a persisted row for the coin is returned without a call |
| CoinsProperties.CoinRequestShape | app/src/main/java/cz/ash/mobilniapplikace/data/CoinsRepository.kt:118 | the request names the id and asks for one item of page 1 |
| CoinsProperties.CoinNotFound | app/src/main/java/cz/ash/mobilniapplikace/data/CoinsRepository.kt:119 | an empty response gives null and changes nothing |
| CoinsProperties.CoinFound | app/src/main/java/cz/ash/mobilniapplikace/data/CoinsRepository.kt:119-132 | a found coin is cached under `"currency:id"` and upserted as one row; the sync rows are untouched |
| CoinsProperties.CoinFailure | app/src/main/java/cz/ash/mobilniapplikace/data/CoinsRepository.kt:118 | every failure of the single-coin call propagates, a 429 too, and no backoff is written |
| CoinsProperties.ByIdsEmpty | app/src/main/java/cz/ash/mobilniapplikace/data/CoinsRepository.kt:136 | an empty id list gives an empty list and touches nothing |
| CoinsProperties.IdsCacheKeyPermutation | app/src/main/java/cz/ash/mobilniapplikace/data/CoinsRepository.kt:138-140 | the cache key and the `ids` parameter depend only on the lowercased currency and the multiset of ids |
| CoinsProperties.ByIdsPermutation | app/src/main/java/cz/ash/mobilniapplikace/data/CoinsRepository.kt:139-140 | any permutation of the ids gives the same answer, request and effects |
| CoinsProperties.ByIdsMinIntervalBeatsForce | app/src/main/java/cz/ash/mobilniapplikace/data/CoinsRepository.kt:143-144 | an entry at most 5000 ms old is returned even when forced, with no read, write or call |
| CoinsProperties.ByIdsRequestShape | app/src/main/java/cz/ash/mobilniapplikace/data/CoinsRepository.kt:139-155 | the request carries the sorted, comma-joined ids, `perPage = min(size, 250)` and page 1 |
| CoinsProperties.ByIdsBackoffServesStore | app/src/main/java/cz/ash/mobilniapplikace/data/CoinsRepository.kt:148-152 | during a backoff window a non-empty persisted subset is returned without a call |
| CoinsProperties.ByIdsCallIsRemote | app/src/main/java/cz/ash/mobilniapplikace/data/CoinsRepository.kt:136-155 | a batch query that calls the API has a non-empty id list and passed every short cut |
| CoinsProperties.ByIdsSuccess | app/src/main/java/cz/ash/mobilniapplikace/data/CoinsRepository.kt:155-170 | a successful call returns the fetched list, upserts it (no row is removed, and a row whose key no fetched coin has keeps its value), clears the backoff and caches it under the batch key |
| CoinsProperties.ByIdsRateLimited | app/src/main/java/cz/ash/mobilniapplikace/data/CoinsRepository.kt:171-179 | on 429 the backoff is written and the persisted subset, if any, is returned, without caching it in memory; otherwise the 429 propagates |
| CoinsProperties.ByIdsOtherFailure | app/src/main/java/cz/ash/mobilniapplikace/data/CoinsRepository.kt:171-179 | any other failure of the batch call propagates and nothing changes |
| CoinsProperties.TwoCallsWithinTtl | app/src/main/java/cz/ash/mobilniapplikace/data/CoinsRepository.kt:54-90 | when the first call succeeds, two unforced top-list calls within 5 min make at most one remote call, and when the first called, the second returns its list |
| CoinsProperties.ForcedTwiceWithinMinInterval | app/src/main/java/cz/ash/mobilniapplikace/data/CoinsRepository.kt:70-97 | when the first call succeeds, two forced calls within 5000 ms make at most one remote call |
| CoinsProperties.FailedFirstCallCallsAgain | app/src/main/java/cz/ash/mobilniapplikace/data/CoinsRepository.kt:57-63 | with empty memory and nothing persisted, a first call that fails (on 429 or another error) leaves the next call, 1 ms later, free to call the API again |
| CoinsProperties.BackoffHonoured | app/src/main/java/cz/ash/mobilniapplikace/data/CoinsRepository.kt:61-63 | after a 429 with `Retry-After: sec` and persisted data, every call in the next `sec` seconds returns persisted data without a remote call |
| CoinsProperties.BackoffExpires | app/src/main/java/cz/ash/mobilniapplikace/data/CoinsRepository.kt:61-73 | once that window and 5000 ms have passed, a forced call reaches the API again |
| CoinsProperties.RateLimitWithoutFallback | app/src/main/java/cz/ash/mobilniapplikace/data/CoinsRepository.kt:92-101 | a 429 with no `Retry-After` and nothing persisted propagates to the caller |
| CoinsProperties.PersistedCoinReadBack | app/src/main/java/cz/ash/mobilniapplikace/data/CoinsRepository.kt:85-86 | a coin stored by a successful top fetch reads back field for field through `fetchCoin` during a backoff window, even with empty memory |
| CoinsProperties.RestartDuringBackoffServesPersistedCoin | app/src/main/java/cz/ash/mobilniapplikace/data/CoinsRepository.kt:85-116 | fetch, then a 429 on a forced refresh, then a restart: `fetchCoin` inside the window returns the persisted coin with no call |
| CoinsProperties.CurrencyCaseInsensitive | app/src/main/java/cz/ash/mobilniapplikace/data/CoinsRepository.kt:50 | currency codes that lowercase alike give the same answers, requests and effects in all three queries |
| CoinsProperties.FavoriteThenUnfavorite | app/src/main/java/cz/ash/mobilniapplikace/data/CoinsRepository.kt:183-199 | favoriting then unfavoriting a coin leaves the other favorites as they were; if the coin was not a favorite, the table is unchanged |
| CoinsProperties.FavoriteObserved | app/src/main/java/cz/ash/mobilniapplikace/data/CoinsRepository.kt:46 | after `setFavorite(coin, b)` the coin is a favorite exactly when `b`, and the favorites list gives back that coin |
| Settings.ReadVsCurrency | app/src/main/java/cz/ash/mobilniapplikace/data/settings/SettingsRepository.kt:21-23 | the currency in use is the stored code lowercased, or "usd" when none is stored, and is always lowercase |
| Settings.ReadUseLocationCurrency | app/src/main/java/cz/ash/mobilniapplikace/data/settings/SettingsRepository.kt:25-27 | the flag is true exactly when it is stored as true |
| Settings.AfterSetVsCurrency | app/src/main/java/cz/ash/mobilniapplikace/data/settings/SettingsRepository.kt:29-33 | `vs_currency` becomes the code lowercased, and the other keys stay |
| Settings.AfterSetManualCurrency | app/src/main/java/cz/ash/mobilniapplikace/data/settings/SettingsRepository.kt:35-42 | `manual_currency` and `vs_currency` both become the lowercased code, and the location flag is stored as false |
| Settings.AfterSetUseLocationCurrency | app/src/main/java/cz/ash/mobilniapplikace/data/settings/SettingsRepository.kt:44-48 | only the flag changes, to the given value |
| Settings.AfterEnableLocationCurrency | app/src/main/java/cz/ash/mobilniapplikace/data/settings/SettingsRepository.kt:50-62 | the flag is stored as true and `vs_currency` stays; a missing or blank manual currency becomes the current code lowercased, any other is kept |
| Settings.AfterDisableLocationCurrencyAndRestoreManual | app/src/main/java/cz/ash/mobilniapplikace/data/settings/SettingsRepository.kt:64-70 | the flag is stored as false and `vs_currency` becomes the remembered manual currency lowercased, or "usd"; the manual currency stays |
| Settings.ManualSurvives | app/src/main/java/cz/ash/mobilniapplikace/data/settings/SettingsRepository.kt:44-62 | a non-blank remembered manual currency survives any sequence of currency changes, flag changes and location enables |
| Settings.ManualCurrencyRestored | app/src/main/java/cz/ash/mobilniapplikace/data/settings/SettingsRepository.kt:35-70 | after `setManualCurrency(code)` with a non-blank code, any such edits, then disabling, the currency in use is `code` lowercased and the flag is off |
| Settings.BlankManualReplaced | app/src/main/java/cz/ash/mobilniapplikace/data/settings/SettingsRepository.kt:50-70 | a blank manual currency is not restored: enabling replaces it with the current currency, and disabling restores that one |
| Settings.RestoreDefaultsToUsd | app/src/main/java/cz/ash/mobilniapplikace/data/settings/SettingsRepository.kt:64-70 | with no manual currency remembered, disabling falls back to "usd" |
| Settings.SettingsRepository.constructor | app/src/main/java/cz/ash/mobilniapplikace/data/settings/SettingsRepository.kt:12-19 | opens the stored preferences: the state is whatever earlier launches left |
| Settings.SettingsRepository.SetVsCurrency | app/src/main/java/cz/ash/mobilniapplikace/data/settings/SettingsRepository.kt:29-33 | the preferences become `AfterSetVsCurrency` of the old ones |
| Settings.SettingsRepository.SetManualCurrency | app/src/main/java/cz/ash/mobilniapplikace/data/settings/SettingsRepository.kt:35-42 | the preferences become `AfterSetManualCurrency` of the old ones |
| Settings.SettingsRepository.SetUseLocationCurrency | app/src/main/java/cz/ash/mobilniapplikace/data/settings/SettingsRepository.kt:44-48 | the preferences become `AfterSetUseLocationCurrency` of the old ones |
| Settings.SettingsRepository.EnableLocationCurrency | app/src/main/java/cz/ash/mobilniapplikace/data/settings/SettingsRepository.kt:50-62 | the preferences become `AfterEnableLocationCurrency` of the old ones |
| Settings.SettingsRepository.DisableLocationCurrencyAndRestoreManual | app/src/main/java/cz/ash/mobilniapplikace/data/settings/SettingsRepository.kt:64-70 | the preferences become `AfterDisableLocationCurrencyAndRestoreManual` of the old ones |

## Notes on the code as written

- The two-call properties of `fetchTopCoins` hold only when the first call
  succeeds. With nothing persisted, a failed call writes no memory entry
  (CoinsRepository.kt:91-101). A 429 does write a backoff window, but the
  check at CoinsRepository.kt:61-63 serves only a non-empty `cacheFromDb`,
  so it lets the next call through. The next call therefore reaches the API
  again, even inside the `Retry-After` window
  (`CoinsProperties.FailedFirstCallCallsAgain`).
- `enableLocationCurrency` (SettingsRepository.kt:56-59) has an `else`
  branch commented "always keep manual currency in sync", but it assigns
  `prefs[keyManualCurrency] ?: current` where the key is known to be
  non-null, so it writes back the same value. The model follows the code:
  a usable manual currency is left as it is.
- `fetchCoin` has no `try`/`catch`. A 429 on the single-coin request
  propagates and writes no backoff, unlike the two list queries.
- The `fetchCoinsByIds` fallback on 429 does not write the in-memory
  batch cache, whereas `fetchTopCoins` does write its in-memory entry.
- The remote API is called with the lowercased currency; the caller's
  spelling is never sent.
- `fetchTopCoins` stores the fetched list with `deleteForCurrency` and then
  `upsertAll` (CoinsRepository.kt:85-86), keyed by currency and id, while the
  in-memory entry (CoinsRepository.kt:89) keeps the list itself. If the API
  returned the same id twice, the table would keep only the last copy and
  the memory entry both, so the two tiers would disagree. The properties
  about the stored rows are therefore stated for distinct ids.
- `setManualCurrency` followed by disabling the location currency restores
  the manual code only when that code is not blank: `enableLocationCurrency`
  (SettingsRepository.kt:54) replaces a blank manual currency by the current
  one (`Settings.BlankManualReplaced`). `Settings.ManualCurrencyRestored`
  therefore requires a non-blank code.

## Left out

- Lowercasing: `Text.Lower` covers ASCII letters only. Kotlin's
  `lowercase()` also folds other Unicode letters; currency codes and
  CoinGecko ids are ASCII.
- `Text.StrLe` compares characters as Dafny `char` values. Kotlin's
  `sorted()` compares UTF-16 units; the two agree on the BMP, which covers
  every id in practice.
- `Text.IsBlank` treats as blank the characters that are Java whitespace or
  Unicode space separators, the set Kotlin's `isWhitespace()` tests.
- The `ORDER BY marketCap DESC` of `getAllForCurrency`: the model leaves
  the order of query results open. It is constrained only to list the
  matching rows, each once, since prices are floating point.
- Prices, percentages and market caps are opaque 64-bit values. They are
  copied, never computed on; a `null` value is modelled as `None`.
- Parsing the `Retry-After` header (`toLongOrNull`) is not modelled. The
  failure carries its result, `None` for a missing or non-numeric header.
- Flows and reactivity: not modelled. Each flow stands for a read of the
  current state: `observeFavoriteIds` is the key set `records.Keys` of
  `FavoritesDao`, `observeFavorites` its records with `FavoriteToCoin`
  applied (in an order left open), `observeIsFavorite` is `IsFavorite`,
  and `vsCurrencyFlow` and `useLocationCurrencyFlow` are `ReadVsCurrency` and
  `ReadUseLocationCurrency`.
- Coroutines and concurrency: not modelled. Each query runs alone, as if
  no other writer touched the tables between its reads and writes.
- Room, Retrofit and DataStore machinery are not modelled; the DAOs and the
  preferences store are modelled by their effect on the stored data.
- The `CoinGeckoApi`, `Coin` and `FavoriteCoinEntity` source files are not
  part of this model. Their shapes are taken from their use in
  CoinsRepository.kt.
- FavoritesDao.kt declares `favorite_posts` queries with
  `Int` ids and no `clearAll`. The model follows what CoinsRepository.kt
  calls: a table of `FavoriteCoinEntity` keyed by a string id, with an
  upsert, a delete by id, a clear and an existence test.
- `fetchCoinsByIds` reads `getByIds` twice on a 429 that arrives while a
  backoff window is recorded: once before the call (CoinsRepository.kt:149-151,
  a read made only inside a backoff window) and again in the `catch`. Since
  nothing writes rows in between, the model uses the same listing for both
  reads.
- A database exception is not modelled: the model's failures come only from
  the API. In `fetchTopCoins`, an exception thrown by the DAO after
  `deleteForCurrency` (CoinsRepository.kt:85-86) would leave the currency's
  rows deleted and be rethrown.
- ViewModels, UI screens, authentication, location lookup and dependency
  wiring are outside the core and not modelled.
- Timestamps: clock readings are taken as non-negative `Long` values, so
  the differences `now - atMs` are exact; a clock set before 1970 is not
  modelled.
