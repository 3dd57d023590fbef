/** The market-data records: the domain `Coin`, the remote DTO, and the rows of
    the local database, with the field-copying converters between them. */
module Domain {
  import opened Wrappers
  import opened Int64

  /** A `Double` carried by its IEEE-754 bit pattern; nothing here computes with it. */
  datatype Float64 = Float64(bits: bv64)

  /** The domain coin (`domain.Coin`). */
  datatype Coin = Coin(
    id: string,
    symbol: string,
    name: string,
    imageUrl: Option<string>,
    priceUsd: Option<Float64>,
    change24hPct: Option<Float64>,
    marketCapUsd: Option<Float64>)

  /** One element of the remote `getMarkets` response. */
  datatype MarketDto = MarketDto(
    id: string,
    symbol: string,
    name: string,
    image: Option<string>,
    currentPrice: Option<Float64>,
    priceChangePercentage24h: Option<Float64>,
    marketCap: Option<Float64>)

  /** A row of table `market_coins`, whose primary key is `(vsCurrency, id)`. */
  datatype MarketCoinEntity = MarketCoinEntity(
    vsCurrency: string,
    id: string,
    symbol: string,
    name: string,
    imageUrl: Option<string>,
    price: Option<Float64>,
    change24hPct: Option<Float64>,
    marketCap: Option<Float64>,
    updatedAtMs: Long)

  /** The primary key of a `market_coins` row. */
  datatype RowKey = RowKey(vsCurrency: string, id: string)

  function KeyOf(e: MarketCoinEntity): RowKey {
    RowKey(e.vsCurrency, e.id)
  }

  /** A row of table `currency_sync`: when the currency was last fetched and
      the earliest time the remote API may be asked again (0: no backoff). */
  datatype CurrencySyncEntity = CurrencySyncEntity(
    vsCurrency: string,
    lastFetchedAtMs: Long,
    nextAllowedAtMs: Long)

  /** A row of the favorites table: a point-in-time copy of a coin. */
  datatype FavoriteCoinEntity = FavoriteCoinEntity(
    id: string,
    symbol: string,
    name: string,
    imageUrl: Option<string>,
    lastPriceUsd: Option<Float64>,
    lastChange24hPct: Option<Float64>,
    lastMarketCapUsd: Option<Float64>)

  /** The DTO-to-`Coin` map written out in each fetch. */
  function FromDto(d: MarketDto): (c: Coin)
    ensures c.id == d.id && c.symbol == d.symbol && c.name == d.name && c.imageUrl == d.image
    ensures c.priceUsd == d.currentPrice && c.change24hPct == d.priceChangePercentage24h
    ensures c.marketCapUsd == d.marketCap
  {
    Coin(d.id, d.symbol, d.name, d.image, d.currentPrice, d.priceChangePercentage24h, d.marketCap)
  }

  function FromDtos(ds: seq<MarketDto>): (cs: seq<Coin>)
  {
    seq(|ds|, i requires 0 <= i < |ds| => FromDto(ds[i]))
  }

  /** `MarketCoinEntity.toDomain()`: forgets the currency and the timestamp. */
  function ToDomain(e: MarketCoinEntity): (c: Coin)
    ensures c.id == e.id && c.symbol == e.symbol && c.name == e.name && c.imageUrl == e.imageUrl
    ensures c.priceUsd == e.price && c.change24hPct == e.change24hPct && c.marketCapUsd == e.marketCap
  {
    Coin(e.id, e.symbol, e.name, e.imageUrl, e.price, e.change24hPct, e.marketCap)
  }

  function ToDomainAll(es: seq<MarketCoinEntity>): (cs: seq<Coin>)
  {
    seq(|es|, i requires 0 <= i < |es| => ToDomain(es[i]))
  }

  /** `Coin.toMarketEntity(vsCurrency, nowMs)`: the row is keyed by the currency
      and the coin's id, stamped with `nowMs`, and reading it back yields the coin. */
  function ToMarketEntity(c: Coin, vsCurrency: string, nowMs: Long): (e: MarketCoinEntity)
    ensures KeyOf(e) == RowKey(vsCurrency, c.id)
    ensures e.updatedAtMs == nowMs
    ensures ToDomain(e) == c
  {
    MarketCoinEntity(vsCurrency, c.id, c.symbol, c.name, c.imageUrl, c.priceUsd, c.change24hPct, c.marketCapUsd, nowMs)
  }

  function ToMarketEntities(cs: seq<Coin>, vsCurrency: string, nowMs: Long): (es: seq<MarketCoinEntity>)
  {
    seq(|cs|, i requires 0 <= i < |cs| => ToMarketEntity(cs[i], vsCurrency, nowMs))
  }

  /** A row is determined by the coin it holds, its currency and its timestamp. */
  lemma EntityRoundTrip(e: MarketCoinEntity)
    ensures ToMarketEntity(ToDomain(e), e.vsCurrency, e.updatedAtMs) == e
  {
  }

  /** The favorite record `setFavorite` stores for a coin. */
  function ToFavorite(c: Coin): (f: FavoriteCoinEntity)
    ensures f.id == c.id
    ensures FavoriteToCoin(f) == c
  {
    FavoriteCoinEntity(c.id, c.symbol, c.name, c.imageUrl, c.priceUsd, c.change24hPct, c.marketCapUsd)
  }

  /** The coin `observeFavorites` rebuilds from a favorite record. */
  function FavoriteToCoin(f: FavoriteCoinEntity): (c: Coin)
    ensures c.id == f.id && c.symbol == f.symbol && c.name == f.name && c.imageUrl == f.imageUrl
    ensures c.priceUsd == f.lastPriceUsd && c.change24hPct == f.lastChange24hPct
    ensures c.marketCapUsd == f.lastMarketCapUsd
  {
    Coin(f.id, f.symbol, f.name, f.imageUrl, f.lastPriceUsd, f.lastChange24hPct, f.lastMarketCapUsd)
  }
}
