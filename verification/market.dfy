/** Datatypes shared by both revisions of the price service: the upstream
    wire shapes, the normalised coin record, the heterogeneous values the
    services return, and the freshness rule of their caches. */
module Market {
  import opened Wrappers

  /** A reading of the service's clock, in microseconds. */
  type Instant = int

  const Second: int := 1_000_000

  /** Both revisions keep a cached value for 30 seconds. */
  const CacheTtl: int := 30 * Second

  /** A value stored at `storedAt` may still be served at `now`: its age is
      strictly below the time-to-live. */
  predicate Fresh(storedAt: Instant, now: Instant, ttl: int)
  {
    now - storedAt < ttl
  }

  /** Outcome of one HTTP request: a response with its status and decoded
      body, or an exception (timeout, connection error, undecodable body). */
  datatype Fetch<T> = Received(status: int, body: T) | Failed

  /** A parser for `float(...)`: `None` where Python raises. */
  type Parser = string -> Option<real>

  /** One entry of the TGJU board: an object with string fields such as
      "p" (price) and "d" (change), or something that is not an object. */
  datatype Quote = Obj(fields: map<string, string>) | NonObject

  type Board = map<string, Quote>

  /** One element of the CoinGecko `coins/markets` array; `None` marks an
      absent key. */
  datatype RawCoin = RawCoin(
    id: Option<string>,
    symbol: Option<string>,
    name: Option<string>,
    currentPrice: Option<real>,
    change24h: Option<real>,
    marketCap: Option<real>,
    totalVolume: Option<real>,
    image: Option<string>)

  /** The normalised coin dictionary both revisions build. */
  datatype Coin = Coin(
    id: string,
    symbol: string,
    name: string,
    price: real,
    change24h: real,
    marketCap: real,
    volume: real,
    image: string)

  /** A value of a result dictionary: a number, a text (timestamps), or a
      nested dictionary or list. */
  datatype Field = Num(x: real) | Text(s: string) | Nested(payload: Payload)

  /** What a price call returns: a dictionary or a list of coins. */
  datatype Payload = Dict(fields: map<string, Field>) | List(coins: seq<Coin>)

  type PriceMap = map<string, Field>

  /** Builds the coin dictionary; any absent key raises (`None`) except the
      24h change, which takes `missingChange` when that is given. */
  function NormalizeCoin(c: RawCoin, missingChange: Option<real>): (r: Option<Coin>)
    ensures r.Some? <==>
      && c.id.Some? && c.symbol.Some? && c.name.Some? && c.currentPrice.Some?
      && c.marketCap.Some? && c.totalVolume.Some? && c.image.Some?
      && (c.change24h.Some? || missingChange.Some?)
    ensures r.Some? ==>
      r.value == Coin(c.id.value, c.symbol.value, c.name.value, c.currentPrice.value,
                      if c.change24h.Some? then c.change24h.value else missingChange.value,
                      c.marketCap.value, c.totalVolume.value, c.image.value)
  {
    match (c.id, c.symbol, c.name, c.currentPrice, c.marketCap, c.totalVolume, c.image)
    case (Some(id), Some(sym), Some(nm), Some(p), Some(cap), Some(vol), Some(img)) =>
      var change := if c.change24h.Some? then c.change24h else missingChange;
      if change.None? then None
      else Some(Coin(id, sym, nm, p, change.value, cap, vol, img))
    case _ => None
  }

  /** The loop over the coin array: one coin per element, in order; a single
      bad element raises out of the whole loop. */
  function NormalizeCoins(cs: seq<RawCoin>, missingChange: Option<real>): (r: Option<seq<Coin>>)
    ensures r.Some? <==> forall i :: 0 <= i < |cs| ==> NormalizeCoin(cs[i], missingChange).Some?
    ensures r.Some? ==> |r.value| == |cs|
    ensures r.Some? ==> forall i :: 0 <= i < |cs| ==> NormalizeCoin(cs[i], missingChange) == Some(r.value[i])
  {
    if |cs| == 0 then Some([])
    else
      match (NormalizeCoin(cs[0], missingChange), NormalizeCoins(cs[1..], missingChange))
      case (Some(c), Some(rest)) => Some([c] + rest)
      case (None, _) => None
      case (_, None) =>
        assert forall i :: 0 <= i < |cs[1..]| ==> cs[1..][i] == cs[i + 1];
        None
  }
}
