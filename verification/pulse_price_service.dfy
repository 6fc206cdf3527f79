/** The price service of `MarketPulsePro/src/services/price_service.py`: a
    cache of two dictionaries (values and the time each was written), a
    30-second freshness window, and a fallback to the last cached value,
    however old, when a fetch fails. */
module PulsePriceService {
  import opened Wrappers
  import opened Market
  import Text
  import PriceService

  /** `self.cache` and `self.cache_time` */
  datatype State = State(cache: map<string, Payload>, cacheTime: map<string, Instant>)

  /** `self.cache_duration = 30` (seconds) */
  const CacheDuration: int := CacheTtl

  const GoldKey: string := "gold_prices"
  const CryptoKey: string := "crypto_prices"

  /** `_is_cached`: the key has a value and a write time, and the value is
      younger than the cache duration. */
  predicate IsCached(st: State, key: string, now: Instant)
  {
    key in st.cache && key in st.cacheTime && Fresh(st.cacheTime[key], now, CacheDuration)
  }

  /** A successful fetch writes the value and its time together. */
  function Write(st: State, key: string, value: Payload, now: Instant): (r: State)
    ensures r.cache == st.cache[key := value] && r.cacheTime == st.cacheTime[key := now]
  {
    State(st.cache[key := value], st.cacheTime[key := now])
  }

  /** A value written at `t` is cached at `now` exactly when `now` is less
      than 30 seconds after `t`; at 30 seconds it is a miss. */
  lemma FreshForThirtySeconds(st: State, key: string, value: Payload, t: Instant, now: Instant)
    ensures IsCached(Write(st, key, value, t), key, now) <==> now - t < 30 * Second
    ensures now == t + 30 * Second ==> !IsCached(Write(st, key, value, t), key, now)
  {
  }

  /** `key in data and f in data[key]`, with `data[key]` an object. */
  predicate HasField(board: Board, key: string, f: string)
  {
    key in board && board[key].Obj? && f in board[key].fields
  }

  /** `_extract_price`: the parsed "p" field of `data[key]`, or 0 when the key,
      the object or the field is missing or `float` fails. */
  function ExtractPrice(board: Board, key: string, parse: Parser): (r: real)
    ensures !HasField(board, key, "p") ==> r == 0.0
    ensures HasField(board, key, "p") ==> r == parse(board[key].fields["p"]).GetOr(0.0)
    ensures r == PriceService.UpstreamOr0(board, key, parse)
  {
    if HasField(board, key, "p") then parse(board[key].fields["p"]).GetOr(0.0) else 0.0
  }

  /** `_extract_change`: the "d" field of `data[key]` with every '%' removed,
      parsed; 0 when anything is missing or `float` fails. */
  function ExtractChange(board: Board, key: string, parse: Parser): (r: real)
    ensures !HasField(board, key, "d") ==> r == 0.0
    ensures HasField(board, key, "d") ==> r == parse(Text.RemoveChar(board[key].fields["d"], '%')).GetOr(0.0)
  {
    if HasField(board, key, "d") then parse(Text.RemoveChar(board[key].fields["d"], '%')).GetOr(0.0) else 0.0
  }

  /** Percent signs do not matter to the change: the parser sees the field
      without any '%', shorter by exactly their number, and writing the field
      with them already removed gives the same change. */
  lemma ChangeIgnoresPercent(board: Board, key: string, parse: Parser)
    requires HasField(board, key, "d")
    ensures var d := board[key].fields["d"];
      var t := Text.RemoveChar(d, '%');
      && '%' !in t && |t| + Text.Count(d, '%') == |d|
      && ExtractChange(board[key := Obj(board[key].fields["d" := t])], key, parse) == ExtractChange(board, key, parse)
  {
    var d := board[key].fields["d"];
    Text.RemoveCharIdempotent(d, '%');
  }

  const GoldPriceKeys: set<string> := {"18k", "24k", "ounce", "mithqal", "coin_emami", "coin_nim", "coin_rob", "coin_gerami"}

  /** The keys added after the prices are not price keys. */
  lemma GoldKeysDisjoint()
    ensures "change_24h" !in GoldPriceKeys && "change_7d" !in GoldPriceKeys && "timestamp" !in GoldPriceKeys
  {
  }

  /** The eight price fields of the gold dictionary, each read from its
      board entry with `_extract_price`. */
  function GoldPriceFields(board: Board, parse: Parser): (r: PriceMap)
    ensures r.Keys == GoldPriceKeys
    ensures r["24k"] == Num(ExtractPrice(board, "price_gram_24k", parse))
    ensures r["18k"] == Num(ExtractPrice(board, "price_gram_18k", parse))
    ensures r["ounce"] == Num(ExtractPrice(board, "price_ounce", parse))
    ensures r["mithqal"] == Num(ExtractPrice(board, "price_mithqal", parse))
    ensures r["coin_emami"] == Num(ExtractPrice(board, "coin_emami", parse))
    ensures r["coin_nim"] == Num(ExtractPrice(board, "coin_nim", parse))
    ensures r["coin_rob"] == Num(ExtractPrice(board, "coin_rob", parse))
    ensures r["coin_gerami"] == Num(ExtractPrice(board, "coin_gerami", parse))
  {
    map[
      "ounce" := Num(ExtractPrice(board, "price_ounce", parse)),
      "mithqal" := Num(ExtractPrice(board, "price_mithqal", parse)),
      "coin_emami" := Num(ExtractPrice(board, "coin_emami", parse)),
      "coin_nim" := Num(ExtractPrice(board, "coin_nim", parse)),
      "coin_rob" := Num(ExtractPrice(board, "coin_rob", parse)),
      "coin_gerami" := Num(ExtractPrice(board, "coin_gerami", parse)),
      "18k" := Num(ExtractPrice(board, "price_gram_18k", parse)),
      "24k" := Num(ExtractPrice(board, "price_gram_24k", parse))
    ]
  }

  /** The gold dictionary built from a 200 response: eight prices, the 24h
      change of the 24-carat gram price, a constant 7-day change of 0, and
      the time of the fetch. */
  function GoldFromBoard(board: Board, parse: Parser, stamp: string): (r: PriceMap)
    ensures r.Keys == GoldPriceFields(board, parse).Keys + {"change_24h", "change_7d", "timestamp"}
    ensures forall k :: k in GoldPriceFields(board, parse) ==> r[k] == GoldPriceFields(board, parse)[k]
    ensures r["change_24h"] == Num(ExtractChange(board, "price_gram_24k", parse))
    ensures r["change_7d"] == Num(0.0)
    ensures r["timestamp"] == Text(stamp)
  {
    GoldKeysDisjoint();
    GoldPriceFields(board, parse)["change_24h" := Num(ExtractChange(board, "price_gram_24k", parse))]
      ["change_7d" := Num(0.0)]["timestamp" := Text(stamp)]
  }

  datatype Served = Served(state: State, value: Payload)

  /** `self.cache.get(key, default)` */
  function CachedOr(st: State, key: string, default: Payload): Payload
  {
    if key in st.cache then st.cache[key] else default
  }

  /** `get_gold_prices`: a fresh value is served from the cache; otherwise a
      200 response is mapped and written with its time; on any other outcome
      the last cached value is returned whatever its age, or `{}`. */
  function GetGoldPrices(st: State, now: Instant, fetch: Fetch<Board>, parse: Parser, stamp: string): (r: Served)
    ensures IsCached(st, GoldKey, now) ==> r == Served(st, st.cache[GoldKey])
    ensures !IsCached(st, GoldKey, now) && fetch.Received? && fetch.status == 200 ==>
      var v := Dict(GoldFromBoard(fetch.body, parse, stamp));
      r.value == v && r.state.cache == st.cache[GoldKey := v] && r.state.cacheTime == st.cacheTime[GoldKey := now]
    ensures !IsCached(st, GoldKey, now) && !(fetch.Received? && fetch.status == 200) ==>
      r.state == st && (GoldKey in st.cache ==> r.value == st.cache[GoldKey])
      && (GoldKey !in st.cache ==> r.value == Dict(map[]))
  {
    if IsCached(st, GoldKey, now) then Served(st, st.cache[GoldKey])
    else if fetch.Received? && fetch.status == 200 then
      var v := Dict(GoldFromBoard(fetch.body, parse, stamp));
      Served(Write(st, GoldKey, v, now), v)
    else Served(st, CachedOr(st, GoldKey, Dict(map[])))
  }

  /** `get_crypto_prices`: as gold, but every coin must carry its 24h change
      (a missing one raises and the fallback applies), and the fallback
      default is `[]`. */
  function GetCryptoPrices(st: State, now: Instant, fetch: Fetch<seq<RawCoin>>): (r: Served)
    ensures IsCached(st, CryptoKey, now) ==> r == Served(st, st.cache[CryptoKey])
    ensures !IsCached(st, CryptoKey, now) ==>
      if fetch.Received? && fetch.status == 200 && NormalizeCoins(fetch.body, None).Some? then
        var v := List(NormalizeCoins(fetch.body, None).value);
        r.value == v && r.state == Write(st, CryptoKey, v, now)
      else
        r.state == st && (CryptoKey in st.cache ==> r.value == st.cache[CryptoKey])
        && (CryptoKey !in st.cache ==> r.value == List([]))
  {
    if IsCached(st, CryptoKey, now) then Served(st, st.cache[CryptoKey])
    else if fetch.Received? && fetch.status == 200 then
      match NormalizeCoins(fetch.body, None)
      case Some(coins) => Served(Write(st, CryptoKey, List(coins), now), List(coins))
      case None => Served(st, CachedOr(st, CryptoKey, List([])))
    else Served(st, CachedOr(st, CryptoKey, List([])))
  }

  /** The result dictionary of `get_all_prices`: each sub-result, or `{}`
      (also for crypto) when that sub-call raised. */
  function Combine(gold: Option<Payload>, currencies: Option<Payload>, crypto: Option<Payload>): (r: PriceMap)
    ensures r.Keys == {"gold", "currencies", "crypto"}
    ensures r["gold"] == Nested(if gold.Some? then gold.value else Dict(map[]))
    ensures r["currencies"] == Nested(if currencies.Some? then currencies.value else Dict(map[]))
    ensures r["crypto"] == Nested(if crypto.Some? then crypto.value else Dict(map[]))
  {
    map[
      "gold" := Nested(gold.GetOr(Dict(map[]))),
      "currencies" := Nested(currencies.GetOr(Dict(map[]))),
      "crypto" := Nested(crypto.GetOr(Dict(map[])))
    ]
  }

  /** `get_all_prices`: gold and crypto run against the cache (they write
      distinct keys, so their interleaving does not matter); the currency
      sub-call is an input, `None` when it raised. */
  function GetAllPrices(st: State, now: Instant, goldFetch: Fetch<Board>, currencies: Option<Payload>,
                        cryptoFetch: Fetch<seq<RawCoin>>, parse: Parser, stamp: string): (r: Served)
    ensures r.value.Dict? && r.value.fields.Keys == {"gold", "currencies", "crypto"}
    ensures r.value.fields["gold"] == Nested(GetGoldPrices(st, now, goldFetch, parse, stamp).value)
    ensures r.value.fields["crypto"] ==
      Nested(GetCryptoPrices(GetGoldPrices(st, now, goldFetch, parse, stamp).state, now, cryptoFetch).value)
    ensures r.value.fields["currencies"] == Nested(if currencies.Some? then currencies.value else Dict(map[]))
    ensures r.state == GetCryptoPrices(GetGoldPrices(st, now, goldFetch, parse, stamp).state, now, cryptoFetch).state
  {
    var g := GetGoldPrices(st, now, goldFetch, parse, stamp);
    var x := GetCryptoPrices(g.state, now, cryptoFetch);
    Served(x.state, Dict(Combine(Some(g.value), currencies, Some(x.value))))
  }

  /** A gold value written at `t` is served unchanged, without regard to the
      upstream, to any call less than 30 seconds later. */
  lemma GoldServedFromCache(st: State, t: Instant, fetch: Fetch<Board>, later: Instant, fetch': Fetch<Board>,
                            parse: Parser, stamp: string, stamp': string)
    requires !IsCached(st, GoldKey, t) && fetch.Received? && fetch.status == 200
    requires t <= later < t + CacheDuration
    ensures var first := GetGoldPrices(st, t, fetch, parse, stamp);
      GetGoldPrices(first.state, later, fetch', parse, stamp') == first
  {
  }

  /** Once any gold value has been written, a failed fetch never returns
      `{}`: it returns the last written value, however old. */
  lemma GoldFallbackKeepsLastValue(st: State, t: Instant, fetch: Fetch<Board>, later: Instant,
                                   parse: Parser, stamp: string, stamp': string)
    requires !IsCached(st, GoldKey, t) && fetch.Received? && fetch.status == 200
    requires later >= t + CacheDuration
    ensures var first := GetGoldPrices(st, t, fetch, parse, stamp);
      GetGoldPrices(first.state, later, Failed, parse, stamp') == Served(first.state, first.value)
  {
  }

  /** Within 30 seconds of a successful gold fetch, the "gold" part of
      `get_all_prices` is that cached value, whatever the upstream answers
      now, and a failed fetch later still shows it. */
  lemma AllPricesGoldFromCache(st: State, t: Instant, fetch: Fetch<Board>, later: Instant, goldFetch: Fetch<Board>,
                               currencies: Option<Payload>, cryptoFetch: Fetch<seq<RawCoin>>,
                               parse: Parser, stamp: string, stamp': string)
    requires !IsCached(st, GoldKey, t) && fetch.Received? && fetch.status == 200
    requires t <= later
    requires later < t + CacheDuration || goldFetch == Failed
    ensures var first := GetGoldPrices(st, t, fetch, parse, stamp);
      GetAllPrices(first.state, later, goldFetch, currencies, cryptoFetch, parse, stamp').value.fields["gold"]
      == Nested(first.value)
  {
    if later < t + CacheDuration {
      GoldServedFromCache(st, t, fetch, later, goldFetch, parse, stamp, stamp');
    } else {
      GoldFallbackKeepsLastValue(st, t, fetch, later, parse, stamp, stamp');
    }
  }
}
