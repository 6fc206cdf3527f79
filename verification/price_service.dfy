/** The price service of `src/services/price_service.py`: three upstream
    fetches (gold and currency from the TGJU board, crypto from CoinGecko),
    each behind a 30-second time-to-live cache, merged into one dictionary. */
module PriceService {
  import opened Wrappers
  import opened Market
  import Text
  import Slices

  // ---------------------------------------------------------------------
  // The time-to-live cache (`TTLCache(maxsize=100, ttl=30)`)

  /** The keys the service caches under. */
  datatype Key = GoldPrices | CurrencyPrices | AllPrices | CryptoPrices(limit: int)

  const CryptoKeyPrefix: string := "crypto_prices_"

  /** The string each key has in the cache; `f"crypto_prices_{limit}"` for crypto. */
  function KeyName(k: Key): string
  {
    match k
    case GoldPrices => "gold_prices"
    case CurrencyPrices => "currency_prices"
    case AllPrices => "all_prices"
    case CryptoPrices(limit) => CryptoKeyPrefix + Text.IntToString(limit)
  }

  /** Distinct keys have distinct names, so the cache may be indexed by `Key`;
      in particular each crypto limit has its own entry. */
  lemma KeyNameInjective(a: Key, b: Key)
    ensures KeyName(a) == KeyName(b) ==> a == b
  {
    KeyNameSecondChar(a);
    KeyNameSecondChar(b);
    if KeyName(a) == KeyName(b) && a.CryptoPrices? && b.CryptoPrices? {
      assert Text.IntToString(a.limit) == KeyName(a)[|CryptoKeyPrefix|..];
      assert Text.IntToString(b.limit) == KeyName(b)[|CryptoKeyPrefix|..];
      Text.IntToStringInjective(a.limit, b.limit);
    }
  }

  /** Only crypto names have 'r' as their second character. */
  lemma KeyNameSecondChar(k: Key)
    ensures |KeyName(k)| > 1 && (KeyName(k)[1] == 'r' <==> k.CryptoPrices?)
  {
  }

  datatype Entry = Entry(value: Payload, storedAt: Instant)

  type Cache = map<Key, Entry>

  /** `key in self.cache` followed by `self.cache[key]`: a stored value is
      visible only while it is fresh. */
  function Lookup(cache: Cache, key: Key, now: Instant): (r: Option<Payload>)
    ensures r.Some? <==> key in cache && now < cache[key].storedAt + CacheTtl
    ensures r.Some? ==> r.value == cache[key].value
  {
    if key in cache && Fresh(cache[key].storedAt, now, CacheTtl) then Some(cache[key].value) else None
  }

  /** `self.cache[key] = value` */
  function Store(cache: Cache, key: Key, value: Payload, now: Instant): Cache
  {
    cache[key := Entry(value, now)]
  }

  /** The result of a call together with the cache it leaves behind. */
  datatype Served = Served(cache: Cache, value: Payload)


  // ---------------------------------------------------------------------
  // Gold

  /** The price an upstream entry carries, if it is an object with a "p"
      field that `float` accepts. */
  function QuotePrice(q: Quote, parse: Parser): Option<real>
  {
    if q.Obj? && "p" in q.fields then parse(q.fields["p"]) else None
  }

  /** The intermediate `gold_prices` dictionary: every board entry whose
      price parses; the others are skipped. */
  function ParsedBoard(board: Board, parse: Parser): (m: map<string, real>)
    ensures forall k :: k in m <==> k in board && QuotePrice(board[k], parse).Some?
    ensures forall k :: GetOr0(m, k) == UpstreamOr0(board, k, parse)
  {
    map k | k in board && QuotePrice(board[k], parse).Some? :: QuotePrice(board[k], parse).value
  }

  /** `d.get(k, 0)` */
  function GetOr0(m: map<string, real>, k: string): real
  {
    if k in m then m[k] else 0.0
  }

  /** The price a gold output field shows: the parsed upstream price, or 0
      when the entry is absent, not an object, has no "p", or does not parse. */
  function UpstreamOr0(board: Board, up: string, parse: Parser): real
  {
    if up in board && QuotePrice(board[up], parse).Some? then QuotePrice(board[up], parse).value else 0.0
  }

  /** The eight price fields of the gold dictionary, each read from its
      board key through the intermediate dictionary, with 0 as default. */
  function GoldPriceFields(board: Board, parse: Parser): PriceMap
  {
    var g := ParsedBoard(board, parse);
    map[
      "gold_18k" := Num(GetOr0(g, "price_gram_18k")),
      "gold_24k" := Num(GetOr0(g, "price_gram_24k")),
      "coin_emami" := Num(GetOr0(g, "coin_emami")),
      "coin_nim" := Num(GetOr0(g, "coin_nim")),
      "coin_rob" := Num(GetOr0(g, "coin_rob")),
      "coin_gerami" := Num(GetOr0(g, "coin_gerami")),
      "ounce" := Num(GetOr0(g, "price_ounce")),
      "mithqal" := Num(GetOr0(g, "price_mithqal"))
    ]
  }

  /** The gold dictionary has exactly the eight price keys, and each shows
      the parsed price of its board key, or 0. */
  lemma GoldPriceValues(board: Board, parse: Parser)
    ensures var r := GoldPriceFields(board, parse);
      && r.Keys == {"gold_18k", "gold_24k", "coin_emami", "coin_nim", "coin_rob", "coin_gerami", "ounce", "mithqal"}
      && r["gold_18k"] == Num(UpstreamOr0(board, "price_gram_18k", parse))
      && r["gold_24k"] == Num(UpstreamOr0(board, "price_gram_24k", parse))
      && r["coin_emami"] == Num(UpstreamOr0(board, "coin_emami", parse))
      && r["coin_nim"] == Num(UpstreamOr0(board, "coin_nim", parse))
      && r["coin_rob"] == Num(UpstreamOr0(board, "coin_rob", parse))
      && r["coin_gerami"] == Num(UpstreamOr0(board, "coin_gerami", parse))
      && r["ounce"] == Num(UpstreamOr0(board, "price_ounce", parse))
      && r["mithqal"] == Num(UpstreamOr0(board, "price_mithqal", parse))
  {
  }

  /** The two keys both boards end with: a constant 24h change under
      `changeKey`, then the time of the fetch. */
  function Stamped(m: PriceMap, changeKey: string, stamp: string): (r: PriceMap)
    requires changeKey != "timestamp"
    ensures r.Keys == m.Keys + {changeKey, "timestamp"}
    ensures forall k :: k in m && k != changeKey && k != "timestamp" ==> r[k] == m[k]
    ensures r[changeKey] == Num(0.0) && r["timestamp"] == Text(stamp)
  {
    m[changeKey := Num(0.0)]["timestamp" := Text(stamp)]
  }

  /** The gold dictionary built from a 200 response. */
  function GoldFromBoard(board: Board, parse: Parser, stamp: string): PriceMap
  {
    Stamped(GoldPriceFields(board, parse), "gold_change_24h", stamp)
  }

  /** `get_gold_prices`: a fresh cached value is returned as is; otherwise a
      200 response is mapped, cached and returned; anything else gives `{}`
      and leaves the cache alone. */
  function GetGoldPrices(cache: Cache, now: Instant, fetch: Fetch<Board>, parse: Parser, stamp: string): (r: Served)
    ensures Lookup(cache, GoldPrices, now).Some? ==> r == Served(cache, Lookup(cache, GoldPrices, now).value)
    ensures Lookup(cache, GoldPrices, now).None? && fetch.Received? && fetch.status == 200 ==>
      var v := Dict(GoldFromBoard(fetch.body, parse, stamp));
      r.value == v && r.cache == cache[GoldPrices := Entry(v, now)]
    ensures Lookup(cache, GoldPrices, now).None? && !(fetch.Received? && fetch.status == 200) ==>
      r == Served(cache, Dict(map[]))
  {
    match Lookup(cache, GoldPrices, now)
    case Some(v) => Served(cache, v)
    case None =>
      if fetch.Received? && fetch.status == 200 then
        var v := Dict(GoldFromBoard(fetch.body, parse, stamp));
        Served(Store(cache, GoldPrices, v, now), v)
      else Served(cache, Dict(map[]))
  }

  // ---------------------------------------------------------------------
  // Currency

  const CurrencySources: seq<(string, string)> := [
    ("usd", "price_dollar_rl"),
    ("eur", "price_eur"),
    ("gbp", "price_gbp"),
    ("aed", "price_aed"),
    ("try", "price_try")
  ]

  /** `tgju_key in data and 'p' in data[tgju_key]` */
  predicate HasPrice(board: Board, up: string)
  {
    up in board && board[up].Obj? && "p" in board[up].fields
  }

  /** The mapping loop: an output key is set for every mapped upstream key
      that carries "p", to its parsed value or 0 when `float` fails. */
  function CurrencyLoop(board: Board, sources: seq<(string, string)>, parse: Parser): (r: PriceMap)
    requires forall i, j :: 0 <= i < j < |sources| ==> sources[i].0 != sources[j].0
    ensures forall k :: k in r <==> exists i :: 0 <= i < |sources| && sources[i].0 == k && HasPrice(board, sources[i].1)
    ensures forall i :: 0 <= i < |sources| && HasPrice(board, sources[i].1) ==>
      r[sources[i].0] == Num(parse(board[sources[i].1].fields["p"]).GetOr(0.0))
    decreases |sources|
  {
    if |sources| == 0 then map[]
    else
      var init := sources[..|sources| - 1];
      var (k, up) := sources[|sources| - 1];
      assert forall i :: 0 <= i < |init| ==> init[i] == sources[i];
      var r := CurrencyLoop(board, init, parse);
      if HasPrice(board, up) then r[k := Num(parse(board[up].fields["p"]).GetOr(0.0))] else r
  }

  /** The output keys of the currency table are distinct, and none is one
      of the two keys added after the prices. */
  lemma CurrencySourcesDistinct()
    ensures forall i, j :: 0 <= i < j < |CurrencySources| ==> CurrencySources[i].0 != CurrencySources[j].0
    ensures forall i :: 0 <= i < |CurrencySources| ==> CurrencySources[i].0 !in {"usd_change_24h", "timestamp"}
  {
  }

  /** The currencies of the table whose upstream entry carries "p", each
      with its parsed price or 0. */
  function CurrencyPriceFields(board: Board, parse: Parser): PriceMap
  {
    CurrencySourcesDistinct();
    CurrencyLoop(board, CurrencySources, parse)
  }

  /** A currency of the table is shown exactly when its upstream entry
      carries "p", with the parsed price or 0; the two keys added after the
      prices are never among them. */
  lemma CurrencyPriceValues(board: Board, parse: Parser)
    ensures var r := CurrencyPriceFields(board, parse);
      && (forall k :: k in r <==>
            exists i :: 0 <= i < |CurrencySources| && CurrencySources[i].0 == k && HasPrice(board, CurrencySources[i].1))
      && (forall i :: 0 <= i < |CurrencySources| && HasPrice(board, CurrencySources[i].1) ==>
            r[CurrencySources[i].0] == Num(parse(board[CurrencySources[i].1].fields["p"]).GetOr(0.0)))
      && "usd_change_24h" !in r && "timestamp" !in r
  {
    CurrencySourcesDistinct();
  }

  /** The currency dictionary built from a 200 response: the priced
      currencies, then the constant 24h change and the time of the fetch. */
  function CurrencyFromBoard(board: Board, parse: Parser, stamp: string): PriceMap
  {
    Stamped(CurrencyPriceFields(board, parse), "usd_change_24h", stamp)
  }

  /** `get_currency_prices`, with the same cache discipline as gold. */
  function GetCurrencyPrices(cache: Cache, now: Instant, fetch: Fetch<Board>, parse: Parser, stamp: string): (r: Served)
    ensures Lookup(cache, CurrencyPrices, now).Some? ==> r == Served(cache, Lookup(cache, CurrencyPrices, now).value)
    ensures Lookup(cache, CurrencyPrices, now).None? && fetch.Received? && fetch.status == 200 ==>
      var v := Dict(CurrencyFromBoard(fetch.body, parse, stamp));
      r.value == v && r.cache == cache[CurrencyPrices := Entry(v, now)]
    ensures Lookup(cache, CurrencyPrices, now).None? && !(fetch.Received? && fetch.status == 200) ==>
      r == Served(cache, Dict(map[]))
  {
    match Lookup(cache, CurrencyPrices, now)
    case Some(v) => Served(cache, v)
    case None =>
      if fetch.Received? && fetch.status == 200 then
        var v := Dict(CurrencyFromBoard(fetch.body, parse, stamp));
        Served(Store(cache, CurrencyPrices, v, now), v)
      else Served(cache, Dict(map[]))
  }

  // ---------------------------------------------------------------------
  // Crypto

  /** The fixed list of CoinGecko ids the service asks for. */
  const CoinIds: seq<string> := [
    "bitcoin", "ethereum", "binancecoin",
    "solana", "cardano", "ripple",
    "dogecoin", "polkadot", "litecoin",
    "chainlink"
  ]

  /** The request parameters that depend on `limit`. */
  datatype CryptoQuery = CryptoQuery(ids: seq<string>, perPage: int)

  /** The ids are `coin_ids[:limit]` and one page of `limit` results is asked for. */
  function CryptoRequest(limit: int): (q: CryptoQuery)
    ensures q.ids <= CoinIds
    ensures 0 <= limit <= |CoinIds| ==> |q.ids| == limit
    ensures limit >= |CoinIds| ==> q.ids == CoinIds
    ensures q.perPage == limit
  {
    CryptoQuery(Slices.Prefix(CoinIds, limit), limit)
  }

  /** `get_crypto_prices(limit)`: a fresh cached list for this limit is
      returned as is; otherwise a 200 response whose every element has the
      required keys is cached and returned (a missing 24h change reads as 0);
      anything else gives `[]` and leaves the cache alone. */
  function GetCryptoPrices(cache: Cache, now: Instant, limit: int, fetch: Fetch<seq<RawCoin>>): (r: Served)
    ensures Lookup(cache, CryptoPrices(limit), now).Some? ==> r == Served(cache, Lookup(cache, CryptoPrices(limit), now).value)
    ensures Lookup(cache, CryptoPrices(limit), now).None? ==>
      if fetch.Received? && fetch.status == 200 && NormalizeCoins(fetch.body, Some(0.0)).Some? then
        var v := List(NormalizeCoins(fetch.body, Some(0.0)).value);
        r.value == v && r.cache == cache[CryptoPrices(limit) := Entry(v, now)]
      else r == Served(cache, List([]))
  {
    var key := CryptoPrices(limit);
    match Lookup(cache, key, now)
    case Some(v) => Served(cache, v)
    case None =>
      if fetch.Received? && fetch.status == 200 then
        match NormalizeCoins(fetch.body, Some(0.0))
        case Some(coins) => Served(Store(cache, key, List(coins), now), List(coins))
        case None => Served(cache, List([]))
      else Served(cache, List([]))
  }

  // ---------------------------------------------------------------------
  // get_all_prices

  /** The first coin whose symbol is "btc" (`next(..., None)`). */
  function FirstBtc(coins: seq<Coin>): (r: Option<Coin>)
    ensures r.None? <==> forall i :: 0 <= i < |coins| ==> coins[i].symbol != "btc"
    ensures r.Some? ==> r.value.symbol == "btc"
    ensures r.Some? ==> exists i :: (0 <= i < |coins| && coins[i] == r.value
      && forall j :: 0 <= j < i ==> coins[j].symbol != "btc")
  {
    if |coins| == 0 then None
    else if coins[0].symbol == "btc" then Some(coins[0])
    else
      var r := FirstBtc(coins[1..]);
      assert forall j :: 1 <= j < |coins| ==> coins[j] == coins[1..][j - 1];
      if r.Some? then
        ghost var i :| 0 <= i < |coins[1..]| && coins[1..][i] == r.value
          && forall j :: 0 <= j < i ==> coins[1..][j].symbol != "btc";
        assert coins[i + 1] == r.value;
        r
      else r
  }

  /** Reads a sub-result as the merge does, with a raised call as empty. */
  function FieldsOr(p: Option<Payload>): map<string, Field>
  {
    if p.Some? && p.value.Dict? then p.value.fields else map[]
  }

  function CoinsOr(p: Option<Payload>): seq<Coin>
  {
    if p.Some? && p.value.List? then p.value.coins else []
  }

  const BtcKeys: set<string> := {"crypto_list", "bitcoin", "bitcoin_change_24h"}

  /** The merge step of `get_all_prices`. Each argument is a sub-call's
      result, `None` when it raised; a raised gold or currency call counts as
      `{}` and a raised crypto call as `[]`. The result is `None` where the
      merge itself raises (a sub-result of the wrong kind), which the
      enclosing handler turns into `{}`. With sub-results of the right kind,
      raised or not, the merge completes; its keys are gold's and currency's
      plus "crypto_list" (always present) and the two bitcoin keys; currency
      wins a collision with gold. */
  function Merge(gold: Option<Payload>, currency: Option<Payload>, crypto: Option<Payload>): (r: Option<PriceMap>)
    ensures (gold.Some? && gold.value.List?) || (currency.Some? && currency.value.List?) ==> r.None?
    ensures ((gold.Some? ==> gold.value.Dict?) && (currency.Some? ==> currency.value.Dict?)
      && (crypto.Some? ==> crypto.value.List?)) ==>
      && r.Some?
      && "crypto_list" in r.value
      && r.value["crypto_list"] == Nested(List(CoinsOr(crypto)))
      && (forall k :: k in r.value <==> (k in FieldsOr(gold) || k in FieldsOr(currency) || k == "crypto_list"
            || (k in {"bitcoin", "bitcoin_change_24h"} && FirstBtc(CoinsOr(crypto)).Some?)))
      && (forall k :: k in FieldsOr(currency) && k !in BtcKeys ==> r.value[k] == FieldsOr(currency)[k])
      && (forall k :: k in FieldsOr(gold) && k !in FieldsOr(currency) && k !in BtcKeys ==> r.value[k] == FieldsOr(gold)[k])
  {
    var g := gold.GetOr(Dict(map[]));
    var c := currency.GetOr(Dict(map[]));
    var x := crypto.GetOr(List([]));
    if !g.Dict? || !c.Dict? then None
    else
      var prices := g.fields + c.fields + map["crypto_list" := Nested(x)];
      match x
      case List(coins) =>
        (match FirstBtc(coins)
         case Some(btc) => Some(prices["bitcoin" := Num(btc.price)]["bitcoin_change_24h" := Num(btc.change24h)])
         case None => Some(prices))
      case Dict(m) =>
        // iterating a non-empty dictionary yields its keys, and indexing a
        // key string with 'symbol' raises
        if |m| == 0 then Some(prices) else None
  }

  /** "bitcoin" and its change are taken from the first coin whose symbol is
      "btc"; with no such coin the merge adds neither. */
  lemma MergeBitcoin(gold: Option<Payload>, currency: Option<Payload>, coins: seq<Coin>)
    requires gold.Some? ==> gold.value.Dict?
    requires currency.Some? ==> currency.value.Dict?
    ensures var r := Merge(gold, currency, Some(List(coins)));
      && r.Some?
      && (forall i :: (0 <= i < |coins| && coins[i].symbol == "btc"
            && (forall j :: 0 <= j < i ==> coins[j].symbol != "btc")) ==>
              r.value["bitcoin"] == Num(coins[i].price)
              && r.value["bitcoin_change_24h"] == Num(coins[i].change24h))
      && ((forall i :: 0 <= i < |coins| ==> coins[i].symbol != "btc") ==>
            r.value == FieldsOr(gold) + FieldsOr(currency) + map["crypto_list" := Nested(List(coins))])
  {
    var r := Merge(gold, currency, Some(List(coins)));
    forall i | 0 <= i < |coins| && coins[i].symbol == "btc" && (forall j :: 0 <= j < i ==> coins[j].symbol != "btc")
      ensures r.value["bitcoin"] == Num(coins[i].price) && r.value["bitcoin_change_24h"] == Num(coins[i].change24h)
    {
      var b := FirstBtc(coins).value;
      var i' :| 0 <= i' < |coins| && coins[i'] == b && forall j :: 0 <= j < i' ==> coins[j].symbol != "btc";
    }
  }

  // ---------------------------------------------------------------------
  // Cache-kind invariant and the composed calls

  /** Crypto keys only ever hold lists and the other keys dictionaries. */
  ghost predicate WellKinded(cache: Cache)
  {
    forall k :: k in cache ==> (cache[k].value.List? <==> k.CryptoPrices?)
  }

  /** The three upstream responses one round of `get_all_prices` may use:
      gold and currency each request the TGJU board on their own. */
  datatype Responses = Responses(goldBoard: Fetch<Board>, currencyBoard: Fetch<Board>, coins: Fetch<seq<RawCoin>>)

  /** `get_all_prices` asks for three coins. */
  const AllPricesCoinLimit: int := 3

  /** `get_all_prices`: a fresh merged value is returned without fetching;
      otherwise the three sub-calls run (each with its own cache key), their
      results are merged, and the merged dictionary is cached. */
  function GetAllPrices(cache: Cache, now: Instant, resp: Responses, parse: Parser, stamp: string): (r: Served)
    ensures Lookup(cache, AllPrices, now).Some? ==> r == Served(cache, Lookup(cache, AllPrices, now).value)
    ensures Lookup(cache, AllPrices, now).None? && r.value != Dict(map[]) ==>
      AllPrices in r.cache && r.cache[AllPrices] == Entry(r.value, now)
    ensures Lookup(cache, AllPrices, now).None? ==>
      var g := GetGoldPrices(cache, now, resp.goldBoard, parse, stamp);
      var c := GetCurrencyPrices(g.cache, now, resp.currencyBoard, parse, stamp);
      var x := GetCryptoPrices(c.cache, now, AllPricesCoinLimit, resp.coins);
      var merged := Merge(Some(g.value), Some(c.value), Some(x.value));
      && (merged.Some? ==> r == Served(Store(x.cache, AllPrices, Dict(merged.value), now), Dict(merged.value)))
      && (merged.None? ==> r == Served(x.cache, Dict(map[])))
  {
    match Lookup(cache, AllPrices, now)
    case Some(v) => Served(cache, v)
    case None =>
      var g := GetGoldPrices(cache, now, resp.goldBoard, parse, stamp);
      var c := GetCurrencyPrices(g.cache, now, resp.currencyBoard, parse, stamp);
      var x := GetCryptoPrices(c.cache, now, AllPricesCoinLimit, resp.coins);
      match Merge(Some(g.value), Some(c.value), Some(x.value))
      case Some(prices) => Served(Store(x.cache, AllPrices, Dict(prices), now), Dict(prices))
      case None => Served(x.cache, Dict(map[]))
  }

  /** The sub-calls keep the cache well kinded and return the kinds the merge
      expects, so the merge completes. */
  lemma AllPricesStep(cache: Cache, now: Instant, resp: Responses, parse: Parser, stamp: string)
    requires WellKinded(cache)
    ensures var g := GetGoldPrices(cache, now, resp.goldBoard, parse, stamp);
      var c := GetCurrencyPrices(g.cache, now, resp.currencyBoard, parse, stamp);
      var x := GetCryptoPrices(c.cache, now, AllPricesCoinLimit, resp.coins);
      && WellKinded(x.cache)
      && Merge(Some(g.value), Some(c.value), Some(x.value)).Some?
      && "crypto_list" in Merge(Some(g.value), Some(c.value), Some(x.value)).value
  {
    var g := GetGoldPrices(cache, now, resp.goldBoard, parse, stamp);
    GoldKeepsKinds(cache, now, resp.goldBoard, parse, stamp);
    var c := GetCurrencyPrices(g.cache, now, resp.currencyBoard, parse, stamp);
    CurrencyKeepsKinds(g.cache, now, resp.currencyBoard, parse, stamp);
    CryptoKeepsKinds(c.cache, now, AllPricesCoinLimit, resp.coins);
  }

  /** `get_gold_prices` keeps the cache well kinded and returns a dictionary. */
  lemma GoldKeepsKinds(cache: Cache, now: Instant, fetch: Fetch<Board>, parse: Parser, stamp: string)
    requires WellKinded(cache)
    ensures WellKinded(GetGoldPrices(cache, now, fetch, parse, stamp).cache)
    ensures GetGoldPrices(cache, now, fetch, parse, stamp).value.Dict?
  {
  }

  /** `get_currency_prices` keeps the cache well kinded and returns a dictionary. */
  lemma CurrencyKeepsKinds(cache: Cache, now: Instant, fetch: Fetch<Board>, parse: Parser, stamp: string)
    requires WellKinded(cache)
    ensures WellKinded(GetCurrencyPrices(cache, now, fetch, parse, stamp).cache)
    ensures GetCurrencyPrices(cache, now, fetch, parse, stamp).value.Dict?
  {
  }

  /** `get_crypto_prices` keeps the cache well kinded and returns a list. */
  lemma CryptoKeepsKinds(cache: Cache, now: Instant, limit: int, fetch: Fetch<seq<RawCoin>>)
    requires WellKinded(cache)
    ensures WellKinded(GetCryptoPrices(cache, now, limit, fetch).cache)
    ensures GetCryptoPrices(cache, now, limit, fetch).value.List?
  {
  }

  /** On a well-kinded cache `get_all_prices` keeps the cache well kinded
      and, on a miss, always produces a dictionary with "crypto_list" and
      caches it. */
  lemma AllPricesKeepsKinds(cache: Cache, now: Instant, resp: Responses, parse: Parser, stamp: string)
    requires WellKinded(cache)
    ensures var r := GetAllPrices(cache, now, resp, parse, stamp);
      && WellKinded(r.cache)
      && r.value.Dict?
      && (Lookup(cache, AllPrices, now).None? ==>
            && "crypto_list" in r.value.fields
            && AllPrices in r.cache && r.cache[AllPrices] == Entry(r.value, now))
  {
    if Lookup(cache, AllPrices, now).None? {
      AllPricesStep(cache, now, resp, parse, stamp);
    }
  }

  /** A merged value served within 30 seconds of being cached is served
      again as is, whatever the upstream would answer now. */
  lemma AllPricesCachedFor30Seconds(cache: Cache, t: Instant, resp: Responses, later: Instant, resp': Responses,
                                    parse: Parser, stamp: string, stamp': string)
    requires WellKinded(cache)
    requires Lookup(cache, AllPrices, t).None?
    requires later < t + CacheTtl
    ensures var first := GetAllPrices(cache, t, resp, parse, stamp);
      GetAllPrices(first.cache, later, resp', parse, stamp') == first
  {
    var first := GetAllPrices(cache, t, resp, parse, stamp);
    AllPricesKeepsKinds(cache, t, resp, parse, stamp);
    assert Lookup(first.cache, AllPrices, later) == Some(first.value);
  }

  // ---------------------------------------------------------------------
  // get_specific_price

  datatype Asset = Gold | Usd | Btc | Unknown

  const BitcoinFa: string := "بیت\U{200C}کوین"

  /** The asset a symbol names, after lowering its case. */
  function Classify(symbol: string): Asset
  {
    var s := Text.LowerAscii(symbol);
    if s == "gold" || s == "طلا" then Gold
    else if s == "usd" || s == "دلار" then Usd
    else if s == "btc" || s == "bitcoin" || s == BitcoinFa then Btc
    else Unknown
  }

  datatype Priced = Priced(cache: Cache, price: Option<Field>)

  /** `prices.get(key)`; on a list the call raises and the handler returns None. */
  function GetField(p: Payload, key: string): Option<Field>
  {
    if p.Dict? && key in p.fields then Some(p.fields[key]) else None
  }

  /** `get_specific_price`: gold reads "gold_24k" of the gold prices, usd reads
      "usd" of the currency prices, bitcoin asks for one coin and answers only
      when that first coin is "btc"; any other symbol answers None without
      fetching. */
  function GetSpecificPrice(cache: Cache, now: Instant, symbol: string, resp: Responses, parse: Parser, stamp: string): (r: Priced)
    ensures Classify(symbol) == Unknown ==> r == Priced(cache, None)
    ensures Classify(symbol) == Gold ==>
      var g := GetGoldPrices(cache, now, resp.goldBoard, parse, stamp);
      && r.cache == g.cache
      && r.price == (if g.value.Dict? && "gold_24k" in g.value.fields then Some(g.value.fields["gold_24k"]) else None)
    ensures Classify(symbol) == Usd ==>
      var c := GetCurrencyPrices(cache, now, resp.currencyBoard, parse, stamp);
      && r.cache == c.cache
      && r.price == (if c.value.Dict? && "usd" in c.value.fields then Some(c.value.fields["usd"]) else None)
    ensures Classify(symbol) == Btc ==>
      var x := GetCryptoPrices(cache, now, 1, resp.coins);
      && r.cache == x.cache
      && (r.price.Some? <==> x.value.List? && |x.value.coins| > 0 && x.value.coins[0].symbol == "btc")
      && (r.price.Some? ==> r.price.value == Num(x.value.coins[0].price))
  {
    match Classify(symbol)
    case Gold =>
      var g := GetGoldPrices(cache, now, resp.goldBoard, parse, stamp);
      Priced(g.cache, GetField(g.value, "gold_24k"))
    case Usd =>
      var c := GetCurrencyPrices(cache, now, resp.currencyBoard, parse, stamp);
      Priced(c.cache, GetField(c.value, "usd"))
    case Btc =>
      var x := GetCryptoPrices(cache, now, 1, resp.coins);
      if x.value.List? && |x.value.coins| > 0 && x.value.coins[0].symbol == "btc" then
        Priced(x.cache, Some(Num(x.value.coins[0].price)))
      else Priced(x.cache, None)
    case Unknown => Priced(cache, None)
  }

  /** A fresh gold answer for "gold" (in any letter case) is the parsed
      24-carat gram price, or 0 when the board lacks it. */
  lemma SpecificGoldPrice(cache: Cache, now: Instant, symbol: string, resp: Responses, parse: Parser, stamp: string)
    requires Classify(symbol) == Gold
    requires Lookup(cache, GoldPrices, now).None?
    requires resp.goldBoard.Received? && resp.goldBoard.status == 200
    ensures GetSpecificPrice(cache, now, symbol, resp, parse, stamp).price
      == Some(Num(UpstreamOr0(resp.goldBoard.body, "price_gram_24k", parse)))
  {
    GoldPriceValues(resp.goldBoard.body, parse);
  }

  /** A fresh currency answer for "usd" (in any letter case) is the parsed
      "price_dollar_rl" price when the board carries it, and None otherwise. */
  lemma SpecificUsdPrice(cache: Cache, now: Instant, symbol: string, resp: Responses, parse: Parser, stamp: string)
    requires Classify(symbol) == Usd
    requires Lookup(cache, CurrencyPrices, now).None?
    requires resp.currencyBoard.Received? && resp.currencyBoard.status == 200
    ensures var board := resp.currencyBoard.body;
      GetSpecificPrice(cache, now, symbol, resp, parse, stamp).price
      == if HasPrice(board, "price_dollar_rl") then Some(Num(parse(board["price_dollar_rl"].fields["p"]).GetOr(0.0))) else None
  {
    UsdField(resp.currencyBoard.body, parse, stamp);
  }

  /** The currency dictionary has "usd" exactly when the board prices
      "price_dollar_rl", and then shows that parsed price. */
  lemma UsdField(board: Board, parse: Parser, stamp: string)
    ensures var r := CurrencyFromBoard(board, parse, stamp);
      && ("usd" in r <==> HasPrice(board, "price_dollar_rl"))
      && (HasPrice(board, "price_dollar_rl") ==> r["usd"] == Num(parse(board["price_dollar_rl"].fields["p"]).GetOr(0.0)))
  {
    UsdPriced(board, parse);
  }

  lemma UsdPriced(board: Board, parse: Parser)
    ensures var m := CurrencyPriceFields(board, parse);
      && ("usd" in m <==> HasPrice(board, "price_dollar_rl"))
      && (HasPrice(board, "price_dollar_rl") ==> m["usd"] == Num(parse(board["price_dollar_rl"].fields["p"]).GetOr(0.0)))
  {
    var m := CurrencyPriceFields(board, parse);
    CurrencyPriceValues(board, parse);
    CurrencySourcesDistinct();
    assert CurrencySources[0] == ("usd", "price_dollar_rl");
    if "usd" in m {
      var i :| 0 <= i < |CurrencySources| && CurrencySources[i].0 == "usd" && HasPrice(board, CurrencySources[i].1);
      assert i == 0;
    }
  }

  /** Lowering is applied first, so case does not matter to the dispatch. */
  lemma ClassifyIgnoresCase(symbol: string)
    ensures Classify(Text.LowerAscii(symbol)) == Classify(symbol)
  {
    assert Text.LowerAscii(Text.LowerAscii(symbol)) == Text.LowerAscii(symbol);
  }
}
