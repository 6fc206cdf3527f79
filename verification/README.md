# MarketPulsePro pricing, news and entitlement logic in Dafny

MarketPulsePro is a Telegram bot that shows Iranian gold, currency and crypto
prices and economic news, and gates some commands behind channel membership
or admin rights. Around its network and database calls sits a thin layer of
pure decision logic, and this project models that layer and proves its
properties. The layer covers:

- price merging and defaulting, in both revisions of the price service
  (`src/` and `MarketPulsePro/src/`);
- the 30-second caches and their stale fallback;
- news aggregation;
- required-channel selection and the membership record;
- the handler decorators;
- the scheduler's bookkeeping;
- configuration parsing;
- the formatters;
- the user's display name.

Representation:

- HTTP responses are `Fetch` values: a status with a decoded body, or a
  failure. An RSS fetch is a function from feed URL to `Fetch`.
- The clock is an `Instant` parameter, in microseconds.
- Python's `float`/`int` parsing and number or date rendering are
  function-typed parameters.
- Database failures are input flags.
- The services' mutable state (caches, statistics, tables) is an immutable
  value threaded through pure functions.

Modules:

| module | file | models |
|---|---|---|
| `Wrappers` | wrappers.dfy | `Option`, `Result` |
| `Slices` | slices.dfy | Python's `s[:n]` for any integer `n` |
| `Text` | text.dfy | `split`/`join` on one character, `strip`, `replace`, ASCII `lower`, `str(int)` and its inverse |
| `StableSort` | stable_sort.dfy | `list.sort(key=..., reverse=True)`, a stable sort, largest key first |
| `Market` | market.dfy | datatypes shared by both price services, the freshness rule, coin normalisation |
| `PriceService` | price_service.dfy | `src/services/price_service.py` |
| `PulsePriceService` | pulse_price_service.dfy | `MarketPulsePro/src/services/price_service.py` |
| `NewsService` | news_service.dfy | `src/services/news_service.py` |
| `Scheduler` | scheduler.dfy | `src/services/scheduler.py` |
| `Config` | config.dfy | `src/core/config.py` |
| `ChannelService` | channel_service.dfy | `src/services/channel_service.py` |
| `Decorators` | decorators.dfy | `src/utils/decorators.py` |
| `Formatters` | formatters.dfy | `src/utils/formatters.py` |
| `User` | user.dfy | `full_name` of `MarketPulsePro/src/models/user.py` |

## Model

| member | source | states |
|---|---|---|
| Market.NormalizeCoin | MarketPulsePro/src/services/price_service.py:111-121 | a coin record is built exactly when every required key is present; a missing 24h change either raises or, when a default is given, takes it; the record is exactly the element's id, symbol, name, price, change, market cap, volume and image |
| Market.NormalizeCoins | src/services/price_service.py:226-237 | the coin loop succeeds exactly when every element normalises; the result then has one coin per element, in order |
| StableSort.SortDesc | src/services/news_service.py:35 | the sort returns a permutation of its input, ordered by key from largest down, and equal keys keep their input order |
| PriceService.KeyNameInjective | src/services/price_service.py:189 | distinct cache keys have distinct names, so each crypto `limit` has its own cache entry |
| PriceService.Lookup | src/services/price_service.py:19-20 | a cached value is visible exactly when it was stored less than 30 seconds before `now` |
| PriceService.ParsedBoard | src/services/price_service.py:93-103 | the intermediate dictionary holds exactly the board entries that are objects whose "p" parses, so `get(key, 0)` on it is the parsed price or 0 |
| PriceService.GoldPriceValues | src/services/price_service.py:106-118 | the gold prices have exactly the eight price keys, each showing the parsed price of its board key, or 0 when that is missing or unparsable |
| PriceService.Stamped | src/services/price_service.py:119-121 | after the prices come exactly two more keys, the change key with 0.0 and `timestamp`; every other price is kept |
| PriceService.GetGoldPrices | src/services/price_service.py:77-134 | a fresh cached value is returned unchanged; a 200 response is mapped, cached with the current time and returned; anything else gives `{}` and leaves the cache as it was |
| PriceService.CurrencyLoop | src/services/price_service.py:163-168 | for a table without repeated output keys, an output currency is present exactly when its upstream entry has "p"; its value is the parsed price, or 0 when `float` fails |
| PriceService.CurrencyPriceValues | src/services/price_service.py:155-172 | the five currencies of the table are shown exactly when priced upstream, and never under `usd_change_24h` or `timestamp`, which `Stamped` then adds |
| PriceService.GetCurrencyPrices | src/services/price_service.py:136-184 | the same cache-hit, store-on-200 and `{}`-otherwise discipline as gold, under the currency key |
| PriceService.CryptoRequest | src/services/price_service.py:194-209 | the requested ids are a prefix of the fixed ten-id list, `limit` long when 0 ≤ limit ≤ 10, and the page size is `limit` |
| PriceService.GetCryptoPrices | src/services/price_service.py:186-250 | a fresh list for this `limit` is returned; otherwise a 200 response whose elements all normalise, with a missing change read as 0, is cached and returned; anything else gives `[]` and leaves the cache as it was |
| PriceService.FirstBtc | src/services/price_service.py:62 | the result is None exactly when no coin has symbol "btc"; otherwise it is the first such coin |
| PriceService.Merge | src/services/price_service.py:40-66 | a raised gold or currency call counts as `{}`, and a raised crypto call as `[]`; with results of the right kind the merge completes; its keys are gold's ∪ currency's ∪ {"crypto_list"}, plus the bitcoin keys when a btc coin exists; currency wins collisions; a result of the wrong kind makes it raise |
| PriceService.MergeBitcoin | src/services/price_service.py:61-66 | "bitcoin" and "bitcoin_change_24h" come from the first btc coin; with no btc coin the result is exactly gold, then currency, then "crypto_list" |
| PriceService.GetAllPrices | src/services/price_service.py:22-74 | a fresh merged value is returned without fetching; on a miss the gold, currency and crypto sub-calls run against the cache in turn, and the result is their merge, stored with the current time, or `{}` with nothing stored when the merge raises |
| PriceService.AllPricesStep | src/services/price_service.py:30-59 | the three sub-calls keep the cache well kinded (crypto keys hold lists, the others dictionaries), so the merge completes and has "crypto_list" |
| PriceService.AllPricesKeepsKinds | src/services/price_service.py:22-74 | on a well-kinded cache `get_all_prices` always returns a dictionary and keeps the cache well kinded; on a miss the result has "crypto_list" and is cached |
| PriceService.AllPricesCachedFor30Seconds | src/services/price_service.py:27-29 | a merged value computed at t is served unchanged to any call before t + 30 s, whatever the upstream now answers |
| PriceService.GetSpecificPrice | src/services/price_service.py:252-274 | gold and طلا answer the "gold_24k" value of the gold prices, or None when that result lacks it; usd and دلار answer the "usd" value of the currency prices, or None; the btc names ask for one coin and answer its price only when that coin's symbol is "btc"; any other symbol answers None without fetching; the cache is the sub-call's |
| PriceService.SpecificGoldPrice | src/services/price_service.py:257-259 | on a miss with a 200 board, the gold answer is the parsed 24-carat gram price, or 0 |
| PriceService.SpecificUsdPrice | src/services/price_service.py:261-263 | on a miss with a 200 board, the usd answer is the parsed `price_dollar_rl` price when that entry carries "p" (0 when `float` fails), and None when it does not |
| PriceService.ClassifyIgnoresCase | src/services/price_service.py:255 | the symbol is lowered before dispatch, so its letter case does not matter |
| PulsePriceService.FreshForThirtySeconds | MarketPulsePro/src/services/price_service.py:182-187 | a value written at t is cached exactly while `now - t` < 30 s; an age of exactly 30 s is a miss |
| PulsePriceService.ExtractPrice | MarketPulsePro/src/services/price_service.py:164-171 | the parsed "p" of `data[key]`, or 0.0 when the key, the object, the field or the parse is missing; this is the same reading as `gold_prices.get(key, 0)` in `src/` (`PriceService.UpstreamOr0`) |
| PulsePriceService.ExtractChange | MarketPulsePro/src/services/price_service.py:173-180 | the parser receives "d" with every '%' removed; the result is 0.0 when the key, the field or the parse is missing |
| PulsePriceService.ChangeIgnoresPercent | MarketPulsePro/src/services/price_service.py:177 | the parsed text is shorter than "d" by exactly its number of '%' and holds none; a "d" with its '%' already removed gives the same change |
| PulsePriceService.GoldPriceFields | MarketPulsePro/src/services/price_service.py:62-69 | exactly the eight price keys, each the price extracted from its board key: 24k, 18k, ounce, mithqal and the four coins |
| PulsePriceService.GoldFromBoard | MarketPulsePro/src/services/price_service.py:61-73 | the eight price fields are kept, and exactly three keys are added: `change_24h` from `price_gram_24k`, `change_7d` always 0.0, and `timestamp` |
| PulsePriceService.GetGoldPrices | MarketPulsePro/src/services/price_service.py:46-85 | a fresh value is served from the cache; a 200 response writes the value and its time together; otherwise the last cached value is returned whatever its age, or `{}` |
| PulsePriceService.GetCryptoPrices | MarketPulsePro/src/services/price_service.py:87-131 | as gold, but a coin without a 24h change makes the whole response fall back, and the fallback default is `[]` |
| PulsePriceService.Combine | MarketPulsePro/src/services/price_service.py:40-44 | the result has exactly the keys gold, currencies and crypto, each `{}` when its sub-call raised |
| PulsePriceService.GetAllPrices | MarketPulsePro/src/services/price_service.py:30-44 | exactly the keys gold, currencies and crypto; gold and crypto are the results of the cached sub-calls run against the cache in turn, and the cache they leave is the result's; currencies is the sub-call's result or `{}` when it raised |
| PulsePriceService.GoldServedFromCache | MarketPulsePro/src/services/price_service.py:50-52 | a gold value written at t is served unchanged to any call before t + 30 s |
| PulsePriceService.GoldFallbackKeepsLastValue | MarketPulsePro/src/services/price_service.py:84-85 | once a gold value has been written, a failed fetch returns it however old |
| PulsePriceService.AllPricesGoldFromCache | MarketPulsePro/src/services/price_service.py:30-85 | after a successful gold fetch at t, the "gold" part of `get_all_prices` is that value at any call before t + 30 s whatever the upstream answers, and at any later call whose fetch fails |
| NewsService.ClipTitle | src/services/news_service.py:62 | a title over 100 characters becomes its first 100 followed by "..."; shorter titles are unchanged |
| NewsService.NormalizeEntry | src/services/news_service.py:53-73 | an entry is skipped exactly when it has no title or an invalid date; otherwise the link defaults to "", the date to now, and the title is clipped |
| NewsService.NormalizeEntries | src/services/news_service.py:52-73 | no more items than entries, all from the feed's source; one entry gives its item, or nothing when malformed; with no malformed entry, one item per entry in order; with only malformed entries, none |
| NewsService.NormalizeEntriesAppend | src/services/news_service.py:52-73 | the items of two runs of entries are the items of each, concatenated: a skipped entry does not disturb its neighbours |
| NewsService.FetchFeed | src/services/news_service.py:42-80 | a non-200 response or a failure gives no items; a 200 response gives exactly the items of its first five entries, all under the feed title or "منبع" |
| NewsService.FetchFeedCount | src/services/news_service.py:52-73 | a 200 response with no malformed entry yields five items, or one per entry when it has fewer |
| NewsService.Contribution | src/services/news_service.py:28 | a feed adds at most two items to the pool, and a failing feed adds none |
| NewsService.Collect | src/services/news_service.py:25-32 | the pool holds at most two items per feed |
| NewsService.CollectSingle | src/services/news_service.py:26-28 | a single feed contributes exactly the first two items its fetch yields |
| NewsService.CollectAppend | src/services/news_service.py:26-32 | each feed contributes independently: the pool of two feed lists is the concatenation of their pools |
| NewsService.FailedFeedContributesNothing | src/services/news_service.py:27-32 | a failing feed adds nothing and the feeds after it still add theirs |
| NewsService.LatestNews | src/services/news_service.py:17-36 | exactly `min(limit, pool size)` items (for a negative limit, the pool size plus the limit, as `[:limit]`), at most four, sorted newest first, a prefix of the stably sorted pool |
| NewsService.LatestNewsKeepsTies | src/services/news_service.py:35-36 | with a limit covering the pool, every pooled item is returned and items with equal dates keep feed order |
| Scheduler.Record | src/services/scheduler.py:67-80 | a run that raised changes no statistics; a completed run adds exactly 1 to its own counter, stamps its own last-update field, and leaves the other job's fields alone |
| Scheduler.Start | src/services/scheduler.py:37-63 | on a running scheduler each job is stored at once, an id already stored raises first, and otherwise `start` raises because it runs; on a stopped one both jobs queue behind any pending ones and start-up succeeds exactly when all queued jobs can be stored, leaving nothing pending; a conflict raises and leaves the scheduler stopped with two more jobs pending; the statistics, cache and stored jobs are always kept |
| Scheduler.Flush | src/services/scheduler.py:62 | the start-up loop keeps every stored job and the pending jobs' ids, limits and intervals, giving each reached job its first run time |
| Scheduler.FlushConflict | src/services/scheduler.py:62 | the loop raises exactly when a pending id is already stored or repeats |
| Scheduler.FlushKeys | src/services/scheduler.py:62 | a loop that completes adds exactly the pending ids to the store |
| Scheduler.FlushStores | src/services/scheduler.py:62 | every job the loop adds is the stored form of a pending job with that id |
| Scheduler.StartFresh | src/services/scheduler.py:37-63 | the first `start` stores the two jobs with intervals 30 and 3600 s, `max_instances` 1, no running instance and their first run one interval away, and the scheduler runs |
| Scheduler.StartConflicting | src/services/scheduler.py:37-63 | `start` on a stopped scheduler that still stores the price job raises, keeps the store, and leaves the price job pending with its run time and the news job pending without one |
| Scheduler.StartKeepsLimits | src/services/scheduler.py:48-58 | `start` stores and queues only jobs with the instance limit 1, and stores none with a running instance |
| Scheduler.Fire | src/services/scheduler.py:41-59 | a trigger starts a new instance only below the instance limit and schedules the next run one interval after it, keeping interval and limit; other jobs and the pending list are untouched |
| Scheduler.UpdatePrices | src/services/scheduler.py:65-80 | one price update counted and stamped; news fields unchanged |
| Scheduler.UpdateNews | src/services/scheduler.py:82-97 | one news update counted and stamped; price fields unchanged |
| Scheduler.Finish | src/services/scheduler.py:65-97 | ending a run releases exactly one instance of that job |
| Scheduler.Stop | src/services/scheduler.py:114-118 | after `stop` the scheduler does not run; a running one loses its running instances, while jobs, statistics and cache are kept; a stopped one is unchanged |
| Scheduler.StopIdempotent | src/services/scheduler.py:116-118 | stopping twice is stopping once |
| Scheduler.FirstIndex | src/services/scheduler.py:126-127 | the index of the first pending job with the id, every earlier one having another id, or the list's length when none has it |
| Scheduler.FindJob | src/services/scheduler.py:126-127 | `get_job` finds a stored job while the scheduler runs and only pending jobs while it is stopped; a stopped scheduler with nothing pending finds none |
| Scheduler.GetStats | src/services/scheduler.py:120-128 | the statistics and running flag, the number of stored jobs while running or of pending jobs while stopped, and each job's next run time or None; it raises exactly when `get_job` finds a pending job without a run time |
| Scheduler.StatsAfterStart | src/services/scheduler.py:37-128 | right after a first `start` at `now`, `get_stats` shows a running scheduler with 2 jobs, next price update at now + 30 s, next news update at now + 3600 s, counters unchanged |
| Scheduler.StatsAfterStop | src/services/scheduler.py:114-128 | after `stop` of a running scheduler, `get_stats` shows it not running with 0 jobs and no next updates, and the counters as they were; stopping a stopped scheduler changes nothing |
| Scheduler.RestartAfterStop | src/services/scheduler.py:37-128 | `start` after `stop` raises on the still-stored price job, the scheduler stays stopped, and `get_stats` then raises on the pending news job |
| Scheduler.RunNoOverlap | src/services/scheduler.py:48 | whatever sequence of starts, triggers, completions and stops occurs, no job has two instances running, and neither counter decreases |
| Scheduler.RunRegistered | src/services/scheduler.py:37-63 | whatever happens, a running scheduler stores exactly the two jobs and has nothing pending |
| Scheduler.NoSecondInstance | src/services/scheduler.py:58 | a job triggered while its previous run is active does not start again |
| Config.ParseTokens | src/core/config.py:36 | a successful read holds one value per non-blank token, in token order, each the parse of that token stripped; it succeeds exactly when every non-blank token parses, else the error names a non-blank token that does not |
| Config.ParseAll | src/core/config.py:36 | `int` over the cleaned tokens: one value per token in order, or the first token it rejects |
| Config.ParsedHead | src/core/config.py:36 | a leading token that strips to an integer contributes that value in front of the rest |
| Config.BlankHead | src/core/config.py:36 | a leading token that strips to nothing is skipped |
| Config.BlankTokenDropped | src/core/config.py:36 | the tokens of " 1, ,2" read as [1, 2] |
| Config.ParseAdminIds | src/core/config.py:34-36 | the ids are `ParseTokens` of the setting split at every comma; an empty setting gives no ids; never more ids than commas + 1 |
| Config.AdminIdsRoundTrip | src/core/config.py:36 | any list of ids written with `str` and joined by commas is read back as that list |
| Config.RssFeeds | src/core/config.py:45-51 | the feed list is never `[""]`; an unset or empty setting gives the two default feeds; otherwise the ';'-pieces, which join back to the setting |
| Config.IntSetting | src/core/config.py:54-56 | an unset integer setting takes its default; a set one is parsed, or raises naming the setting |
| Config.Load | src/core/config.py:30-70 | a loaded configuration has a non-empty token, the parsed ids, the three URLs or their defaults, the feeds and counts, and intervals 30/3600/300; an empty token always fails, but a bad ADMIN_IDS is reported first |
| Config.Defaults | src/core/config.py:32-66 | with only a bot token set, loading succeeds with no admin ids, the two default feeds, 3 channels, price 49000, 3 trial days and the three default URLs |
| Config.LoadOrder | src/core/config.py:54-70 | past the ids, the first bad integer setting in the order REQUIRED_CHANNELS_COUNT, VIP_PRICE, FREE_TRIAL_DAYS is reported, then an empty token; with all of them readable and a token set, loading succeeds |
| ChannelService.ActiveAppend | src/services/channel_service.py:24-25 | the active filter of a concatenation is the concatenation of the filtered parts, so order and repeats are kept |
| ChannelService.ActiveSingle | src/services/channel_service.py:25 | one row is kept exactly when it is active |
| ChannelService.RequiredChannels | src/services/channel_service.py:20-31 | only active channels, newest first, exactly `min(count, active channels)` of them (as `[:count]` for a negative count), a prefix of the active channels stably sorted by creation time |
| ChannelService.RequiredAreNewest | src/services/channel_service.py:25-26 | an active channel that was left out is no newer than any selected one |
| ChannelService.RequiredCount | src/services/channel_service.py:31 | with at least `count` active channels, exactly `count` are required |
| ChannelService.CheckUserChannels | src/services/channel_service.py:33-59 | true when nothing is required; otherwise true exactly for a known user, whatever they joined; false on any failure |
| ChannelService.AddUserChannel | src/services/channel_service.py:61-88 | a known user gets the channel recorded as joined and verified, and nothing else changes; an unknown user or a failure changes nothing and yields false |
| ChannelService.AddIdempotent | src/services/channel_service.py:75-84 | recording the same channel twice is recording it once, and the user then passes the check |
| Decorators.RequireSubscription | src/utils/decorators.py:18-53 | the handler runs for every user and its outcome is passed on; the subscription prompt is never sent |
| Decorators.RequireAdmin | src/utils/decorators.py:56-71 | the handler runs exactly for admins and its outcome is returned unchanged; a non-admin gets the denial reply and None |
| Decorators.HandleErrors | src/utils/decorators.py:74-94 | an Exception becomes None after an error reply, and a failing reply is ignored; a normal result and a cancellation pass through; no Exception escapes |
| Decorators.HandleErrorsIdempotent | src/utils/decorators.py:78-92 | guarding an already guarded call changes nothing |
| Formatters.FormatPrice | src/utils/formatters.py:7-14 | a falsy or non-numeric value is "نامشخص"; a number is its grouped rendering with every ',' turned into '٬', followed by " تومان" |
| Formatters.PriceHasNoComma | src/utils/formatters.py:12 | a formatted price never contains ',' |
| Formatters.Symbol | src/utils/formatters.py:22 | 📈 exactly for a rise, 📉 exactly for a fall, ➡️ exactly for zero |
| Formatters.FormatChange | src/utils/formatters.py:16-25 | a falsy value is "۰٫۰٪"; an unparsable one is "➡️ ۰٫۰٪"; otherwise the trend symbol, then the magnitude to two places and "٪" |
| Formatters.ChangeMirror | src/utils/formatters.py:22-23 | x and −x print the same magnitude under different symbols |
| Formatters.FormatDate | src/utils/formatters.py:27-34 | a missing date, or one without `strftime`, is "نامشخص"; otherwise the date's rendering |
| User.FullName | MarketPulsePro/src/models/user.py:47-52 | first and last name when both are set, else the first name, else the username, else the decimal id; never empty |
| User.NameFallsBackToId | MarketPulsePro/src/models/user.py:52 | the id fallback can be read back as the id, so users named by id are told apart |
| User.NameStartsWithFirst | MarketPulsePro/src/models/user.py:50-52 | whenever a first name is set, the full name starts with it |

## Left out

- HTTP (aiohttp), RSS parsing (feedparser), the Telegram API, SQLAlchemy sessions are represented only by their outcomes, passed in as parameters. APScheduler 3.x is reduced to its running flag, its memory job store and its pending-job list.
- `float` and `int` parsing, `:,.0f`/`:.2f` rendering and `strftime` are parameters, because they are floating-point numerics and library formatting. NaN and infinities are not modelled.
- The wall clock is a parameter. One call reads it once, where the source reads it at each `datetime.now()`.
- `asyncio.gather` runs the sub-calls concurrently. The model runs them in order. Each writes only its own cache key, so the order does not change the result.
- `TTLCache(maxsize=100)` eviction is left out: the service uses at most a handful of keys.
- PulsePriceService.GetAllPrices: the currency sub-call is an input (`None` when it raised), because `MarketPulsePro/src/services/price_service.py` calls `get_currency_prices` but never defines it. As written, line 34 raises AttributeError before anything is fetched.
- PriceService.CurrencyLoop: an upstream entry that is not an object is treated as having no "p", so its currency is absent. The source differs in two ways. A string or list entry containing "p" passes the `in` test, then indexing raises TypeError inside the inner `try`, so the currency shows 0. A number, boolean or null entry makes the `in` test itself raise TypeError outside the inner `try`. The outer handler (lines 182-184) then returns `{}` and caches nothing. For example, a board whose "price_eur" is 0 gives `{}`, where the model gives the other currencies.
- Market.NormalizeCoin: JSON `null` coin fields are not modelled, only absent keys. In `src/`, a `null` 24h change stays None rather than becoming 0.
- PriceService.Classify: lowers ASCII letters only. Python's `str.lower` also lowers non-ASCII letters. Only two of them lower to something containing an ASCII letter: the Kelvin sign lowers to 'k', and 'İ' lowers to 'i' followed by a combining dot. No recognised name contains 'k', and the combining dot keeps a name with 'İ' from matching, so the dispatch agrees.
- Scheduler.UpdatePrices: always counts an update. Both services catch every Exception themselves, so the `except` branches of `update_prices` and `update_news` are unreachable here. `Scheduler.Record` states what those branches would do.
- Scheduler.Stop: the asyncio executor's `shutdown` cancels the instances still running at their pending `await`, so their updates are never counted. The model resets them at once.
- Scheduler.Fire: the next run time is simply one interval after the trigger. APScheduler's misfire grace time, coalescing and jitter are left out.
- `send_price_alerts`, `check_channel_memberships`, `cleanup_old_data`, `get_channel_stats` and `generate_chart` are left out: they are empty placeholders, plain counts, or matplotlib and random data.
- ChannelService.AddUserChannel: models the intended update of `joined_channels`. Whether the ORM notices an in-place change of a JSON column is not modelled.
- ChannelService.RequiredChannels: channels created at the same instant are kept in table order. SQL leaves their order unspecified, and this is one admissible order.
- `Config()` creating directories, `setup_logging`, `load_dotenv`, the path settings, and `MarketPulsePro/src/core/config.py` are left out, because they are file-system and process setup.
- Logging (`logger.info`, `logger.debug`, `logger.error`) is left out: it has no effect on any result.
- Telegram handlers, keyboards, bot start-up, setup scripts and the database schema are left out. Their record fields appear only as the shapes of the inputs.
