/** `src/services/news_service.py`: each RSS feed is fetched, its first five
    entries are normalised into news items, two items per feed are pooled,
    and the pool is stably sorted newest first and cut to the limit. */
module NewsService {
  import opened Wrappers
  import opened Market
  import Slices
  import StableSort

  /** `published_parsed` of an entry: missing (or empty), a date, or a tuple
      `datetime(...)` rejects. */
  datatype Published = Absent | At(t: Instant) | Invalid

  /** A feed entry; a missing `title` makes `entry.title` raise. */
  datatype RawEntry = RawEntry(title: Option<string>, link: Option<string>, published: Published)

  /** A parsed feed: `feed.feed.get('title')` and `feed.entries`. */
  datatype RawFeed = RawFeed(title: Option<string>, entries: seq<RawEntry>)

  datatype NewsItem = NewsItem(title: string, link: string, source: string, published: Instant)

  const TitleLimit: nat := 100
  const EntriesPerFeed: nat := 5
  const ItemsPerFeed: nat := 2
  const DefaultSource: string := "منبع"

  /** The two feeds `get_latest_news` reads. */
  const Feeds: seq<string> := ["https://www.tasnimnews.com/fa/rss/feed/0/7/اقتصادی", "https://www.farsnews.ir/rss/economy"]

  /** A title longer than 100 characters keeps its first 100 followed by
      "..."; any other title is kept as it is. */
  function ClipTitle(t: string): (r: string)
    ensures |t| <= TitleLimit ==> r == t
    ensures |t| > TitleLimit ==> |r| == TitleLimit + 3 && r[..TitleLimit] == t[..TitleLimit] && r[TitleLimit..] == "..."
  {
    if |t| > TitleLimit then t[..TitleLimit] + "..." else t
  }

  /** An entry fails to become an item exactly when it has no title or its
      date is not a valid date. */
  predicate Malformed(e: RawEntry)
  {
    e.title.None? || e.published.Invalid?
  }

  /** The item `_fetch_feed` builds from one entry, or `None` when building
      it raises and the entry is skipped. */
  function NormalizeEntry(e: RawEntry, source: string, now: Instant): (r: Option<NewsItem>)
    ensures r.None? <==> Malformed(e)
    ensures r.Some? ==>
      r.value.title == ClipTitle(e.title.value)
      && r.value.link == e.link.GetOr("")
      && r.value.source == source
      && r.value.published == (if e.published.At? then e.published.t else now)
  {
    if e.title.None? then None
    else
      match e.published
      case Invalid => None
      case Absent => Some(NewsItem(ClipTitle(e.title.value), e.link.GetOr(""), source, now))
      case At(t) => Some(NewsItem(ClipTitle(e.title.value), e.link.GetOr(""), source, t))
  }

  /** The items of well-formed entries, in entry order. */
  function NormalizeEntries(es: seq<RawEntry>, source: string, now: Instant): (r: seq<NewsItem>)
    ensures |r| <= |es|
    ensures forall i :: 0 <= i < |r| ==> r[i].source == source && |r[i].title| <= TitleLimit + 3
    ensures (forall i :: 0 <= i < |es| ==> !Malformed(es[i])) ==>
      |r| == |es| && forall i :: 0 <= i < |es| ==> Some(r[i]) == NormalizeEntry(es[i], source, now)
    ensures (forall i :: 0 <= i < |es| ==> Malformed(es[i])) ==> r == []
    ensures |es| == 1 ==> r == (if Malformed(es[0]) then [] else [NormalizeEntry(es[0], source, now).value])
  {
    if |es| == 0 then []
    else
      var rest := NormalizeEntries(es[1..], source, now);
      match NormalizeEntry(es[0], source, now)
      case None => rest
      case Some(item) => [item] + rest
  }

  /** Normalising two runs of entries one after the other is normalising
      each and concatenating: a skipped entry does not disturb its
      neighbours. */
  lemma {:induction false} NormalizeEntriesAppend(a: seq<RawEntry>, b: seq<RawEntry>, source: string, now: Instant)
    ensures NormalizeEntries(a + b, source, now) == NormalizeEntries(a, source, now) + NormalizeEntries(b, source, now)
    decreases |a|
  {
    if |a| == 0 {
      assert a + b == b;
    } else {
      assert (a + b)[0] == a[0];
      assert (a + b)[1..] == a[1..] + b;
      NormalizeEntriesAppend(a[1..], b, source, now);
    }
  }

  /** `_fetch_feed`: anything but a 200 response (or an error) yields no
      items; otherwise the first five entries are normalised, all under the
      feed's title or the default source name. */
  function FetchFeed(f: Fetch<RawFeed>, now: Instant): (r: seq<NewsItem>)
    ensures |r| <= EntriesPerFeed
    ensures !(f.Received? && f.status == 200) ==> r == []
    ensures f.Received? && f.status == 200 ==>
      forall i :: 0 <= i < |r| ==> r[i].source == f.body.title.GetOr(DefaultSource)
    ensures f.Received? && f.status == 200 ==>
      r == NormalizeEntries(Slices.Prefix(f.body.entries, EntriesPerFeed), f.body.title.GetOr(DefaultSource), now)
  {
    if f.Received? && f.status == 200 then
      NormalizeEntries(Slices.Prefix(f.body.entries, EntriesPerFeed), f.body.title.GetOr(DefaultSource), now)
    else []
  }

  /** A 200 response with no malformed entry yields five items, or one per
      entry when it has fewer. */
  lemma FetchFeedCount(f: Fetch<RawFeed>, now: Instant)
    requires f.Received? && f.status == 200
    requires forall i :: 0 <= i < |f.body.entries| ==> !Malformed(f.body.entries[i])
    ensures |FetchFeed(f, now)| == (if |f.body.entries| < EntriesPerFeed then |f.body.entries| else EntriesPerFeed)
  {
    var first := Slices.Prefix(f.body.entries, EntriesPerFeed);
    assert forall i :: 0 <= i < |first| ==> first[i] == f.body.entries[i];
  }

  /** The items one feed adds to the pool: the first two its fetch yields. */
  function Contribution(fetch: string -> Fetch<RawFeed>, now: Instant): (part: string -> seq<NewsItem>)
    ensures forall f :: |part(f)| <= ItemsPerFeed
    ensures forall f :: !(fetch(f).Received? && fetch(f).status == 200) ==> part(f) == []
  {
    assert forall f :: !(fetch(f).Received? && fetch(f).status == 200) ==> |Slices.Prefix(FetchFeed(fetch(f), now), ItemsPerFeed)| == 0;
    f => Slices.Prefix(FetchFeed(fetch(f), now), ItemsPerFeed)
  }

  /** The contributions of `feeds`, feed by feed. */
  function Pool(feeds: seq<string>, part: string -> seq<NewsItem>): seq<NewsItem>
  {
    if |feeds| == 0 then [] else part(feeds[0]) + Pool(feeds[1..], part)
  }

  /** Pooling two feed lists is pooling each and concatenating. */
  lemma {:induction false} PoolAppend(a: seq<string>, b: seq<string>, part: string -> seq<NewsItem>)
    ensures Pool(a + b, part) == Pool(a, part) + Pool(b, part)
    decreases |a|
  {
    if |a| == 0 {
      assert a + b == b;
    } else {
      assert (a + b)[0] == a[0];
      assert (a + b)[1..] == a[1..] + b;
      PoolAppend(a[1..], b, part);
    }
  }

  /** A pool holds at most `k` items per feed when no feed adds more. */
  lemma {:induction false} PoolBound(feeds: seq<string>, part: string -> seq<NewsItem>, k: nat)
    requires forall f :: |part(f)| <= k
    ensures |Pool(feeds, part)| <= k * |feeds|
    decreases |feeds|
  {
    if |feeds| > 0 {
      PoolBound(feeds[1..], part, k);
      assert k * |feeds| == k + k * |feeds[1..]|;
    }
  }

  /** The pool `get_latest_news` builds: the first two items of each feed,
      feed by feed. */
  function Collect(feeds: seq<string>, fetch: string -> Fetch<RawFeed>, now: Instant): (pool: seq<NewsItem>)
    ensures |pool| <= ItemsPerFeed * |feeds|
  {
    PoolBound(feeds, Contribution(fetch, now), ItemsPerFeed);
    Pool(feeds, Contribution(fetch, now))
  }

  /** A single feed contributes the first two items its fetch yields. */
  lemma CollectSingle(f: string, fetch: string -> Fetch<RawFeed>, now: Instant)
    ensures Collect([f], fetch, now) == Slices.Prefix(FetchFeed(fetch(f), now), ItemsPerFeed)
  {
    var part := Contribution(fetch, now);
    assert [f][1..] == [];
    assert Pool([f], part) == part(f) + Pool([], part);
  }

  /** Pooling two feed lists is pooling each and concatenating. */
  lemma CollectAppend(a: seq<string>, b: seq<string>, fetch: string -> Fetch<RawFeed>, now: Instant)
    ensures Collect(a + b, fetch, now) == Collect(a, fetch, now) + Collect(b, fetch, now)
  {
    PoolAppend(a, b, Contribution(fetch, now));
  }

  /** A feed that fails contributes nothing, and the feeds after it still
      contribute theirs. */
  lemma FailedFeedContributesNothing(feeds: seq<string>, i: nat, fetch: string -> Fetch<RawFeed>, now: Instant)
    requires i < |feeds| && !(fetch(feeds[i]).Received? && fetch(feeds[i]).status == 200)
    ensures Collect(feeds, fetch, now) == Collect(feeds[..i], fetch, now) + Collect(feeds[i + 1..], fetch, now)
  {
    var tail := feeds[i..];
    assert feeds == feeds[..i] + tail;
    CollectAppend(feeds[..i], tail, fetch, now);
    assert tail[1..] == feeds[i + 1..];
    CollectFailedHead(tail, fetch, now);
  }

  lemma CollectFailedHead(feeds: seq<string>, fetch: string -> Fetch<RawFeed>, now: Instant)
    requires |feeds| > 0 && !(fetch(feeds[0]).Received? && fetch(feeds[0]).status == 200)
    ensures Collect(feeds, fetch, now) == Collect(feeds[1..], fetch, now)
  {
    var part := Contribution(fetch, now);
    assert part(feeds[0]) == [];
    assert Pool(feeds, part) == part(feeds[0]) + Pool(feeds[1..], part);
  }

  function PublishedAt(item: NewsItem): int
  {
    item.published
  }

  /** `get_latest_news`: the pooled items, newest first, ties in pool order,
      cut to `limit` as `[:limit]` does. */
  function LatestNews(fetch: string -> Fetch<RawFeed>, now: Instant, limit: int): (r: seq<NewsItem>)
    ensures |r| <= ItemsPerFeed * |Feeds|
    ensures limit >= 0 ==> |r| == (if limit < |Collect(Feeds, fetch, now)| then limit else |Collect(Feeds, fetch, now)|)
    ensures limit < 0 ==> |r| == (if |Collect(Feeds, fetch, now)| + limit >= 0 then |Collect(Feeds, fetch, now)| + limit else 0)
    ensures StableSort.SortedDesc(r, PublishedAt)
    ensures multiset(r) <= multiset(Collect(Feeds, fetch, now))
    ensures r <= StableSort.SortDesc(Collect(Feeds, fetch, now), PublishedAt)
  {
    var sorted := StableSort.SortDesc(Collect(Feeds, fetch, now), PublishedAt);
    var r := Slices.Prefix(sorted, limit);
    StableSort.PrefixSorted(sorted, r, PublishedAt);
    r
  }

  /** When the limit covers the whole pool, the result holds every pooled
      item, and items published at the same instant keep their pool order. */
  lemma LatestNewsKeepsTies(fetch: string -> Fetch<RawFeed>, now: Instant, limit: int, t: int)
    requires limit >= |Collect(Feeds, fetch, now)|
    ensures multiset(LatestNews(fetch, now, limit)) == multiset(Collect(Feeds, fetch, now))
    ensures StableSort.WithKey(LatestNews(fetch, now, limit), PublishedAt, t)
         == StableSort.WithKey(Collect(Feeds, fetch, now), PublishedAt, t)
  {
    var pool := Collect(Feeds, fetch, now);
    var sorted := StableSort.SortDesc(pool, PublishedAt);
    assert LatestNews(fetch, now, limit) == sorted;
  }
}
