/** `src/services/scheduler.py`: two interval jobs (prices every 30 s, news
    every hour, at most one running instance each) and the statistics they
    keep. The scheduler library (APScheduler 3.x) is reduced to what the
    service relies on: whether it runs, its job store with each job's
    running instances, and the list of jobs added while it was stopped. */
module Scheduler {
  import opened Wrappers
  import opened Market
  import PriceService
  import NewsService

  datatype JobId = PriceJob | NewsJob

  /** `self.stats` */
  datatype Stats = Stats(priceUpdates: nat, newsUpdates: nat, lastPriceUpdate: Option<Instant>, lastNewsUpdate: Option<Instant>)

  /** Both counters start at 0 and neither update has happened. */
  const InitialStats: Stats := Stats(0, 0, None, None)

  /** The bookkeeping after one run of a job's `try` block: a run that
      raised leaves the statistics alone; one that returned counts one
      update of its own kind, stamped `now`, and leaves the other kind's
      fields as they were. */
  function Record(s: Stats, job: JobId, raised: bool, now: Instant): (r: Stats)
    ensures raised ==> r == s
    ensures !raised && job == PriceJob ==>
      r.priceUpdates == s.priceUpdates + 1 && r.lastPriceUpdate == Some(now)
      && r.newsUpdates == s.newsUpdates && r.lastNewsUpdate == s.lastNewsUpdate
    ensures !raised && job == NewsJob ==>
      r.newsUpdates == s.newsUpdates + 1 && r.lastNewsUpdate == Some(now)
      && r.priceUpdates == s.priceUpdates && r.lastPriceUpdate == s.lastPriceUpdate
  {
    if raised then s
    else match job
      case PriceJob => s.(priceUpdates := s.priceUpdates + 1, lastPriceUpdate := Some(now))
      case NewsJob => s.(newsUpdates := s.newsUpdates + 1, lastNewsUpdate := Some(now))
  }

  /** A job in the library's job store: its trigger interval in seconds, its
      instance limit, the instances now running, and its next run time. */
  datatype Job = Job(interval: int, maxInstances: nat, active: nat, nextRun: Instant)

  /** A job handed to a stopped scheduler. It waits in the library's pending
      list until the scheduler starts, and only gets a next run time
      (`Some`) when the start-up loop reaches it. */
  datatype Pending = Pending(id: JobId, interval: int, maxInstances: nat, nextRun: Option<Instant>)

  /** The service: the library scheduler's state (whether it runs, its job
      store, its pending list), the statistics, and the cache of the
      service's own `PriceService`. */
  datatype Service = Service(running: bool, jobs: map<JobId, Job>, pending: seq<Pending>, stats: Stats,
                             prices: PriceService.Cache)

  /** `SchedulerService(app, config)`: nothing registered, nothing run. */
  const Initial: Service := Service(false, map[], [], InitialStats, map[])

  const PriceUpdateInterval: int := 30
  const NewsUpdateInterval: int := 3600
  const NewsLimit: int := 5

  /** The two jobs `start` hands to the library, in order, with
      `max_instances=1` and no next run time yet. */
  const Requested: seq<Pending> :=
    [Pending(PriceJob, PriceUpdateInterval, 1, None), Pending(NewsJob, NewsUpdateInterval, 1, None)]

  /** A job about to be stored gets its first fire time, one interval after
      `now`, unless it already has one. */
  function Timed(p: Pending, now: Instant): (r: Pending)
    ensures r.id == p.id && r.interval == p.interval && r.maxInstances == p.maxInstances
    ensures r.nextRun.Some?
    ensures p.nextRun.Some? ==> r == p
    ensures p.nextRun.None? ==> r.nextRun == Some(now + p.interval * Second)
  {
    if p.nextRun.Some? then p else p.(nextRun := Some(now + p.interval * Second))
  }

  /** The store's copy of a pending job: no running instance, and the next
      run time the job has, or would get, at `now`. */
  function Stored(p: Pending, now: Instant): (j: Job)
    ensures j.interval == p.interval && j.maxInstances == p.maxInstances && j.active == 0
    ensures j.nextRun == Timed(p, now).nextRun.value
  {
    Job(p.interval, p.maxInstances, 0, Timed(p, now).nextRun.value)
  }

  /** The pending jobs from index `i` on can all be stored: no id is in the
      store already and no id repeats. */
  ghost predicate Clear(store: map<JobId, Job>, pending: seq<Pending>, i: nat)
  {
    && (forall k :: i <= k < |pending| ==> pending[k].id !in store)
    && (forall m, k :: i <= m < k < |pending| ==> pending[m].id != pending[k].id)
  }

  /** Where the start-up loop leaves the job store and the pending list, and
      whether a conflicting id stopped it. */
  datatype Flushed = Flushed(store: map<JobId, Job>, pending: seq<Pending>, conflict: bool)

  /** The start-up loop over the pending jobs from index `i`: each in turn
      gets its next run time and is added to the store. The first whose id
      the store already holds raises, and the loop stops there with the jobs
      before it stored and the pending list, run times given so far
      included, left in place. */
  function Flush(store: map<JobId, Job>, pending: seq<Pending>, now: Instant, i: nat): (r: Flushed)
    requires i <= |pending|
    ensures |r.pending| == |pending|
    ensures forall k :: 0 <= k < |pending| ==>
      r.pending[k] == pending[k] || (i <= k && r.pending[k] == Timed(pending[k], now))
    ensures forall j :: j in store ==> j in r.store && r.store[j] == store[j]
    decreases |pending| - i
  {
    if i == |pending| then Flushed(store, pending, false)
    else
      var p := Timed(pending[i], now);
      var pending' := pending[i := p];
      if p.id in store then Flushed(store, pending', true)
      else Flush(store[p.id := Stored(pending[i], now)], pending', now, i + 1)
  }

  /** The loop raises exactly when the pending jobs from `i` on cannot all
      be stored. */
  lemma {:induction false} FlushConflict(store: map<JobId, Job>, pending: seq<Pending>, now: Instant, i: nat)
    requires i <= |pending|
    ensures Flush(store, pending, now, i).conflict <==> !Clear(store, pending, i)
    decreases |pending| - i
  {
    if i < |pending| && pending[i].id !in store {
      var pending' := pending[i := Timed(pending[i], now)];
      var store' := store[pending[i].id := Stored(pending[i], now)];
      FlushConflict(store', pending', now, i + 1);
      assert forall k :: i < k < |pending| ==> pending'[k] == pending[k];
    }
  }

  /** The ids of a list of pending jobs. */
  function Ids(pending: seq<Pending>): (r: set<JobId>)
    ensures forall k :: 0 <= k < |pending| ==> pending[k].id in r
    ensures forall j :: j in r ==> exists k :: 0 <= k < |pending| && pending[k].id == j
  {
    if |pending| == 0 then {} else {pending[0].id} + Ids(pending[1..])
  }

  /** A loop that completes stores every pending job from `i` on, and
      nothing else. */
  lemma {:induction false} FlushKeys(store: map<JobId, Job>, pending: seq<Pending>, now: Instant, i: nat)
    requires i <= |pending|
    ensures !Flush(store, pending, now, i).conflict ==>
      Flush(store, pending, now, i).store.Keys == store.Keys + Ids(pending[i..])
    decreases |pending| - i
  {
    if i < |pending| && pending[i].id !in store {
      var pending' := pending[i := Timed(pending[i], now)];
      var store' := store[pending[i].id := Stored(pending[i], now)];
      FlushKeys(store', pending', now, i + 1);
      assert pending'[i + 1..] == pending[i + 1..];
      assert pending[i..][1..] == pending[i + 1..];
    }
  }

  /** Every job the loop adds to the store is the stored form of a pending
      job from `i` on. */
  lemma {:induction false} FlushStores(store: map<JobId, Job>, pending: seq<Pending>, now: Instant, i: nat)
    requires i <= |pending|
    ensures var r := Flush(store, pending, now, i);
      forall j :: j in r.store && j !in store ==>
        exists k :: i <= k < |pending| && pending[k].id == j && r.store[j] == Stored(pending[k], now)
    decreases |pending| - i
  {
    if i < |pending| && pending[i].id !in store {
      var pending' := pending[i := Timed(pending[i], now)];
      var store' := store[pending[i].id := Stored(pending[i], now)];
      FlushStores(store', pending', now, i + 1);
      var r := Flush(store, pending, now, i);
      forall j | j in r.store && j !in store
        ensures exists k :: i <= k < |pending| && pending[k].id == j && r.store[j] == Stored(pending[k], now)
      {
        if j == pending[i].id {
          assert r.store[j] == Stored(pending[i], now);
        } else {
          var k :| i + 1 <= k < |pending'| && pending'[k].id == j && r.store[j] == Stored(pending'[k], now);
          assert pending'[k] == pending[k];
        }
      }
    }
  }

  datatype StartError = AlreadyRunning | ConflictingJobId

  /** What `start` leaves behind, and what it raised, if anything. */
  datatype Outcome = Outcome(service: Service, raised: Option<StartError>)

  /** `start`: hands both jobs to the library, then starts the scheduler.
      A running scheduler stores each job at once and raises on an id it
      already holds; otherwise `scheduler.start()` raises because it runs.
      A stopped scheduler queues both jobs behind any pending ones; starting
      it runs the start-up loop, and a conflicting id (as after `stop`, whose
      jobs stay in the store) raises out of it, leaving the scheduler stopped
      and the queued jobs pending. */
  function Start(s: Service, now: Instant): (r: Outcome)
    ensures r.service.stats == s.stats && r.service.prices == s.prices
    ensures forall j :: j in s.jobs ==> j in r.service.jobs && r.service.jobs[j] == s.jobs[j]
    ensures s.running ==> r.raised.Some? && r.service.running && r.service.pending == s.pending
    ensures s.running && PriceJob in s.jobs ==> r == Outcome(s, Some(ConflictingJobId))
    ensures s.running && PriceJob !in s.jobs && NewsJob in s.jobs ==>
      r.raised == Some(ConflictingJobId)
      && r.service.jobs == s.jobs[PriceJob := Job(30, 1, 0, now + 30 * Second)]
    ensures s.running && PriceJob !in s.jobs && NewsJob !in s.jobs ==>
      r.raised == Some(AlreadyRunning)
      && r.service.jobs == s.jobs[PriceJob := Job(30, 1, 0, now + 30 * Second)][NewsJob := Job(3600, 1, 0, now + 3600 * Second)]
    ensures !s.running ==> (r.raised.None? <==> Clear(s.jobs, s.pending + Requested, 0))
    ensures !s.running && r.raised.None? ==>
      r.service.running && r.service.pending == [] && {PriceJob, NewsJob} <= r.service.jobs.Keys
    ensures !s.running && r.raised.Some? ==>
      r.raised == Some(ConflictingJobId) && !r.service.running && |r.service.pending| == |s.pending| + 2
  {
    if s.running then
      var price := Stored(Requested[0], now);
      var news := Stored(Requested[1], now);
      if PriceJob in s.jobs then Outcome(s, Some(ConflictingJobId))
      else if NewsJob in s.jobs then Outcome(s.(jobs := s.jobs[PriceJob := price]), Some(ConflictingJobId))
      else Outcome(s.(jobs := s.jobs[PriceJob := price][NewsJob := news]), Some(AlreadyRunning))
    else
      var queued := s.pending + Requested;
      FlushConflict(s.jobs, queued, now, 0);
      FlushKeys(s.jobs, queued, now, 0);
      assert queued[0..] == queued;
      var f := Flush(s.jobs, queued, now, 0);
      if f.conflict then Outcome(s.(jobs := f.store, pending := f.pending), Some(ConflictingJobId))
      else
        assert {PriceJob, NewsJob} <= f.store.Keys by {
          assert queued[|s.pending|].id == PriceJob;
          assert queued[|s.pending| + 1].id == NewsJob;
        }
        Outcome(s.(running := true, jobs := f.store, pending := []), None)
  }

  /** The first `start` registers both jobs with intervals 30 and 3600 s,
      the instance limit 1, no running instance and their first run one
      interval away, and the scheduler runs. */
  lemma StartFresh(s: Service, now: Instant)
    requires !s.running && s.jobs == map[] && s.pending == []
    ensures var r := Start(s, now);
      && r.raised.None? && r.service.running && r.service.pending == []
      && r.service.jobs == map[PriceJob := Job(30, 1, 0, now + 30 * Second), NewsJob := Job(3600, 1, 0, now + 3600 * Second)]
  {
    var queued := s.pending + Requested;
    assert queued == Requested;
    var price := Stored(Requested[0], now);
    var timed := Requested[0 := Timed(Requested[0], now)];
    assert Flush(s.jobs, queued, now, 0) == Flush(map[PriceJob := price], timed, now, 1);
    var both := map[PriceJob := price][NewsJob := Stored(timed[1], now)];
    assert Flush(map[PriceJob := price], timed, now, 1)
      == Flush(both, timed[1 := Timed(timed[1], now)], now, 2);
    assert both == map[PriceJob := Job(30, 1, 0, now + 30 * Second), NewsJob := Job(3600, 1, 0, now + 3600 * Second)];
  }

  /** `start` on a stopped scheduler whose store already holds the price
      job raises at once: the store is unchanged, the price job has been
      given its run time and the news job has not. */
  lemma StartConflicting(s: Service, now: Instant)
    requires !s.running && s.pending == [] && PriceJob in s.jobs
    ensures var r := Start(s, now);
      && r.raised == Some(ConflictingJobId) && !r.service.running && r.service.jobs == s.jobs
      && r.service.pending == [Pending(PriceJob, 30, 1, Some(now + 30 * Second)), Pending(NewsJob, 3600, 1, None)]
  {
  }

  /** `start` stores only jobs with the instance limit its pending jobs
      have, each with no running instance. */
  lemma StartKeepsLimits(s: Service, now: Instant)
    requires forall k :: 0 <= k < |s.pending| ==> s.pending[k].maxInstances == 1
    ensures var r := Start(s, now).service;
      && (forall j :: j in r.jobs && j !in s.jobs ==> r.jobs[j].maxInstances == 1 && r.jobs[j].active == 0)
      && (forall k :: 0 <= k < |r.pending| ==> r.pending[k].maxInstances == 1)
  {
    if !s.running {
      var queued := s.pending + Requested;
      assert forall k :: 0 <= k < |queued| ==> queued[k].maxInstances == 1;
      FlushStores(s.jobs, queued, now, 0);
    }
  }

  /** The trigger of `job` fires at `now`: a new instance starts unless the
      instance limit is reached, in which case this run is skipped. The next
      run is one interval later either way. */
  function Fire(s: Service, job: JobId, now: Instant): (r: Service)
    ensures !s.running || job !in s.jobs ==> r == s
    ensures s.running && job in s.jobs ==>
      r.jobs.Keys == s.jobs.Keys && r.stats == s.stats && r.running && r.pending == s.pending
      && r.jobs[job] == s.jobs[job].(
           active := if s.jobs[job].active < s.jobs[job].maxInstances then s.jobs[job].active + 1 else s.jobs[job].active,
           nextRun := now + s.jobs[job].interval * Second)
      && (forall other :: other in s.jobs && other != job ==> r.jobs[other] == s.jobs[other])
  {
    if !s.running || job !in s.jobs then s
    else
      var j := s.jobs[job];
      var started := if j.active < j.maxInstances then j.active + 1 else j.active;
      s.(jobs := s.jobs[job := j.(active := started, nextRun := now + j.interval * Second)])
  }

  /** `update_prices`: the service's `get_all_prices` (which catches every
      exception itself, so it always returns) followed by the bookkeeping. */
  function UpdatePrices(s: Service, now: Instant, resp: PriceService.Responses, parse: Parser, stamp: string): (r: Service)
    ensures r.stats.priceUpdates == s.stats.priceUpdates + 1 && r.stats.lastPriceUpdate == Some(now)
    ensures r.stats.newsUpdates == s.stats.newsUpdates && r.stats.lastNewsUpdate == s.stats.lastNewsUpdate
    ensures r.running == s.running && r.jobs == s.jobs && r.pending == s.pending
  {
    var served := PriceService.GetAllPrices(s.prices, now, resp, parse, stamp);
    s.(prices := served.cache, stats := Record(s.stats, PriceJob, false, now))
  }

  /** `update_news`: `get_latest_news(limit=5)` (which also always returns)
      followed by the bookkeeping; the news itself is discarded. */
  function UpdateNews(s: Service, now: Instant, fetch: string -> Fetch<NewsService.RawFeed>): (r: Service)
    ensures r.stats.newsUpdates == s.stats.newsUpdates + 1 && r.stats.lastNewsUpdate == Some(now)
    ensures r.stats.priceUpdates == s.stats.priceUpdates && r.stats.lastPriceUpdate == s.stats.lastPriceUpdate
    ensures r.running == s.running && r.jobs == s.jobs && r.pending == s.pending && r.prices == s.prices
  {
    var news := NewsService.LatestNews(fetch, now, NewsLimit);
    s.(stats := Record(s.stats, NewsJob, false, now))
  }

  /** A running instance of `job` ends: its update is applied and its
      instance released. With no running instance there is nothing to end. */
  function Finish(s: Service, job: JobId, now: Instant, resp: PriceService.Responses, parse: Parser,
                  stamp: string, fetch: string -> Fetch<NewsService.RawFeed>): (r: Service)
    ensures job !in s.jobs || s.jobs[job].active == 0 ==> r == s
    ensures job in s.jobs && s.jobs[job].active > 0 ==>
      r.jobs == s.jobs[job := s.jobs[job].(active := s.jobs[job].active - 1)] && r.running == s.running
      && r.pending == s.pending
  {
    if job !in s.jobs || s.jobs[job].active == 0 then s
    else
      var done := if job == PriceJob then UpdatePrices(s, now, resp, parse, stamp) else UpdateNews(s, now, fetch);
      done.(jobs := s.jobs[job := s.jobs[job].(active := s.jobs[job].active - 1)])
  }

  /** `stop`: shuts the scheduler down only when it runs. The shutdown
      cancels the instances still running, so their updates never happen;
      the jobs stay in the store. */
  function Stop(s: Service): (r: Service)
    ensures !r.running
    ensures !s.running ==> r == s
    ensures r.jobs.Keys == s.jobs.Keys && r.pending == s.pending && r.stats == s.stats && r.prices == s.prices
    ensures s.running ==> forall j :: j in s.jobs ==> r.jobs[j] == s.jobs[j].(active := 0)
  {
    if s.running then s.(running := false, jobs := map j | j in s.jobs :: s.jobs[j].(active := 0)) else s
  }

  /** Stopping twice is stopping once. */
  lemma StopIdempotent(s: Service)
    ensures Stop(Stop(s)) == Stop(s)
  {
  }

  /** What `get_job(id)` finds and `get_stats` reads: a job with its next
      run time, no job, or a pending job that has none yet (reading its
      `next_run_time` raises `AttributeError`). */
  datatype Found = Absent | Due(at: Instant) | Unscheduled

  /** The index of the first pending job with id `id` from index `i` on,
      or the length of the list when there is none. */
  function FirstIndex(pending: seq<Pending>, id: JobId, i: nat): (k: nat)
    requires i <= |pending|
    ensures i <= k <= |pending|
    ensures forall m :: i <= m < k ==> pending[m].id != id
    ensures k < |pending| ==> pending[k].id == id
    decreases |pending| - i
  {
    if i == |pending| || pending[i].id == id then i else FirstIndex(pending, id, i + 1)
  }

  /** `get_job(id)`: while the scheduler runs the library looks in its job
      store; while it is stopped it looks only at the pending list. */
  function FindJob(s: Service, id: JobId): (r: Found)
    ensures s.running ==> (r.Absent? <==> id !in s.jobs) && (id in s.jobs ==> r == Due(s.jobs[id].nextRun))
    ensures !s.running ==> (r.Absent? <==> forall k :: 0 <= k < |s.pending| ==> s.pending[k].id != id)
    ensures !s.running && !r.Absent? ==>
      var k := FirstIndex(s.pending, id, 0);
      k < |s.pending| && r == (if s.pending[k].nextRun.Some? then Due(s.pending[k].nextRun.value) else Unscheduled)
    ensures !s.running && s.pending == [] ==> r == Absent
  {
    if s.running then (if id in s.jobs then Due(s.jobs[id].nextRun) else Absent)
    else
      var k := FirstIndex(s.pending, id, 0);
      if k == |s.pending| then Absent
      else if s.pending[k].nextRun.Some? then Due(s.pending[k].nextRun.value)
      else Unscheduled
  }

  /** The dictionary `get_stats` returns. */
  datatype StatsView = StatsView(
    priceUpdates: nat, newsUpdates: nat,
    lastPriceUpdate: Option<Instant>, lastNewsUpdate: Option<Instant>,
    running: bool, jobs: nat,
    nextPriceUpdate: Option<Instant>, nextNewsUpdate: Option<Instant>)

  datatype StatsError = NoNextRunTime

  /** `get_stats`: the statistics, whether the scheduler runs, how many jobs
      `get_jobs` lists (the store's while it runs, the pending ones while it
      is stopped), and each job's next run time, `None` when `get_job` finds
      no job. A pending job without a run time makes it raise. */
  function GetStats(s: Service): (r: Result<StatsView, StatsError>)
    ensures r.Failure? <==> FindJob(s, PriceJob).Unscheduled? || FindJob(s, NewsJob).Unscheduled?
    ensures r.Success? ==>
      && r.value.priceUpdates == s.stats.priceUpdates && r.value.newsUpdates == s.stats.newsUpdates
      && r.value.lastPriceUpdate == s.stats.lastPriceUpdate && r.value.lastNewsUpdate == s.stats.lastNewsUpdate
      && r.value.running == s.running
      && r.value.jobs == (if s.running then |s.jobs| else |s.pending|)
    ensures r.Success? && s.running ==>
      && (r.value.nextPriceUpdate.None? <==> PriceJob !in s.jobs)
      && (r.value.nextNewsUpdate.None? <==> NewsJob !in s.jobs)
      && (PriceJob in s.jobs ==> r.value.nextPriceUpdate == Some(s.jobs[PriceJob].nextRun))
      && (NewsJob in s.jobs ==> r.value.nextNewsUpdate == Some(s.jobs[NewsJob].nextRun))
    ensures !s.running && s.pending == [] ==>
      r == Success(StatsView(s.stats.priceUpdates, s.stats.newsUpdates, s.stats.lastPriceUpdate,
                             s.stats.lastNewsUpdate, false, 0, None, None))
  {
    var price := FindJob(s, PriceJob);
    var news := FindJob(s, NewsJob);
    if price.Unscheduled? || news.Unscheduled? then Failure(NoNextRunTime)
    else Success(StatsView(
      s.stats.priceUpdates, s.stats.newsUpdates, s.stats.lastPriceUpdate, s.stats.lastNewsUpdate,
      s.running, if s.running then |s.jobs| else |s.pending|,
      if price.Due? then Some(price.at) else None,
      if news.Due? then Some(news.at) else None))
  }

  /** Right after a successful first `start`, `get_stats` reports a running
      scheduler with its two jobs, due one interval from now, and the
      counters as they were. */
  lemma StatsAfterStart(s: Service, now: Instant)
    requires !s.running && s.jobs == map[] && s.pending == []
    ensures Start(s, now).raised.None?
    ensures GetStats(Start(s, now).service) == Success(StatsView(
      s.stats.priceUpdates, s.stats.newsUpdates, s.stats.lastPriceUpdate, s.stats.lastNewsUpdate,
      true, 2, Some(now + 30 * Second), Some(now + 3600 * Second)))
  {
    StartFresh(s, now);
    var t := Start(s, now).service;
    assert t.jobs.Keys == {PriceJob, NewsJob};
    assert |t.jobs| == |t.jobs.Keys|;
    assert |{PriceJob, NewsJob}| == 2;
  }

  /** The pending list is empty while the scheduler runs, so after `stop`
      the library finds no job at all: `get_stats` reports a stopped
      scheduler, 0 jobs and no next updates, and the counters as they were.
      A scheduler that did not run is left as it was. */
  lemma StatsAfterStop(s: Service)
    requires Registered(s)
    ensures s.running ==> GetStats(Stop(s)) == Success(StatsView(
      s.stats.priceUpdates, s.stats.newsUpdates, s.stats.lastPriceUpdate, s.stats.lastNewsUpdate,
      false, 0, None, None))
    ensures !s.running ==> GetStats(Stop(s)) == GetStats(s)
  {
  }

  /** `start` after `stop` fails: both jobs are still in the store, so the
      start-up loop raises on the first one. The scheduler stays stopped,
      both new jobs stay pending, and `get_stats` then raises on the news
      job, which the loop never reached. */
  lemma RestartAfterStop(s: Service, now: Instant)
    requires Registered(s) && s.running
    ensures var t := Start(Stop(s), now);
      && t.raised == Some(ConflictingJobId)
      && !t.service.running
      && t.service.jobs.Keys == s.jobs.Keys
      && GetStats(t.service).Failure?
  {
    var t := Start(Stop(s), now).service;
    assert t.pending[1] == Pending(NewsJob, 3600, 1, None);
    assert FindJob(t, NewsJob) == Unscheduled;
  }

  // ---------------------------------------------------------------------
  // Runs of the service

  /** What can happen to the service. A failed `start` raises to its caller
      and leaves the service as `Start` describes. */
  datatype Event =
    | Started(now: Instant)
    | Fired(job: JobId, now: Instant)
    | Finished(job: JobId, now: Instant, resp: PriceService.Responses, parse: Parser, stamp: string,
               fetch: string -> Fetch<NewsService.RawFeed>)
    | Stopped

  function Step(s: Service, e: Event): Service
  {
    match e
    case Started(now) => Start(s, now).service
    case Fired(job, now) => Fire(s, job, now)
    case Finished(job, now, resp, parse, stamp, fetch) => Finish(s, job, now, resp, parse, stamp, fetch)
    case Stopped => Stop(s)
  }

  function Run(s: Service, events: seq<Event>): Service
    decreases |events|
  {
    if |events| == 0 then s else Run(Step(s, events[0]), events[1..])
  }

  /** No job ever has more than one instance running: every job, stored or
      pending, has the instance limit 1. */
  ghost predicate NoOverlap(s: Service)
  {
    && (forall j :: j in s.jobs ==> s.jobs[j].maxInstances == 1 && s.jobs[j].active <= 1)
    && (forall k :: 0 <= k < |s.pending| ==> s.pending[k].maxInstances == 1)
  }

  lemma StepNoOverlap(s: Service, e: Event)
    requires NoOverlap(s)
    ensures NoOverlap(Step(s, e))
    ensures Step(s, e).stats.priceUpdates >= s.stats.priceUpdates
    ensures Step(s, e).stats.newsUpdates >= s.stats.newsUpdates
  {
    if e.Started? {
      StartKeepsLimits(s, e.now);
    }
  }

  /** From the initial service, whatever happens, no job runs twice at once
      and the counters never go down. */
  lemma {:induction false} RunNoOverlap(s: Service, events: seq<Event>)
    requires NoOverlap(s)
    ensures NoOverlap(Run(s, events))
    ensures Run(s, events).stats.priceUpdates >= s.stats.priceUpdates
    ensures Run(s, events).stats.newsUpdates >= s.stats.newsUpdates
    decreases |events|
  {
    if |events| > 0 {
      StepNoOverlap(s, events[0]);
      RunNoOverlap(Step(s, events[0]), events[1..]);
    }
  }

  /** A running scheduler holds exactly the two jobs in its store and has
      nothing pending. */
  ghost predicate Registered(s: Service)
  {
    s.running ==> s.jobs.Keys == {PriceJob, NewsJob} && s.pending == []
  }

  lemma StepRegistered(s: Service, e: Event)
    requires Registered(s)
    ensures Registered(Step(s, e))
  {
    if e.Started? {
      var r := Start(s, e.now).service;
      if r.running {
        forall j | j in r.jobs ensures j in {PriceJob, NewsJob} {
          if j != PriceJob { assert j == NewsJob; }
        }
      }
    }
  }

  /** From a service that is stopped or holds both jobs, whatever happens, a
      running scheduler holds exactly the two jobs: `start` never meets a
      running scheduler without meeting its jobs first. */
  lemma {:induction false} RunRegistered(s: Service, events: seq<Event>)
    requires Registered(s)
    ensures Registered(Run(s, events))
    decreases |events|
  {
    if |events| > 0 {
      StepRegistered(s, events[0]);
      RunRegistered(Step(s, events[0]), events[1..]);
    }
  }

  /** A job fired while its previous run is still going does not start. */
  lemma NoSecondInstance(s: Service, job: JobId, now: Instant)
    requires NoOverlap(s) && job in s.jobs && s.jobs[job].active == 1
    ensures job in Fire(s, job, now).jobs && Fire(s, job, now).jobs[job].active == 1
  {
  }
}
