/** The usage job end to end, and why admission's 208 requests per batch are a true bound (internal/app/cdn.go, internal/config/config.go). */
module UsageJob {
  import opened Core
  import opened Clock
  import opened UsagePoints
  import opened Usage
  import opened UsageTable
  import opened Isolation
  import opened Metering
  import opened MonitoringRound
  import opened UsageSnapshot
  import opened UsageLaws
  import MonthCache

  /** The three upstream queries a round makes: monitoring, daily traffic, five-minute bandwidth. */
  datatype Upstreams = Upstreams(monitoring: MonitoringRound.Upstream, traffic: MonthCache.Upstream, bandwidth: MonthCache.Upstream)

  function PriorFetch(up: Upstreams, today: int): Fetch<Response> {
    MonthCache.FetchWith(up.traffic, DayNumber(MonthStart(today)), DayNumber(today - DAY), Day)
  }

  /** Completed days of the month, for the domains that answered; nothing on the first of the month. */
  function PriorTraffic(up: Upstreams, domains: seq<string>, today: int, calls: nat): Outcome<Response> {
    if MonthStart(today) < today then IsolateAll(PriorFetch(up, today), Chunks(domains, BATCH_SIZE), calls)
    else Outcome([], [], [], 0, calls)
  }

  /** What the job knows after a whole round of requests. */
  datatype Collected = Collected(round: Outcome<Monitored>, prior: Outcome<Response>, cache: MonthCache.MonthBandwidth,
                                 bandwidth: Option<BandwidthAggregate>, calls: nat)

  ghost function Collect(up: Upstreams, cache: MonthCache.MonthBandwidth, bad: map<string, Error>, scope: seq<string>, w: Window): Collected {
    var round := RoundOutcome(FetchMonitoring(up.monitoring, w), bad, Chunks(scope, BATCH_SIZE), 0);
    if |round.succeeded| == 0 then Collected(round, Outcome([], [], [], 0, round.calls), cache, None, round.calls)
    else
      var prior := PriorTraffic(up, Succeeded(round), w.todayStart, round.calls);
      if round.failed == [] && Succeeded(round) == scope then
        var l := MonthCache.Load(up.bandwidth, cache, scope, w.todayStart, prior.calls);
        Collected(round, prior, l.cache, l.result, l.calls)
      else Collected(round, prior, cache, None, prior.calls)
  }

  /** The month part of the snapshot that follows from it. */
  function MonthPart(c: Collected, scope: seq<string>): UsageSnapshot.Month {
    UsageSnapshot.Month(
      UsageBatches(c.prior.succeeded), if c.bandwidth.Some? then c.bandwidth.value else NO_BANDWIDTH,
      c.round.failed == [] && Succeeded(c.round) == scope, c.prior.failed == [], c.bandwidth.Some?)
  }

  method FetchCdnPriorMonthTraffic(up: Upstreams, domains: seq<string>, today: int, calls: nat)
    returns (prior: seq<Batch>, failed: map<string, Error>, after: nat)
    ensures var o := PriorTraffic(up, domains, today, calls);
      prior == UsageBatches(o.succeeded) && (failed == map[] <==> o.failed == []) && after == o.calls
  {
    hide IsolateAll, Record, MonthStart;
    if MonthStart(today) >= today {
      return [], map[], calls;
    }
    ghost var o := IsolateAll(PriorFetch(up, today), Chunks(domains, BATCH_SIZE), calls);
    var succeeded, failures, now := FetchMeteringBatches(PriorFetch(up, today), domains, calls);
    RecordEmpty(o.failed);
    return UsageBatches(succeeded), failures, now;
  }

  /** One job run up to the snapshot it would publish; the search holds the negative cache shared between runs. */
  method CollectCdnUsage(up: Upstreams, search: Search<Monitored>, cache: MonthCache.BandwidthCache, scope: seq<string>, now: int, sourceLag: int)
    returns (r: Result<Snapshot, Error>, calls: nat)
    requires search.succeeded == [] && search.failed == map[] && search.calls == 0
    modifies search, cache
    ensures var w := NewWindow(now, sourceLag);
      var c := Collect(up, old(cache.value), old(search.bad), scope, w);
      && cache.value == c.cache && calls == c.calls
      && search.bad == Marked(old(search.bad), c.round)
      && (|c.round.succeeded| == 0 ==> r == Failure(NoSafePoint))
      && (|c.round.succeeded| > 0 ==>
            && CommonEnd(c.round.succeeded).Some?
            && var round, dataEnd := RoundOf(c.round.succeeded), CommonEnd(c.round.succeeded).value;
              && (r.Success? <==>
                    && dataEnd <= w.safeBefore && Covered(round, MonthPart(c, scope), w.todayStart, dataEnd)
                    && AllFinite(round, MonthPart(c, scope), w.todayStart, dataEnd))
              && (r.Success? ==> IsSnapshot(r.value, round, MonthPart(c, scope), w.todayStart, dataEnd))
              && (r.Success? ==> SnapshotReports(r.value, round, MonthPart(c, scope), w.todayStart, dataEnd))
              && (r.Failure? && dataEnd <= w.safeBefore && Covered(round, MonthPart(c, scope), w.todayStart, dataEnd) ==>
                    r.error == Overflow))
  {
    hide RoundOutcome, Marked, PriorTraffic, MonthCache.Load, IsSnapshot, SnapshotReports, Covered, AllFinite, Chunks, Record, CommonEnd, Succeeded, NewWindow;
    var w := NewWindow(now, sourceLag);
    WindowDay(now, sourceLag);
    ghost var bad0, cache0 := search.bad, cache.value;
    ghost var o := RoundOutcome(FetchMonitoring(up.monitoring, w), bad0, Chunks(scope, BATCH_SIZE), 0);
    CollectRound(search, FetchMonitoring(up.monitoring, w), scope);
    var round := RoundOf(search.succeeded);
    CommonEndIsLeast(search.succeeded);
    RecordEmpty(o.failed);
    RoundDomains(search.succeeded);
    DomainsAreSucceeded(o);
    if round.dataEnd.None? {
      return Failure(NoSafePoint), search.calls;
    }
    var domains := Domains(round.traffic);
    var prior, monthFailed, after := FetchCdnPriorMonthTraffic(up, domains, w.todayStart, search.calls);
    var complete := search.failed == map[] && domains == scope;
    var bandwidth: Option<BandwidthAggregate> := None;
    calls := after;
    if complete {
      var loaded;
      loaded, calls := MonthCache.LoadCompletedMonthBandwidth(cache, up.bandwidth, scope, w.todayStart, after);
      bandwidth := MonthCache.Completed(loaded);
    }
    var month := UsageSnapshot.Month(prior, if bandwidth.Some? then bandwidth.value else NO_BANDWIDTH, complete,
                                     monthFailed == map[], bandwidth.Some?);
    ghost var c := Collect(up, cache0, bad0, scope, w);
    assert month == MonthPart(c, scope);
    r := BuildCdnUsageSnapshot(round, month, w);
  }

  lemma WindowDay(now: int, sourceLag: int)
    ensures IsMidnight(NewWindow(now, sourceLag).todayStart)
  {
    hide Truncate, DayNumber;
    DayFloor(now);
  }

  lemma DomainsAreSucceeded(o: Outcome<Monitored>)
    ensures Flatten(Firsts(o.succeeded)) == Succeeded(o)
  {
  }

  // ---- What the job supplies to the snapshot ----

  /** When no day series failed, they belong to exactly the domains that answered. */
  lemma PriorDomains(up: Upstreams, domains: seq<string>, today: int, calls: nat)
    requires MonthStart(today) < today && PriorTraffic(up, domains, today, calls).failed == []
    ensures Domains(UsageBatches(PriorTraffic(up, domains, today, calls).succeeded)) == domains
  {
    hide IsolateAll, MonthStart, Chunks;
    CompleteIsInput(PriorFetch(up, today), domains, calls);
    UsageBatchDomains(PriorTraffic(up, domains, today, calls).succeeded);
  }

  /** The completed days' series cover the month so far. */
  ghost predicate DaysAnswered(c: Collected, today: int) {
    c.prior.failed == [] && MonthStart(today) < today ==>
      ValidBatches(UsageBatches(c.prior.succeeded), Day, MonthStart(today), today)
  }

  lemma JobSuppliesMonth(up: Upstreams, cache: MonthCache.MonthBandwidth, bad: map<string, Error>, scope: seq<string>, w: Window, truth: Truth)
    requires MonthCache.HonestUpstream(up.bandwidth, truth) && MonthCache.Agrees(cache, truth) && IsMidnight(w.todayStart)
    requires |Collect(up, cache, bad, scope, w).round.succeeded| > 0 && DaysAnswered(Collect(up, cache, bad, scope, w), w.todayStart)
    ensures var c := Collect(up, cache, bad, scope, w);
      && MonthCache.Agrees(c.cache, truth)
      && MonthSupplied(MonthPart(c, scope), Succeeded(c.round), w.todayStart, truth)
  {
    hide RoundOutcome, MonthCache.Load, MonthCache.Agrees, Succeeded, IsMidnight, MonthStart, ValidBatches, MonthCache.HonestUpstream, PriorTraffic;
    var c := Collect(up, cache, bad, scope, w);
    if c.prior.failed == [] && MonthStart(w.todayStart) < w.todayStart {
      PriorDomains(up, Succeeded(c.round), w.todayStart, c.round.calls);
    }
    if c.round.failed == [] && Succeeded(c.round) == scope {
      MonthCache.LoadKeepsTruth(up.bandwidth, cache, scope, w.todayStart, c.prior.calls, truth);
      assert c.bandwidth.Some? ==> CacheOf(c.cache, MonthPart(c, scope), scope, w.todayStart);
    }
  }

  /**
   * What the parts of a job mean: a month is complete exactly when every domain of the scope answered, its traffic is wanted
   * exactly when every day series arrived, and its bandwidth exactly when the cache of a complete round has reached today.
   */
  lemma MonthPartMeans(up: Upstreams, cache: MonthCache.MonthBandwidth, bad: map<string, Error>, scope: seq<string>, w: Window, truth: Truth)
    requires NoDuplicates(scope) && IsMidnight(w.todayStart) && MonthCache.HonestUpstream(up.bandwidth, truth) && MonthCache.Agrees(cache, truth)
    requires |Collect(up, cache, bad, scope, w).round.succeeded| > 0
    ensures var c := Collect(up, cache, bad, scope, w);
      var month := MonthPart(c, scope);
      && (month.complete <==> forall d :: d in scope ==> d in Succeeded(c.round))
      && (month.includeTraffic <==> MonthStart(w.todayStart) == w.todayStart || Succeeded(c.prior) == Succeeded(c.round))
      && (month.includeBandwidth <==> month.complete && c.cache.periodEnd == w.todayStart)
      && (month.includeBandwidth ==> month.priorBandwidth == c.cache.aggregate)
  {
    hide RoundOutcome, MonthCache.Load, MonthCache.Agrees, Succeeded, IsMidnight, MonthStart, MonthCache.HonestUpstream, PriorTraffic,
         NoDuplicates, Chunks;
    var c := Collect(up, cache, bad, scope, w);
    CompleteMeans(up, w, bad, scope);
    PriorMeans(up, Succeeded(c.round), w.todayStart, c.round.calls);
    MonthCache.LoadKeepsTruth(up.bandwidth, cache, scope, w.todayStart, c.prior.calls, truth);
  }

  lemma CompleteMeans(up: Upstreams, w: Window, bad: map<string, Error>, scope: seq<string>)
    requires NoDuplicates(scope)
    ensures var o := RoundOutcome(FetchMonitoring(up.monitoring, w), bad, Chunks(scope, BATCH_SIZE), 0);
      o.failed == [] && Succeeded(o) == scope <==> forall d :: d in scope ==> d in Succeeded(o)
  {
    hide RoundOutcome, NoDuplicates, Chunks, Succeeded;
    var o := RoundOutcome(FetchMonitoring(up.monitoring, w), bad, Chunks(scope, BATCH_SIZE), 0);
    ChunksProperties(scope, BATCH_SIZE);
    RoundFates(FetchMonitoring(up.monitoring, w), bad, Chunks(scope, BATCH_SIZE), 0);
    if o.failed != [] {
      var d := Failed(o)[0];
      assert d in Failed(o) && d in multiset(Failed(o)) && d in multiset(scope);
      OccursOnce(scope, d);
      assert multiset(Succeeded(o))[d] + multiset(Failed(o))[d] == multiset(scope)[d];
      assert d in scope && d !in multiset(Succeeded(o));
      assert d !in Succeeded(o);
    }
  }

  lemma PriorMeans(up: Upstreams, domains: seq<string>, today: int, calls: nat)
    requires IsMidnight(today)
    ensures var o := PriorTraffic(up, domains, today, calls);
      o.failed == [] <==> MonthStart(today) == today || Succeeded(o) == domains
  {
    MonthStartProperties(today);
    hide IsolateAll, MonthStart, Chunks, Succeeded, Failed, Interleaves;
    if MonthStart(today) < today {
      var o := PriorTraffic(up, domains, today, calls);
      AllPartitioned(PriorFetch(up, today), Chunks(domains, BATCH_SIZE), calls);
      ChunksProperties(domains, BATCH_SIZE);
      InterleavesProperties(Succeeded(o), Failed(o), domains);
      assert |Failed(o)| == |o.failed| by { FailedLength(o); }
    }
  }

  lemma FailedLength(o: Outcome<Response>)
    ensures |Failed(o)| == |o.failed|
  {
  }

  /** Alike for the day series of the completed days of the month. */
  ghost predicate SameForMonth(a: MonthCache.Upstream, b: MonthCache.Upstream, today: int) {
    forall q: MonthCache.MeteringQuery, n :: IsMonthQuery(q, today) ==> a(q, n) == b(q, n)
  }

  predicate IsMonthQuery(q: MonthCache.MeteringQuery, today: int) {
    q.granularity == Day && q.startDay == MonthStartDay(MonthOf(DayNumber(today))) && q.endDay == DayNumber(today) - 1
  }

  /**
   * Main law: a job asks for nothing but monitoring data of its window, day series from the first of the month to yesterday,
   * and five-minute data of at most three days at a time from the cached boundary to today.
   */
  lemma JobAsks(a: Upstreams, b: Upstreams, cache: MonthCache.MonthBandwidth, bad: map<string, Error>, scope: seq<string>, w: Window, truth: Truth)
    requires IsMidnight(w.todayStart) && MonthCache.Agrees(cache, truth)
    requires SameForWindow(a.monitoring, b.monitoring, w) && SameForMonth(a.traffic, b.traffic, w.todayStart)
    requires MonthCache.SameForWindows(a.bandwidth, b.bandwidth, MonthCache.Reset(cache, scope, w.todayStart).periodEnd, w.todayStart)
    ensures Collect(a, cache, bad, scope, w) == Collect(b, cache, bad, scope, w)
  {
    hide RoundOutcome, MonthCache.Load, MonthCache.Agrees, Succeeded, IsMidnight, PriorTraffic, Chunks, SameForWindow, SameForMonth,
         MonthCache.SameForWindows, MonthCache.Reset;
    RoundAsks(a.monitoring, b.monitoring, w, bad, Chunks(scope, BATCH_SIZE), 0);
    var round := RoundOutcome(FetchMonitoring(a.monitoring, w), bad, Chunks(scope, BATCH_SIZE), 0);
    PriorAsks(a, b, Succeeded(round), w.todayStart, round.calls);
    var prior := PriorTraffic(a, Succeeded(round), w.todayStart, round.calls);
    MonthCache.LoadAsks(a.bandwidth, b.bandwidth, cache, scope, w.todayStart, prior.calls, truth);
  }

  lemma PriorAsks(a: Upstreams, b: Upstreams, domains: seq<string>, today: int, calls: nat)
    requires SameForMonth(a.traffic, b.traffic, today) && IsMidnight(today)
    ensures PriorTraffic(a, domains, today, calls) == PriorTraffic(b, domains, today, calls)
  {
    hide IsolateAll, Chunks, MonthOf;
    if MonthStart(today) < today {
      assert DayNumber(MonthStart(today)) == MonthStartDay(MonthOf(DayNumber(today)));
      assert DayNumber(today - DAY) == DayNumber(today) - 1;
      SameSearches(PriorFetch(a, today), PriorFetch(b, today), Chunks(domains, BATCH_SIZE), calls);
    }
  }

  /** A round that is not complete leaves the cache as it was, and a complete one never moves its boundary back. */
  lemma JobKeepsCache(up: Upstreams, cache: MonthCache.MonthBandwidth, bad: map<string, Error>, scope: seq<string>, w: Window, truth: Truth)
    requires IsMidnight(w.todayStart) && MonthCache.HonestUpstream(up.bandwidth, truth) && MonthCache.Agrees(cache, truth)
    ensures var c := Collect(up, cache, bad, scope, w);
      && (|c.round.succeeded| == 0 || c.round.failed != [] || Succeeded(c.round) != scope ==> c.cache == cache && c.bandwidth.None?)
      && (MonthCache.Resumes(cache, scope, w.todayStart) ==> c.cache.monthStart == cache.monthStart && cache.periodEnd <= c.cache.periodEnd)
  {
    hide RoundOutcome, MonthCache.Load, MonthCache.Agrees, Succeeded, IsMidnight, MonthCache.HonestUpstream, PriorTraffic, Chunks, MonthStart;
    var c := Collect(up, cache, bad, scope, w);
    MonthCache.LoadKeepsTruth(up.bandwidth, cache, scope, w.todayStart, c.prior.calls, truth);
  }

  /** Main law: the job can fail to build its snapshot only by overflow, or for want of any answer. */
  lemma JobIsCovered(up: Upstreams, cache: MonthCache.MonthBandwidth, bad: map<string, Error>, scope: seq<string>, now: int, sourceLag: int,
                     truth: Truth)
    requires NoDuplicates(scope) && MonthCache.HonestUpstream(up.bandwidth, truth) && MonthCache.Agrees(cache, truth)
    requires var w := NewWindow(now, sourceLag);
      var c := Collect(up, cache, bad, scope, w);
      && |c.round.succeeded| > 0 && StartsAtMidnight(c.round.succeeded, w) && DaysAnswered(c, w.todayStart)
      && CommonEnd(c.round.succeeded).Some? && w.safeBefore - HOUR <= CommonEnd(c.round.succeeded).value
    ensures var w := NewWindow(now, sourceLag);
      var c := Collect(up, cache, bad, scope, w);
      && CommonEnd(c.round.succeeded).value <= w.safeBefore
      && Covered(RoundOf(c.round.succeeded), MonthPart(c, scope), w.todayStart, CommonEnd(c.round.succeeded).value)
  {
    hide RoundOutcome, CommonEnd, StartsAtMidnight, NoDuplicates, NewWindow, Covered, MonthSupplied, Answered, PriorTraffic, MonthCache.Load,
         MonthCache.Agrees, MonthCache.HonestUpstream, DaysAnswered, MonthPart, IsMidnight, Succeeded, Chunks;
    var w := NewWindow(now, sourceLag);
    var c := Collect(up, cache, bad, scope, w);
    WindowDay(now, sourceLag);
    RoundIsAnswered(up.monitoring, w, bad, scope, 0);
    JobSuppliesMonth(up, cache, bad, scope, w, truth);
    DomainsAreSucceeded(c.round);
    SnapshotIsCovered(c.round.succeeded, MonthPart(c, scope), Succeeded(c.round), now, sourceLag, truth);
  }

  /** Upstreams that answer every query fully, with data that ends at one instant and never overflows. */
  ghost predicate Healthy(up: Upstreams, w: Window, end: int, scope: seq<string>, truth: Truth) {
    && Cooperates(up.monitoring, w, end, {}) && MonthCache.Serves(up.traffic, {}) && MonthCache.Serves(up.bandwidth, {})
    && MonthCache.HonestUpstream(up.bandwidth, truth) && MonthCache.FiniteTruth(scope, truth)
  }

  /** Main law: with healthy upstreams one job, from any cache, has every part of a complete and covered snapshot. */
  lemma HealthyJobCompletes(up: Upstreams, cache: MonthCache.MonthBandwidth, scope: seq<string>, now: int, sourceLag: int, end: int, truth: Truth)
    requires NoDuplicates(scope) && |scope| > 0 && MonthCache.Agrees(cache, truth)
    requires var w := NewWindow(now, sourceLag); Healthy(up, w, end, scope, truth) && w.safeBefore - HOUR <= end
    ensures var w := NewWindow(now, sourceLag);
      var c := Collect(up, cache, map[], scope, w);
      var month := MonthPart(c, scope);
      && month.complete && month.includeTraffic && month.includeBandwidth
      && CommonEnd(c.round.succeeded) == Some(end)
      && Covered(RoundOf(c.round.succeeded), month, w.todayStart, end)
  {
    hide RoundOutcome, CommonEnd, StartsAtMidnight, NoDuplicates, NewWindow, Covered, Answered, MonthCache.Load, MonthCache.Agrees,
         MonthCache.HonestUpstream, MonthCache.Serves, MonthCache.FiniteTruth, Cooperates, IsMidnight, Succeeded, Chunks,
         PriorTraffic, ValidBatches;
    var w := NewWindow(now, sourceLag);
    var c := Collect(up, cache, map[], scope, w);
    WindowDay(now, sourceLag);
    CooperativeRound(up.monitoring, w, end, scope, 0);
    DomainsAreSucceeded(c.round);
    PriorServed(up, scope, w.todayStart, c.round.calls);
    MonthCache.ServedLoad(up.bandwidth, cache, scope, w.todayStart, c.prior.calls, truth);
    JobIsCovered(up, cache, map[], scope, now, sourceLag, truth);
  }

  /** So such a job publishes, unless an account total overflows: these are the conditions under which CollectCdnUsage succeeds. */
  lemma HealthyJobPublishes(up: Upstreams, cache: MonthCache.MonthBandwidth, scope: seq<string>, now: int, sourceLag: int, end: int, truth: Truth)
    requires NoDuplicates(scope) && |scope| > 0 && MonthCache.Agrees(cache, truth)
    requires var w := NewWindow(now, sourceLag); Healthy(up, w, end, scope, truth) && w.safeBefore - HOUR <= end
    ensures var w := NewWindow(now, sourceLag);
      var c := Collect(up, cache, map[], scope, w);
      && |c.round.succeeded| > 0 && CommonEnd(c.round.succeeded) == Some(end) && end <= w.safeBefore
      && Covered(RoundOf(c.round.succeeded), MonthPart(c, scope), w.todayStart, end)
  {
    hide RoundOutcome, CommonEnd, StartsAtMidnight, NoDuplicates, NewWindow, Covered, Answered, MonthCache.Load, MonthCache.Agrees,
         MonthCache.HonestUpstream, MonthCache.Serves, MonthCache.FiniteTruth, Cooperates, Succeeded, Chunks, PriorTraffic, MonthPart;
    var w := NewWindow(now, sourceLag);
    CooperativeRound(up.monitoring, w, end, scope, 0);
    HealthyJobCompletes(up, cache, scope, now, sourceLag, end, truth);
    CommonEndBounds(Collect(up, cache, map[], scope, w).round.succeeded, w);
  }

  lemma PriorServed(up: Upstreams, domains: seq<string>, today: int, calls: nat)
    requires MonthCache.Serves(up.traffic, {}) && NoDuplicates(domains) && |domains| > 0 && IsMidnight(today)
    ensures var o := PriorTraffic(up, domains, today, calls);
      && o.failed == []
      && (MonthStart(today) < today ==> ValidBatches(UsageBatches(o.succeeded), Day, MonthStart(today), today))
  {
    MonthStartProperties(today);
    hide IsolateAll, MonthCache.Serves, NoDuplicates, ValidBatches, Chunks, MonthStart;
    if MonthStart(today) < today {
      var startDay, endDay := DayNumber(MonthStart(today)), DayNumber(today - DAY);
      assert startDay * DAY == MonthStart(today) && (endDay + 1) * DAY == today;
      MonthCache.ServedBatches(up.traffic, domains, startDay, endDay, Day, calls);
    }
  }

  // ---- The number of requests ----

  /** The number of domain batches of fifty. */
  function BatchCount(n: nat): nat { Ceil(n, BATCH_SIZE) }

  lemma PriorCalls(up: Upstreams, domains: seq<string>, today: int, calls: nat)
    ensures calls <= PriorTraffic(up, domains, today, calls).calls <= calls + 16 * BatchCount(|domains|)
  {
    hide IsolateAll, MonthStart, Ceil, Chunks;
    assert BatchCount(|domains|) == Ceil(|domains|, BATCH_SIZE);
    ChunksProperties(domains, BATCH_SIZE);
    if MonthStart(today) < today {
      AllCalls(PriorFetch(up, today), Chunks(domains, BATCH_SIZE), calls, 1);
    }
  }

  lemma FewerDomains(fetch: Fetch<Monitored>, bad: map<string, Error>, scope: seq<string>)
    ensures var o := RoundOutcome(fetch, bad, Chunks(scope, BATCH_SIZE), 0);
      BatchCount(|Succeeded(o)|) <= BatchCount(|scope|)
  {
    hide RoundOutcome, Succeeded, Failed, Chunks, Ceil;
    var o := RoundOutcome(fetch, bad, Chunks(scope, BATCH_SIZE), 0);
    ChunksProperties(scope, BATCH_SIZE);
    RoundFates(fetch, bad, Chunks(scope, BATCH_SIZE), 0);
    assert |multiset(scope)| == |multiset(Succeeded(o))| + |multiset(Failed(o))|;
    CeilMonotone(|Succeeded(o)|, |scope|, BATCH_SIZE);
  }

  /**
   * Main law: for every failure pattern, calendar day and cached boundary, a round over A domains makes at most 197
   * requests per batch of fifty; when any domain failed monitoring, at most 48.
   */
  lemma RoundRequests(up: Upstreams, cache: MonthCache.MonthBandwidth, bad: map<string, Error>, scope: seq<string>, w: Window)
    requires IsMidnight(w.todayStart)
    ensures var c := Collect(up, cache, bad, scope, w);
      && c.calls <= 197 * BatchCount(|scope|)
      && (c.round.failed != [] ==> c.calls <= 48 * BatchCount(|scope|))
  {
    hide RoundOutcome, PriorTraffic, MonthCache.Load, Chunks, Succeeded, IsMidnight, BatchCount;
    var fetch := FetchMonitoring(up.monitoring, w);
    var round := RoundOutcome(fetch, bad, Chunks(scope, BATCH_SIZE), 0);
    MonitoringRequests(up.monitoring, w, bad, scope);
    FewerDomains(fetch, bad, scope);
    PriorCalls(up, Succeeded(round), w.todayStart, round.calls);
    MonthRequests(up.bandwidth, cache, scope, w.todayStart, PriorTraffic(up, Succeeded(round), w.todayStart, round.calls).calls);
  }

  lemma MonthRequests(up: MonthCache.Upstream, cache: MonthCache.MonthBandwidth, scope: seq<string>, today: int, calls: nat)
    requires IsMidnight(today)
    ensures MonthCache.Load(up, cache, scope, today, calls).calls <= calls + 151 * BatchCount(|scope|)
  {
    hide MonthCache.Load, Ceil;
    MonthCache.LoadCalls(up, cache, scope, today, calls);
  }

  lemma MonitoringRequests(up: MonitoringRound.Upstream, w: Window, bad: map<string, Error>, scope: seq<string>)
    ensures var round := RoundOutcome(FetchMonitoring(up, w), bad, Chunks(scope, BATCH_SIZE), 0);
      && round.calls <= 32 * BatchCount(|scope|)
      && (round.failed == [] ==> round.calls <= 30 * BatchCount(|scope|))
  {
    hide RoundOutcome, Chunks, Ceil, CallsBounded;
    TwoRequestsPerAttempt(up, w);
    ChunksProperties(scope, BATCH_SIZE);
    RoundCalls(FetchMonitoring(up, w), bad, Chunks(scope, BATCH_SIZE), 0);
  }

  /**
   * With healthy upstreams the job makes exactly this many requests for each batch of fifty: two for monitoring, one for the
   * completed days unless it is the first of the month, and one for each three-day window the cache still lacks.
   */
  lemma HealthyRequests(up: Upstreams, cache: MonthCache.MonthBandwidth, scope: seq<string>, now: int, sourceLag: int, end: int, truth: Truth)
    requires NoDuplicates(scope) && |scope| > 0 && MonthCache.Agrees(cache, truth)
    requires var w := NewWindow(now, sourceLag); Healthy(up, w, end, scope, truth)
    ensures var w := NewWindow(now, sourceLag);
      var boundary := MonthCache.Reset(cache, scope, w.todayStart).periodEnd;
      && boundary <= w.todayStart
      && Collect(up, cache, map[], scope, w).calls ==
           (2 + (if DayOfMonth(DayNumber(w.todayStart)) == 1 then 0 else 1) + Ceil((w.todayStart - boundary) / DAY, 3)) * Ceil(|scope|, 50)
  {
    hide RoundOutcome, NewWindow, MonthCache.Load, MonthCache.Agrees, MonthCache.HonestUpstream, MonthCache.Serves, MonthCache.FiniteTruth,
         Cooperates, IsMidnight, Succeeded, Chunks, PriorTraffic, NoDuplicates, Answered, StartsAtMidnight, CommonEnd, Ceil, MonthCache.Reset,
         DayOfMonth;
    var w := NewWindow(now, sourceLag);
    var c, batches := Collect(up, cache, map[], scope, w), Ceil(|scope|, 50);
    WindowDay(now, sourceLag);
    CooperativeRound(up.monitoring, w, end, scope, 0);
    CooperativeCalls(up.monitoring, w, end, scope, 0);
    DomainsAreSucceeded(c.round);
    PriorServedCalls(up, scope, w.todayStart, c.round.calls);
    MonthCache.ServedLoadCalls(up.bandwidth, cache, scope, w.todayStart, c.prior.calls, truth);
    var windows := MonthCache.Windows(MonthCache.Reset(cache, scope, w.todayStart).periodEnd, w.todayStart);
    assert Times(windows, batches) == windows * batches;
    Shares(if DayOfMonth(DayNumber(w.todayStart)) == 1 then 0 else 1, windows, batches);
  }

  lemma Shares(prior: nat, windows: nat, batches: nat)
    ensures 2 * batches + prior * batches + windows * batches == (2 + prior + windows) * batches
  {
  }

  lemma PriorServedCalls(up: Upstreams, domains: seq<string>, today: int, calls: nat)
    requires MonthCache.Serves(up.traffic, {}) && NoDuplicates(domains) && IsMidnight(today)
    ensures PriorTraffic(up, domains, today, calls).calls ==
              calls + (if DayOfMonth(DayNumber(today)) == 1 then 0 else 1) * Ceil(|domains|, 50)
  {
    MonthStartProperties(today);
    hide IsolateAll, MonthCache.Serves, NoDuplicates, Chunks, MonthStart, Ceil;
    if MonthStart(today) < today {
      MonthCache.ServedCalls(up.traffic, domains, DayNumber(MonthStart(today)), DayNumber(today - DAY), Day, calls);
    }
  }

  // ---- Admission ----

  const MAX_DISCOVERED: int := 2000

  datatype Config = Config(enabled: bool, timezoneVerified: bool, unitsVerified: bool, analyticsInterval: int, monitoringInterval: int,
                           maxQps: real, utilization: real)

  /** Go's integer division truncates; intervals are positive. */
  function CollectionTimeout(interval: int): int { interval * 4 / 5 }

  function Seconds(d: int): real { d as real / 1_000_000_000.0 }

  function AnalyticsRate(c: Config, active: int): real
    requires c.analyticsInterval >= FIVE_MINUTES && active >= 0
  {
    var timeout := Seconds(CollectionTimeout(c.analyticsInterval));
    3.0 * active as real / timeout + 2.0 * Ceil(active, 100) as real / timeout
  }

  datatype Admission = Admitted | NegativeCount | TooManyActive | TooManyDiscovered | OverBudget

  function ValidateCdnResourceCounts(c: Config, discovered: int, active: int): Admission
    requires c.analyticsInterval >= FIVE_MINUTES && c.monitoringInterval >= FIVE_MINUTES
  {
    if discovered < 0 || active < 0 then NegativeCount
    else if active > discovered then TooManyActive
    else if discovered > MAX_DISCOVERED then TooManyDiscovered
    else if !c.enabled || !c.timezoneVerified || active == 0 then Admitted
    else
      var monitoring := if c.unitsVerified
                        then 208.0 * BatchCount(active) as real / Seconds(CollectionTimeout(c.monitoringInterval)) else 0.0;
      if AnalyticsRate(c, active) + monitoring > c.maxQps * c.utilization then OverBudget else Admitted
  }

  /** A scope is admitted exactly when the counts are sound and its analytics, top-IP and usage rates together fit the budget. */
  lemma AdmitsExactly(c: Config, discovered: int, active: int)
    requires c.analyticsInterval >= FIVE_MINUTES && c.monitoringInterval >= FIVE_MINUTES
    ensures ValidateCdnResourceCounts(c, discovered, active) == Admitted <==>
              && 0 <= active <= discovered <= 2000
              && (c.enabled && c.timezoneVerified && active > 0 ==>
                    var analytics := (c.analyticsInterval * 4 / 5) as real / 1_000_000_000.0;
                    var monitoring := (c.monitoringInterval * 4 / 5) as real / 1_000_000_000.0;
                    (3 * active + 2 * ((active + 99) / 100)) as real / analytics
                    + (if c.unitsVerified then (208 * ((active + 49) / 50)) as real / monitoring else 0.0)
                      <= c.maxQps * c.utilization)
  {
    if 0 <= active {
      var analytics := (c.analyticsInterval * 4 / 5) as real / 1_000_000_000.0;
      SumOfRatios(3.0 * active as real, 2.0 * Ceil(active, 100) as real, analytics);
    }
  }

  lemma SumOfRatios(a: real, b: real, d: real)
    requires d > 0.0
    ensures (a + b) / d == a / d + b / d
  {
  }

  /** An admitted scope's rounds fit the first-request budget, whatever the upstream does. */
  lemma AdmittedRoundFits(c: Config, discovered: int, scope: seq<string>, up: Upstreams, cache: MonthCache.MonthBandwidth,
                          bad: map<string, Error>, now: int, sourceLag: int)
    requires c.analyticsInterval >= FIVE_MINUTES && c.monitoringInterval >= FIVE_MINUTES
    requires c.enabled && c.timezoneVerified && c.unitsVerified && |scope| > 0
    requires ValidateCdnResourceCounts(c, discovered, |scope|) == Admitted
    ensures var calls := Collect(up, cache, bad, scope, NewWindow(now, sourceLag)).calls;
      AnalyticsRate(c, |scope|) + calls as real / Seconds(CollectionTimeout(c.monitoringInterval)) <= c.maxQps * c.utilization
  {
    hide Collect, AnalyticsRate, NewWindow, BatchCount;
    WindowDay(now, sourceLag);
    RoundRequests(up, cache, bad, scope, NewWindow(now, sourceLag));
    var calls := Collect(up, cache, bad, scope, NewWindow(now, sourceLag)).calls;
    RatioMonotone(calls as real, 208.0 * BatchCount(|scope|) as real, Seconds(CollectionTimeout(c.monitoringInterval)));
  }

  lemma RatioMonotone(a: real, b: real, d: real)
    requires a <= b && d > 0.0
    ensures a / d <= b / d
  {
    assert b / d - a / d == (b - a) / d;
    assert (b - a) / d >= 0.0;
  }
}
