/** The resumable month-to-date bandwidth cache (internal/app/cdn.go). */
module MonthCache {
  import opened Core
  import opened Clock
  import opened UsagePoints
  import opened Usage
  import opened UsageAggregation
  import opened UsageTable
  import opened CdnMerge
  import opened Isolation
  import opened Metering

  const BACKFILL: int := 3 * DAY

  /** Dates are day numbers, both inclusive. */
  datatype MeteringQuery = MeteringQuery(domains: seq<string>, startDay: int, endDay: int, granularity: Granularity)

  /** The n-th request may be answered, rejected or lost, whatever came before. */
  type Upstream = (MeteringQuery, nat) -> Result<Response, Error>

  function FetchWith(up: Upstream, startDay: int, endDay: int, g: Granularity): Fetch<Response> {
    (c: seq<string>, n: nat) => Attempt(up(MeteringQuery(c, startDay, endDay, g), n), 1)
  }

  /** Whatever the upstream does report is true. */
  ghost predicate HonestUpstream(up: Upstream, truth: Truth) {
    forall q, n :: up(q, n).Success? ==> Honest(up(q, n).value, q.domains, truth)
  }

  datatype MonthBandwidth = MonthBandwidth(monthStart: int, periodEnd: int, domains: seq<string>, aggregate: BandwidthAggregate)

  function ZeroBandwidth(domains: seq<string>, at: int): BandwidthAggregate {
    BandwidthAggregate(at, at, 0, seq(|domains|, i requires 0 <= i < |domains| => DomainBandwidth(domains[i], 0.0, ZERO_TIME, false)),
                       0.0, ZERO_TIME)
  }

  /** The cache of a process that has just started. */
  const INITIAL: MonthBandwidth := MonthBandwidth(ZERO_TIME, ZERO_TIME, [], ZeroBandwidth([], ZERO_TIME))

  // ---- One load, as a function of the upstream ----

  /** The source's reset: another month, another scope, or a boundary outside the month so far. */
  function Reset(c: MonthBandwidth, domains: seq<string>, today: int): MonthBandwidth {
    var monthStart := MonthStart(today);
    if c.monthStart != monthStart || c.domains != domains || c.periodEnd < monthStart || c.periodEnd > today
    then MonthBandwidth(monthStart, monthStart, domains, ZeroBandwidth(domains, monthStart))
    else c
  }

  function ChunkEnd(cursor: int, target: int): int {
    if cursor + BACKFILL > target then target else cursor + BACKFILL
  }

  datatype Segment = Segment(usage: Option<BandwidthAggregate>, calls: nat)

  /** One chunk: fetched for every domain and aggregated, or nothing. */
  ghost function LoadChunk(up: Upstream, domains: seq<string>, cursor: int, end: int, calls: nat): Segment
    requires cursor <= end
  {
    var o := IsolateAll(FetchWith(up, DayNumber(cursor), DayNumber(end - DAY), FiveMinutes), Chunks(domains, BATCH_SIZE), calls);
    var batches := UsageBatches(o.succeeded);
    var complete := o.failed == [] && ValidBatches(batches, FiveMinutes, cursor, end)
      && BandwidthFinite(Rows(batches, FiveMinutes, cursor, end));
    Segment(if complete then Some(BandwidthUsage(Domains(batches), cursor, end, Rows(batches, FiveMinutes, cursor, end))) else None,
            o.calls)
  }

  /** The cache left behind, the aggregate returned (none on any error), and the number of requests so far. */
  datatype Loaded = Loaded(cache: MonthBandwidth, result: Option<BandwidthAggregate>, calls: nat)

  ghost function Extend(up: Upstream, c: MonthBandwidth, target: int, calls: nat): Loaded
    decreases target - c.periodEnd
  {
    if c.periodEnd >= target then Loaded(c, Some(c.aggregate), calls)
    else
      var end := ChunkEnd(c.periodEnd, target);
      var segment := LoadChunk(up, c.domains, c.periodEnd, end, calls);
      if segment.usage.None? || MergedBandwidth(c.aggregate, segment.usage.value).Failure? then Loaded(c, None, segment.calls)
      else
        var next := c.(periodEnd := end, aggregate := MergedBandwidth(c.aggregate, segment.usage.value).value);
        Extend(up, next, target, segment.calls)
  }

  ghost function Load(up: Upstream, c: MonthBandwidth, domains: seq<string>, today: int, calls: nat): Loaded {
    Extend(up, Reset(c, domains, today), today, calls)
  }

  // ---- The source's procedure, over the shared cache ----

  class BandwidthCache {
    var value: MonthBandwidth

    constructor ()
      ensures value == INITIAL
    {
      value := INITIAL;
    }
  }

  function Completed<T>(r: Result<T, Error>): Option<T> {
    if r.Success? then Some(r.value) else None
  }

  method FetchChunk(up: Upstream, domains: seq<string>, cursor: int, end: int, calls: nat)
    returns (r: Result<BandwidthAggregate, Error>, after: nat)
    requires cursor <= end
    ensures var segment := LoadChunk(up, domains, cursor, end, calls); Completed(r) == segment.usage && after == segment.calls
  {
    hide IsolateAll, ValidBatches, BandwidthFinite, Rows, BandwidthUsage, Record;
    var fetch := FetchWith(up, DayNumber(cursor), DayNumber(end - DAY), FiveMinutes);
    ghost var o := IsolateAll(fetch, Chunks(domains, BATCH_SIZE), calls);
    var metering, failed, now := FetchMeteringBatches(fetch, domains, calls);
    RecordEmpty(o.failed);
    after := now;
    if |failed| > 0 {
      return Failure(PartialFailure), after;
    }
    r := AggregateBandwidthUsage(UsageBatches(metering), FiveMinutes, cursor, end);
  }

  /** Brings the cache up to the start of today, chunk by chunk; every fetched chunk survives a later failure. */
  method LoadCompletedMonthBandwidth(cache: BandwidthCache?, up: Upstream, domains: seq<string>, today: int, calls: nat)
    returns (r: Result<BandwidthAggregate, Error>, after: nat)
    modifies cache
    ensures cache == null ==> r == Failure(NilCache) && after == calls
    ensures cache != null ==>
              Loaded(cache.value, Completed(r), after) == Load(up, old(cache.value), domains, today, calls)
  {
    hide LoadChunk, MergedBandwidth;
    if cache == null {
      return Failure(NilCache), calls;
    }
    var candidate := cache.value;
    var monthStart := MonthStart(today);
    if candidate.monthStart != monthStart || candidate.domains != domains || candidate.periodEnd < monthStart || candidate.periodEnd > today {
      candidate := MonthBandwidth(monthStart, monthStart, domains, ZeroBandwidth(domains, monthStart));
      cache.value := candidate;
    }
    after := calls;
    while candidate.periodEnd < today
      invariant candidate.domains == domains && cache.value == candidate
      invariant Extend(up, candidate, today, after) == Load(up, old(cache.value), domains, today, calls)
      decreases today - candidate.periodEnd
    {
      var cursor := candidate.periodEnd;
      var chunkEnd := cursor + BACKFILL;
      if chunkEnd > today {
        chunkEnd := today;
      }
      var segment, now := FetchChunk(up, domains, cursor, chunkEnd, after);
      after := now;
      if segment.Failure? {
        return segment, after;
      }
      var merged := MergeCdnBandwidthUsage(candidate.aggregate, segment.value);
      if merged.Failure? {
        return merged, after;
      }
      candidate := candidate.(aggregate := merged.value, periodEnd := chunkEnd);
      cache.value := candidate;
    }
    return Success(candidate.aggregate), after;
  }

  // ---- The cache is always the one-shot aggregate ----

  /** What one aggregation over the whole cached period would return, for true data. */
  ghost predicate Agrees(c: MonthBandwidth, truth: Truth) {
    && c.monthStart <= c.periodEnd && (c.periodEnd - c.monthStart) % DAY == 0
    && var rows := TruthRows(c.domains, truth, FiveMinutes, c.monthStart, c.periodEnd);
      c.aggregate == BandwidthUsage(c.domains, c.monthStart, c.periodEnd, rows) && BandwidthFinite(rows)
  }

  lemma EmptyAgrees(domains: seq<string>, at: int, truth: Truth)
    ensures Agrees(MonthBandwidth(at, at, domains, ZeroBandwidth(domains, at)), truth)
  {
    assert (at - at) / Step(FiveMinutes) == 0;
    assert TruthRows(domains, truth, FiveMinutes, at, at) == [];
  }

  lemma MidnightAligned(t: int)
    requires IsMidnight(t)
    ensures Aligned(FiveMinutes, t)
  {
    AlignedIsMultiple(FiveMinutes, t);
    assert t == (t / DAY * 288) * FIVE_MINUTES;
    ModOfMultiple(t / DAY * 288, FIVE_MINUTES);
  }

  lemma DaysFrom(start: int, t: int)
    requires IsMidnight(start)
    ensures IsMidnight(t) <==> (t - start) % DAY == 0
  {
    assert start == start / DAY * DAY;
    ModShift(t, -(start / DAY), DAY);
  }

  /** Whatever an honest upstream answers is true, however the search cut the request. */
  lemma CollectedHonest(up: Upstream, domains: seq<string>, startDay: int, endDay: int, g: Granularity, calls: nat, truth: Truth)
    requires HonestUpstream(up, truth)
    ensures HonestBatches(UsageBatches(IsolateAll(FetchWith(up, startDay, endDay, g), Chunks(domains, BATCH_SIZE), calls).succeeded), truth)
  {
    hide IsolateAll, Honest, Chunks, Piece;
    var fetch, requests := FetchWith(up, startDay, endDay, g), Chunks(domains, BATCH_SIZE);
    var o := IsolateAll(fetch, requests, calls);
    ChunksNotEmpty(domains);
    forall b | 0 <= b < |o.succeeded|
      ensures Honest(o.succeeded[b].1, o.succeeded[b].0, truth)
    {
      AllAnswered(fetch, requests, calls, b);
      var n: nat :| fetch(o.succeeded[b].0, n).result == Success(o.succeeded[b].1);
    }
  }

  /** A metering query counts every request it makes: the k-th attempt is request number calls + k, and it is the last one. */
  lemma RequestsAreCounted(up: Upstream, domains: seq<string>, startDay: int, endDay: int, g: Granularity, calls: nat) returns (log: seq<Asked>)
    ensures var fetch := FetchWith(up, startDay, endDay, g);
      var o := IsolateAll(fetch, Chunks(domains, BATCH_SIZE), calls);
      && o.calls == calls + |log| && (forall k :: 0 <= k < |log| ==> log[k].number == calls + k) && AllExplained(fetch, log, o)
    ensures |log| >= Ceil(|domains|, 50)
  {
    hide IsolateAll, Chunks, AllExplained, Ceil;
    var fetch := FetchWith(up, startDay, endDay, g);
    ChunksNotEmpty(domains);
    log := AllLogged(fetch, Chunks(domains, BATCH_SIZE), calls);
    UnitLog(fetch, log, calls, IsolateAll(fetch, Chunks(domains, BATCH_SIZE), calls).calls);
    ChunksProperties(domains, BATCH_SIZE);
    OneForEachBatch(fetch, Chunks(domains, BATCH_SIZE), calls);
  }

  /** A complete honest answer aggregates to the truth of its period. */
  lemma ChunkIsTruth(up: Upstream, domains: seq<string>, cursor: int, end: int, calls: nat, truth: Truth)
    requires HonestUpstream(up, truth) && cursor <= end && LoadChunk(up, domains, cursor, end, calls).usage.Some?
    ensures ValidPeriod(FiveMinutes, cursor, end)
    ensures var rows := TruthRows(domains, truth, FiveMinutes, cursor, end);
      LoadChunk(up, domains, cursor, end, calls).usage.value == BandwidthUsage(domains, cursor, end, rows) && BandwidthFinite(rows)
  {
    hide IsolateAll, BandwidthUsage, BandwidthFinite, Rows, TruthRows, Aligned, Covers;
    var fetch := FetchWith(up, DayNumber(cursor), DayNumber(end - DAY), FiveMinutes);
    var o := IsolateAll(fetch, Chunks(domains, BATCH_SIZE), calls);
    var batches := UsageBatches(o.succeeded);
    CompleteIsInput(fetch, domains, calls);
    UsageBatchDomains(o.succeeded);
    ChunksProperties(domains, BATCH_SIZE);
    CollectedHonest(up, domains, DayNumber(cursor), DayNumber(end - DAY), FiveMinutes, calls, truth);
    RowsAreTruth(batches, FiveMinutes, cursor, end, truth);
  }

  lemma FiniteConcat(top: seq<seq<Cell>>, bottom: seq<seq<Cell>>)
    requires BandwidthFinite(top) && BandwidthFinite(bottom)
    ensures BandwidthFinite(top + bottom)
  {
    hide RowTotal;
  }

  /** Merging a true segment into a true cache never fails, and gives the true cache of the longer period. */
  lemma MergeKeepsTruth(c: MonthBandwidth, end: int, segment: BandwidthAggregate, truth: Truth)
    requires Agrees(c, truth) && IsMidnight(c.monthStart) && IsMidnight(end) && c.periodEnd <= end
    requires segment == BandwidthUsage(c.domains, c.periodEnd, end, TruthRows(c.domains, truth, FiveMinutes, c.periodEnd, end))
    requires BandwidthFinite(TruthRows(c.domains, truth, FiveMinutes, c.periodEnd, end))
    ensures MergedBandwidth(c.aggregate, segment).Success?
    ensures Agrees(c.(periodEnd := end, aggregate := MergedBandwidth(c.aggregate, segment).value), truth)
  {
    hide BandwidthUsage, MergedBandwidth, BandwidthFinite, Aligned, GridPoints, TruthRow;
    DaysFrom(c.monthStart, c.periodEnd);
    DaysFrom(c.monthStart, end);
    MidnightAligned(c.monthStart);
    MidnightAligned(c.periodEnd);
    MidnightAligned(end);
    var top := TruthRows(c.domains, truth, FiveMinutes, c.monthStart, c.periodEnd);
    var bottom := TruthRows(c.domains, truth, FiveMinutes, c.periodEnd, end);
    RowsSpan(c.monthStart, c.periodEnd);
    RowsSpan(c.periodEnd, end);
    MergeIsConcatenation(c.domains, c.monthStart, c.periodEnd, end, top, bottom);
    TruthRowsSplit(c.domains, truth, FiveMinutes, c.monthStart, c.periodEnd, end);
    FiniteConcat(top, bottom);
  }

  /** Loading keeps the cache true, whatever fails, and only ever moves its boundary forward. */
  lemma {:induction false} ExtendKeepsTruth(up: Upstream, c: MonthBandwidth, target: int, calls: nat, truth: Truth)
    requires HonestUpstream(up, truth) && Agrees(c, truth)
    requires IsMidnight(c.monthStart) && IsMidnight(target) && c.periodEnd <= target
    ensures var l := Extend(up, c, target, calls);
      && Agrees(l.cache, truth)
      && l.cache.monthStart == c.monthStart && l.cache.domains == c.domains
      && c.periodEnd <= l.cache.periodEnd <= target
      && (l.result.Some? <==> l.cache.periodEnd == target)
      && (l.result.Some? ==> l.result.value == l.cache.aggregate)
    decreases target - c.periodEnd
  {
    hide Agrees, LoadChunk, MergedBandwidth, HonestUpstream;
    if c.periodEnd < target {
      var end := ChunkEnd(c.periodEnd, target);
      var segment := LoadChunk(up, c.domains, c.periodEnd, end, calls);
      if segment.usage.Some? {
        BoundaryIsMidnight(c, truth);
        ChunkIsTruth(up, c.domains, c.periodEnd, end, calls, truth);
        MergeKeepsTruth(c, end, segment.usage.value, truth);
        var next := c.(periodEnd := end, aggregate := MergedBandwidth(c.aggregate, segment.usage.value).value);
        ExtendKeepsTruth(up, next, target, segment.calls, truth);
      }
    }
  }

  lemma BoundaryIsMidnight(c: MonthBandwidth, truth: Truth)
    requires Agrees(c, truth) && IsMidnight(c.monthStart)
    ensures IsMidnight(c.periodEnd) && IsMidnight(c.periodEnd + BACKFILL)
  {
    hide BandwidthUsage, BandwidthFinite, TruthRows, IsMidnight;
    DaysFrom(c.monthStart, c.periodEnd);
    ThreeDaysLater(c.periodEnd);
  }

  lemma ThreeDaysLater(t: int)
    requires IsMidnight(t)
    ensures IsMidnight(t + BACKFILL)
  {
    ModShift(t, 3, DAY);
  }

  /** The same month and scope, with today not moving back past the boundary: the cache is kept as it is. */
  predicate Resumes(c: MonthBandwidth, domains: seq<string>, today: int) {
    c.monthStart == MonthStart(today) && c.domains == domains && c.periodEnd <= today
  }

  /** Main law: one load leaves a true cache behind, resumes instead of replaying, and returns the one-shot aggregate. */
  lemma LoadKeepsTruth(up: Upstream, c: MonthBandwidth, domains: seq<string>, today: int, calls: nat, truth: Truth)
    requires HonestUpstream(up, truth) && Agrees(c, truth) && IsMidnight(today)
    ensures var l := Load(up, c, domains, today, calls);
      && Agrees(l.cache, truth) && Resumes(l.cache, domains, today)
      && (Resumes(c, domains, today) ==> Reset(c, domains, today) == c && c.periodEnd <= l.cache.periodEnd)
      && (l.result.Some? <==> l.cache.periodEnd == today)
      && (l.result.Some? ==> l.result.value == l.cache.aggregate)
  {
    MonthStartProperties(today);
    EmptyAgrees(domains, MonthStart(today), truth);
    hide MonthStart, BandwidthUsage, BandwidthFinite, TruthRows, Extend, ZeroBandwidth;
    ExtendKeepsTruth(up, Reset(c, domains, today), today, calls, truth);
  }

  /** The aggregate of a true cache is what one aggregation over any honest batches of the same domains returns. */
  lemma CacheIsOneShot(c: MonthBandwidth, batches: seq<Batch>, truth: Truth)
    requires Agrees(c, truth) && HonestBatches(batches, truth) && Domains(batches) == c.domains
    requires ValidBatches(batches, FiveMinutes, c.monthStart, c.periodEnd)
    ensures var rows := Rows(batches, FiveMinutes, c.monthStart, c.periodEnd);
      BandwidthFinite(rows) && c.aggregate == BandwidthUsage(Domains(batches), c.monthStart, c.periodEnd, rows)
  {
    hide BandwidthUsage, BandwidthFinite, Rows, TruthRows;
    RowsAreTruth(batches, FiveMinutes, c.monthStart, c.periodEnd, truth);
  }

  // ---- Runs ----

  /** One later call: its own upstream behaviour, scope and day. */
  datatype Request = Request(up: Upstream, domains: seq<string>, today: int)

  /** The caches after each call of a run. */
  ghost function Run(requests: seq<Request>): MonthBandwidth {
    if |requests| == 0 then INITIAL
    else
      var last := requests[|requests| - 1];
      Load(last.up, Run(requests[..|requests| - 1]), last.domains, last.today, 0).cache
  }

  ghost predicate HonestRun(requests: seq<Request>, truth: Truth) {
    forall i :: 0 <= i < |requests| ==> HonestUpstream(requests[i].up, truth) && IsMidnight(requests[i].today)
  }

  /** Over every run of calls, failures, scope changes and month rollovers included, the cache is true. */
  lemma {:induction false} RunKeepsTruth(requests: seq<Request>, truth: Truth)
    requires HonestRun(requests, truth)
    ensures Agrees(Run(requests), truth)
    ensures |requests| > 0 ==> Resumes(Run(requests), requests[|requests| - 1].domains, requests[|requests| - 1].today)
  {
    hide Load, Agrees, HonestUpstream, Resumes, IsMidnight;
    if |requests| == 0 {
      EmptyAgrees([], ZERO_TIME, truth);
    } else {
      var init, last := requests[..|requests| - 1], requests[|requests| - 1];
      assert last == requests[|requests| - 1];
      RunKeepsTruth(init, truth);
      LoadKeepsTruth(last.up, Run(init), last.domains, last.today, 0, truth);
    }
  }

  /** The same month and scope, with the day not moving back. */
  predicate Follows(earlier: Request, later: Request) {
    earlier.domains == later.domains && earlier.today <= later.today && MonthStart(earlier.today) == MonthStart(later.today)
  }

  ghost predicate Settled(requests: seq<Request>, from: nat) {
    forall i :: from < i < |requests| ==> Follows(requests[i - 1], requests[i])
  }

  lemma StepKeepsProgress(requests: seq<Request>, truth: Truth)
    requires HonestRun(requests, truth) && |requests| > 1 && Follows(requests[|requests| - 2], requests[|requests| - 1])
    ensures Run(requests[..|requests| - 1]).periodEnd <= Run(requests).periodEnd
  {
    hide Load, Agrees, HonestUpstream, MonthStart, IsMidnight;
    var init, last := requests[..|requests| - 1], requests[|requests| - 1];
    assert init[|init| - 1] == requests[|requests| - 2];
    RunKeepsTruth(init, truth);
    assert HonestUpstream(last.up, truth) && IsMidnight(last.today);
    LoadKeepsTruth(last.up, Run(init), last.domains, last.today, 0, truth);
  }

  /** While month and scope stay and the day does not move back, progress is never lost. */
  lemma {:induction false} ProgressIsKept(requests: seq<Request>, from: nat, truth: Truth)
    requires HonestRun(requests, truth) && from < |requests| && Settled(requests, from)
    ensures Run(requests[..from + 1]).periodEnd <= Run(requests).periodEnd
    decreases |requests|
  {
    hide Run, HonestUpstream, IsMidnight, Follows;
    if from + 1 == |requests| {
      assert requests[..from + 1] == requests;
    } else {
      var init := requests[..|requests| - 1];
      assert init[..from + 1] == requests[..from + 1];
      assert Follows(requests[|requests| - 2], requests[|requests| - 1]);
      ProgressIsKept(init, from, truth);
      StepKeepsProgress(requests, truth);
    }
  }

  // ---- A cooperative upstream ----

  /** A query is served by a valid response that covers all of its days. */
  ghost predicate ServesQuery(r: Result<Response, Error>, q: MeteringQuery) {
    && r.Success? && ValidResponse(r.value, q.domains, q.granularity)
    && Covers(r.value.times, q.granularity, q.startDay * DAY, (q.endDay + 1) * DAY)
  }

  /** Every query is served, except those that name an invalid domain. */
  ghost predicate Serves(up: Upstream, invalid: set<string>) {
    forall q: MeteringQuery, n :: ValidDomains(q.domains) && q.startDay <= q.endDay ==> ServesUnlessInvalid(up(q, n), q, invalid)
  }

  ghost predicate ServesUnlessInvalid(r: Result<Response, Error>, q: MeteringQuery, invalid: set<string>) {
    if HasInvalid(q.domains, invalid) then r == Failure(Api(INVALID_DOMAIN)) else ServesQuery(r, q)
  }

  lemma MidnightsAligned(g: Granularity, day: int)
    ensures Aligned(g, day * DAY)
  {
    AlignedIsMultiple(g, day * DAY);
    match g
    case FiveMinutes =>
      assert day * DAY == (day * 288) * FIVE_MINUTES;
      ModOfMultiple(day * 288, FIVE_MINUTES);
    case Hour =>
      assert day * DAY == (day * 24) * HOUR;
      ModOfMultiple(day * 24, HOUR);
    case Day => ModOfMultiple(day, DAY);
  }

  lemma DomainsOfChunks(domains: seq<string>)
    requires NoDuplicates(domains)
    ensures forall b :: 0 <= b < |Chunks(domains, BATCH_SIZE)| ==> ValidDomains(Chunks(domains, BATCH_SIZE)[b])
    ensures |domains| > 0 ==> |Chunks(domains, BATCH_SIZE)| > 0
  {
    ChunksProperties(domains, BATCH_SIZE);
    ChunksAreDistinct(domains, BATCH_SIZE);
    hide NoDuplicates;
    forall b | 0 <= b < |Chunks(domains, BATCH_SIZE)|
      ensures 1 <= |Chunks(domains, BATCH_SIZE)[b]| <= MAX_DOMAINS
    {
      assert Chunks(domains, BATCH_SIZE)[b] in Chunks(domains, BATCH_SIZE);
    }
  }

  lemma ServedSearch(up: Upstream, startDay: int, endDay: int, g: Granularity, request: seq<string>, invalid: set<string>)
    requires Serves(up, invalid) && ValidDomains(request) && startDay <= endDay
    ensures RejectsExactly(FetchWith(up, startDay, endDay, g), request, invalid)
  {
    hide ValidResponse, Covers, HasInvalid;
    var fetch := FetchWith(up, startDay, endDay, g);
    forall i: nat, j: nat, n: nat | i < j <= |request|
      ensures AnswersAsExpected(fetch, request[i..j], n, invalid)
    {
      var q := MeteringQuery(request[i..j], startDay, endDay, g);
      assert ServesUnlessInvalid(up(q, n), q, invalid);
    }
  }

  /** A collected batch is valid for exactly the queried days. */
  lemma ServedBatch(up: Upstream, startDay: int, endDay: int, g: Granularity, domains: seq<string>, response: Response, n: nat,
                    invalid: set<string>)
    requires Serves(up, invalid) && ValidDomains(domains) && startDay <= endDay
    requires FetchWith(up, startDay, endDay, g)(domains, n).result == Success(response)
    ensures ValidBatch(Batch(domains, response), g, startDay * DAY, (endDay + 1) * DAY)
  {
    hide ValidDomains, ValidResponse, Covers;
    var q := MeteringQuery(domains, startDay, endDay, g);
    assert ServesUnlessInvalid(up(q, n), q, invalid);
  }

  lemma CollectedBatches(up: Upstream, domains: seq<string>, startDay: int, endDay: int, g: Granularity, calls: nat, invalid: set<string>, b: nat)
    requires Serves(up, invalid) && NoDuplicates(domains) && startDay <= endDay
    requires b < |IsolateAll(FetchWith(up, startDay, endDay, g), Chunks(domains, BATCH_SIZE), calls).succeeded|
    ensures var o := IsolateAll(FetchWith(up, startDay, endDay, g), Chunks(domains, BATCH_SIZE), calls);
      ValidBatch(UsageBatches(o.succeeded)[b], g, startDay * DAY, (endDay + 1) * DAY)
  {
    hide IsolateAll, ValidDomains, ValidBatch, Chunks, NoDuplicates, Serves, Piece;
    var fetch, requests := FetchWith(up, startDay, endDay, g), Chunks(domains, BATCH_SIZE);
    var o := IsolateAll(fetch, requests, calls);
    DomainsOfChunks(domains);
    ChunksNotEmpty(domains);
    AllAnswered(fetch, requests, calls, b);
    var k: nat :| k < |requests| && WasAnswered(fetch, requests[k], o.succeeded[b]);
    var n: nat :| fetch(o.succeeded[b].0, n).result == Success(o.succeeded[b].1);
    PieceDomains(o.succeeded[b].0, requests[k]);
    ServedBatch(up, startDay, endDay, g, o.succeeded[b].0, o.succeeded[b].1, n, invalid);
  }

  /**
   * Main law of rejection: a query collects exactly its valid domains and loses exactly the invalid ones, and the
   * collected batches are valid for exactly the queried days.
   */
  lemma RejectingQuery(up: Upstream, domains: seq<string>, startDay: int, endDay: int, g: Granularity, calls: nat, invalid: set<string>)
    requires Serves(up, invalid) && NoDuplicates(domains) && startDay <= endDay && Affordable(Chunks(domains, BATCH_SIZE), invalid)
    ensures var o := IsolateAll(FetchWith(up, startDay, endDay, g), Chunks(domains, BATCH_SIZE), calls);
      && Separated(o, domains, invalid) && Domains(UsageBatches(o.succeeded)) == Keep(domains, invalid, false)
      && (|o.succeeded| > 0 ==> ValidBatches(UsageBatches(o.succeeded), g, startDay * DAY, (endDay + 1) * DAY))
  {
    hide IsolateAll, ValidDomains, ValidBatch, Aligned, Chunks, NoDuplicates, Serves, RejectsExactly, Affordable, Keep, Domains;
    var fetch, requests := FetchWith(up, startDay, endDay, g), Chunks(domains, BATCH_SIZE);
    var o := IsolateAll(fetch, requests, calls);
    ChunksProperties(domains, BATCH_SIZE);
    DomainsOfChunks(domains);
    forall b | 0 <= b < |requests|
      ensures RejectsExactly(fetch, requests[b], invalid)
    {
      ServedSearch(up, startDay, endDay, g, requests[b], invalid);
    }
    AllSeparate(fetch, requests, calls, invalid);
    UsageBatchDomains(o.succeeded);
    KeepDistinct(domains, invalid, false);
    MidnightsAligned(g, startDay);
    MidnightsAligned(g, endDay + 1);
    forall b | 0 <= b < |o.succeeded|
      ensures ValidBatch(UsageBatches(o.succeeded)[b], g, startDay * DAY, (endDay + 1) * DAY)
    {
      CollectedBatches(up, domains, startDay, endDay, g, calls, invalid, b);
    }
  }

  /** With no invalid domain each batch of fifty takes one request. */
  lemma ServedCalls(up: Upstream, domains: seq<string>, startDay: int, endDay: int, g: Granularity, calls: nat)
    requires Serves(up, {}) && NoDuplicates(domains) && startDay <= endDay
    ensures IsolateAll(FetchWith(up, startDay, endDay, g), Chunks(domains, BATCH_SIZE), calls).calls == calls + Ceil(|domains|, 50)
  {
    hide IsolateAll, ValidResponse, ValidDomains, Covers, Chunks, NoDuplicates, Ceil;
    var fetch, requests := FetchWith(up, startDay, endDay, g), Chunks(domains, BATCH_SIZE);
    DomainsOfChunks(domains);
    ChunksProperties(domains, BATCH_SIZE);
    forall b, n: nat | 0 <= b < |requests|
      ensures fetch(requests[b], n).result.Success?
    {
      NoneInvalid(requests[b]);
      var q := MeteringQuery(requests[b], startDay, endDay, g);
      assert ServesUnlessInvalid(up(q, n), q, {});
    }
    AllSucceedCalls(fetch, requests, calls);
  }

  /** With no invalid domain every domain is collected. */
  lemma ServedBatches(up: Upstream, domains: seq<string>, startDay: int, endDay: int, g: Granularity, calls: nat)
    requires Serves(up, {}) && NoDuplicates(domains) && |domains| > 0 && startDay <= endDay
    ensures var o := IsolateAll(FetchWith(up, startDay, endDay, g), Chunks(domains, BATCH_SIZE), calls);
      && o.failed == [] && Domains(UsageBatches(o.succeeded)) == domains
      && ValidBatches(UsageBatches(o.succeeded), g, startDay * DAY, (endDay + 1) * DAY)
  {
    hide IsolateAll, ValidBatches, Chunks, NoDuplicates, Serves, Affordable, Keep;
    var o := IsolateAll(FetchWith(up, startDay, endDay, g), Chunks(domains, BATCH_SIZE), calls);
    forall b | 0 <= b < |Chunks(domains, BATCH_SIZE)|
      ensures |Keep(Chunks(domains, BATCH_SIZE)[b], {}, true)| <= 1
    {
      NoneInvalid(Chunks(domains, BATCH_SIZE)[b]);
    }
    OneInvalidIsAffordable(domains, {});
    RejectingQuery(up, domains, startDay, endDay, g, calls, {});
    NoneInvalid(domains);
  }

  lemma ChunksNotEmpty(domains: seq<string>)
    ensures forall b :: 0 <= b < |Chunks(domains, BATCH_SIZE)| ==> |Chunks(domains, BATCH_SIZE)[b]| > 0
  {
    ChunksProperties(domains, BATCH_SIZE);
    forall b | 0 <= b < |Chunks(domains, BATCH_SIZE)| ensures |Chunks(domains, BATCH_SIZE)[b]| > 0 {
      assert Chunks(domains, BATCH_SIZE)[b] in Chunks(domains, BATCH_SIZE);
    }
  }

  /** No account value of the truth overflows. */
  ghost predicate FiniteTruth(domains: seq<string>, truth: Truth) {
    forall t :: RowTotal(TruthRow(domains, truth, t)) <= MAX_FINITE
  }

  /** The queried dates of a chunk are exactly its days, so a served chunk always arrives. */
  lemma ServedChunk(up: Upstream, domains: seq<string>, cursor: int, end: int, calls: nat, truth: Truth)
    requires HonestUpstream(up, truth) && Serves(up, {}) && FiniteTruth(domains, truth) && NoDuplicates(domains) && |domains| > 0
    requires IsMidnight(cursor) && IsMidnight(end) && cursor < end
    ensures LoadChunk(up, domains, cursor, end, calls).usage.Some?
  {
    hide IsolateAll, Rows, RowTotal, Chunks, BandwidthUsage, TruthRow, Serves, NoDuplicates, ValidBatches;
    var startDay, endDay := DayNumber(cursor), DayNumber(end - DAY);
    assert startDay * DAY == cursor && (endDay + 1) * DAY == end;
    ServedBatches(up, domains, startDay, endDay, FiveMinutes, calls);
    var o := IsolateAll(FetchWith(up, startDay, endDay, FiveMinutes), Chunks(domains, BATCH_SIZE), calls);
    CollectedHonest(up, domains, startDay, endDay, FiveMinutes, calls, truth);
    RowsAreTruth(UsageBatches(o.succeeded), FiveMinutes, cursor, end, truth);
  }

  lemma {:induction false} ServedExtend(up: Upstream, c: MonthBandwidth, target: int, calls: nat, truth: Truth)
    requires HonestUpstream(up, truth) && Serves(up, {}) && FiniteTruth(c.domains, truth) && NoDuplicates(c.domains) && |c.domains| > 0
    requires Agrees(c, truth) && IsMidnight(c.monthStart) && IsMidnight(target) && c.periodEnd <= target
    ensures Extend(up, c, target, calls).result.Some?
    decreases target - c.periodEnd
  {
    hide Agrees, LoadChunk, MergedBandwidth, HonestUpstream, Serves, FiniteTruth, NoDuplicates;
    if c.periodEnd < target {
      var end := ChunkEnd(c.periodEnd, target);
      BoundaryIsMidnight(c, truth);
      ServedChunk(up, c.domains, c.periodEnd, end, calls, truth);
      var segment := LoadChunk(up, c.domains, c.periodEnd, end, calls);
      ChunkIsTruth(up, c.domains, c.periodEnd, end, calls, truth);
      MergeKeepsTruth(c, end, segment.usage.value, truth);
      var next := c.(periodEnd := end, aggregate := MergedBandwidth(c.aggregate, segment.usage.value).value);
      ServedExtend(up, next, target, segment.calls, truth);
    }
  }

  /** With an upstream that serves every query, one load reaches today whatever the cache held before. */
  lemma ServedLoad(up: Upstream, c: MonthBandwidth, domains: seq<string>, today: int, calls: nat, truth: Truth)
    requires HonestUpstream(up, truth) && Serves(up, {}) && FiniteTruth(domains, truth) && NoDuplicates(domains) && |domains| > 0
    requires Agrees(c, truth) && IsMidnight(today)
    ensures Load(up, c, domains, today, calls).result.Some?
  {
    MonthStartProperties(today);
    EmptyAgrees(domains, MonthStart(today), truth);
    hide MonthStart, Agrees, Extend, ZeroBandwidth, HonestUpstream, Serves, FiniteTruth, NoDuplicates;
    ServedExtend(up, Reset(c, domains, today), today, calls, truth);
  }

  // ---- What a load asks for, and what it keeps ----

  /** The days of a period, and the three-day windows they need. */
  function Days(start: int, end: int): nat
    requires start <= end
  {
    (end - start) / DAY
  }

  function Windows(start: int, end: int): nat
    requires start <= end
  {
    Ceil(Days(start, end), 3)
  }

  /** A window spans three days, and only one that ends at the target may be shorter. */
  lemma WindowLength(cursor: int, target: int)
    requires cursor < target && IsMidnight(cursor) && IsMidnight(target)
    ensures var end := ChunkEnd(cursor, target);
      && cursor < end <= target && IsMidnight(end)
      && (end == cursor + 3 * 86_400_000_000_000 || (end == target && end < cursor + 3 * 86_400_000_000_000))
      && Windows(cursor, end) == 1 && Windows(cursor, target) == 1 + Windows(end, target)
  {
    var a, b := cursor / DAY, target / DAY;
    assert cursor == a * DAY && target == b * DAY;
    ThreeDaysLater(cursor);
    DaysAre(a, b);
    if b - a > 3 {
      DaysAre(a, a + 3);
      DaysAre(a + 3, b);
      CeilStep(b - a - 3, 3);
    } else {
      DaysAre(b, b);
    }
  }

  lemma DaysAre(a: int, b: int)
    requires a <= b
    ensures Days(a * DAY, b * DAY) == b - a
  {
    assert b * DAY - a * DAY == (b - a) * DAY;
    QuotientIs(b * DAY - a * DAY, DAY, b - a);
  }

  /** Two upstreams that answer every five-minute query for at most three days of a period alike. */
  ghost predicate SameForWindows(a: Upstream, b: Upstream, start: int, end: int) {
    forall q: MeteringQuery, n :: IsWindowQuery(q, start, end) ==> a(q, n) == b(q, n)
  }

  predicate IsWindowQuery(q: MeteringQuery, start: int, end: int) {
    && q.granularity == FiveMinutes && q.startDay <= q.endDay <= q.startDay + 2
    && start <= q.startDay * 86_400_000_000_000 && (q.endDay + 1) * 86_400_000_000_000 <= end
  }

  lemma ChunkAsks(a: Upstream, b: Upstream, domains: seq<string>, cursor: int, end: int, calls: nat, start: int, target: int)
    requires SameForWindows(a, b, start, target) && IsMidnight(cursor) && IsMidnight(end)
    requires start <= cursor < end <= target && end <= cursor + BACKFILL
    ensures LoadChunk(a, domains, cursor, end, calls) == LoadChunk(b, domains, cursor, end, calls)
  {
    hide IsolateAll, ValidBatches, BandwidthFinite, Rows, BandwidthUsage;
    var first, last := DayNumber(cursor), DayNumber(end - DAY);
    assert first * DAY == cursor && (last + 1) * DAY == end;
    assert first <= last <= first + 2;
    forall c, n
      ensures FetchWith(a, first, last, FiveMinutes)(c, n) == FetchWith(b, first, last, FiveMinutes)(c, n)
    {
      assert IsWindowQuery(MeteringQuery(c, first, last, FiveMinutes), start, target);
      assert a(MeteringQuery(c, first, last, FiveMinutes), n) == b(MeteringQuery(c, first, last, FiveMinutes), n);
    }
    SameSearches(FetchWith(a, first, last, FiveMinutes), FetchWith(b, first, last, FiveMinutes), Chunks(domains, BATCH_SIZE), calls);
  }

  /** A load asks for nothing but five-minute data of at most three days at a time, from its boundary to its target. */
  lemma {:induction false} ExtendAsks(a: Upstream, b: Upstream, c: MonthBandwidth, target: int, calls: nat, start: int)
    requires SameForWindows(a, b, start, target) && IsMidnight(c.periodEnd) && IsMidnight(target) && start <= c.periodEnd
    ensures Extend(a, c, target, calls) == Extend(b, c, target, calls)
    decreases target - c.periodEnd
  {
    hide LoadChunk, MergedBandwidth, SameForWindows, IsMidnight;
    if c.periodEnd < target {
      var end := ChunkEnd(c.periodEnd, target);
      WindowLength(c.periodEnd, target);
      ChunkAsks(a, b, c.domains, c.periodEnd, end, calls, start, target);
      var segment := LoadChunk(a, c.domains, c.periodEnd, end, calls);
      if segment.usage.Some? && MergedBandwidth(c.aggregate, segment.usage.value).Success? {
        ExtendAsks(a, b, c.(periodEnd := end, aggregate := MergedBandwidth(c.aggregate, segment.usage.value).value), target, segment.calls, start);
      }
    }
  }

  lemma LoadAsks(a: Upstream, b: Upstream, c: MonthBandwidth, domains: seq<string>, today: int, calls: nat, truth: Truth)
    requires Agrees(c, truth) && IsMidnight(today) && SameForWindows(a, b, Reset(c, domains, today).periodEnd, today)
    ensures Load(a, c, domains, today, calls) == Load(b, c, domains, today, calls)
  {
    hide Agrees, Extend, SameForWindows, Reset, IsMidnight;
    ResetKeepsTruth(c, domains, today, truth);
    BoundaryIsMidnight(Reset(c, domains, today), truth);
    ExtendAsks(a, b, Reset(c, domains, today), today, calls, Reset(c, domains, today).periodEnd);
  }

  /** Whether a window's data arrived and could be merged. */
  ghost predicate Arrives(up: Upstream, c: MonthBandwidth, target: int, calls: nat)
    requires c.periodEnd < target
  {
    var segment := LoadChunk(up, c.domains, c.periodEnd, ChunkEnd(c.periodEnd, target), calls);
    segment.usage.Some? && MergedBandwidth(c.aggregate, segment.usage.value).Success?
  }

  /**
   * A load keeps every window that arrived: a failed one leaves the boundary at the start of the window that did not, which
   * was the last thing it asked for, and exactly the whole windows before it were asked for, each at least once a batch.
   */
  lemma {:induction false} FailureIsAtBoundary(up: Upstream, c: MonthBandwidth, target: int, calls: nat) returns (last: nat)
    requires IsMidnight(c.periodEnd) && IsMidnight(target) && c.periodEnd <= target
    ensures var l := Extend(up, c, target, calls);
      && IsMidnight(l.cache.periodEnd) && c.periodEnd <= l.cache.periodEnd <= target && l.cache.domains == c.domains
      && (l.result.None? ==>
            && l.cache.periodEnd < target && !Arrives(up, l.cache, target, last)
            && l.calls == LoadChunk(up, c.domains, l.cache.periodEnd, ChunkEnd(l.cache.periodEnd, target), last).calls
            && last >= calls + Times(Windows(c.periodEnd, l.cache.periodEnd), Ceil(|c.domains|, 50)))
      && l.calls >= calls + Times(Windows(c.periodEnd, l.cache.periodEnd) + (if l.result.None? then 1 else 0), Ceil(|c.domains|, 50))
    decreases target - c.periodEnd
  {
    hide LoadChunk, MergedBandwidth, Times, Ceil, Windows, IsMidnight;
    var batches := Ceil(|c.domains|, 50);
    last := calls;
    NoWindow(c.periodEnd);
    TimesStep(0, batches);
    if c.periodEnd < target {
      var end := ChunkEnd(c.periodEnd, target);
      var segment := LoadChunk(up, c.domains, c.periodEnd, end, calls);
      WindowLength(c.periodEnd, target);
      ChunkCounted(up, c.domains, c.periodEnd, end, calls);
      if Arrives(up, c, target, calls) {
        var next := c.(periodEnd := end, aggregate := MergedBandwidth(c.aggregate, segment.usage.value).value);
        last := FailureIsAtBoundary(up, next, target, segment.calls);
        var l := Extend(up, next, target, segment.calls);
        FirstWindow(c.periodEnd, end, l.cache.periodEnd, target);
        TimesStep(Windows(end, l.cache.periodEnd), batches);
        TimesStep(Windows(end, l.cache.periodEnd) + 1, batches);
      }
    }
  }

  lemma NoWindow(t: int)
    ensures Windows(t, t) == 0
  {
  }

  lemma FirstWindow(start: int, end: int, boundary: int, target: int)
    requires IsMidnight(start) && IsMidnight(boundary) && IsMidnight(target) && start < target && end == ChunkEnd(start, target)
    requires end <= boundary <= target
    ensures Windows(start, boundary) == 1 + Windows(end, boundary)
  {
    hide IsMidnight, Windows;
    WindowLength(start, target);
    WindowLength(start, boundary);
  }

  lemma ChunkCounted(up: Upstream, domains: seq<string>, cursor: int, end: int, calls: nat)
    requires cursor <= end
    ensures LoadChunk(up, domains, cursor, end, calls).calls >= calls + Ceil(|domains|, 50)
  {
    hide IsolateAll, ValidBatches, BandwidthFinite, Rows, BandwidthUsage, Ceil;
    var log := RequestsAreCounted(up, domains, DayNumber(cursor), DayNumber(end - DAY), FiveMinutes, calls);
  }

  lemma ResetKeepsTruth(c: MonthBandwidth, domains: seq<string>, today: int, truth: Truth)
    requires Agrees(c, truth) && IsMidnight(today)
    ensures var reset := Reset(c, domains, today);
      reset.domains == domains && IsMidnight(reset.monthStart) && Agrees(reset, truth) && reset.periodEnd <= today
  {
    MonthStartProperties(today);
    EmptyAgrees(domains, MonthStart(today), truth);
    hide MonthStart, Agrees, ZeroBandwidth;
  }

  /** The same for a whole load, whatever the cache held before: what arrived is kept, and every window is counted. */
  lemma LoadKeepsWindows(up: Upstream, c: MonthBandwidth, domains: seq<string>, today: int, calls: nat, truth: Truth) returns (last: nat)
    requires Agrees(c, truth) && IsMidnight(today)
    ensures var start, l := Reset(c, domains, today).periodEnd, Load(up, c, domains, today, calls);
      && start <= l.cache.periodEnd <= today
      && (l.result.None? ==>
            && l.cache.periodEnd < today && !Arrives(up, l.cache, today, last)
            && l.calls == LoadChunk(up, domains, l.cache.periodEnd, ChunkEnd(l.cache.periodEnd, today), last).calls)
      && l.calls >= calls + Times(Windows(start, l.cache.periodEnd) + (if l.result.None? then 1 else 0), Ceil(|domains|, 50))
  {
    hide MonthStart, Agrees, Extend, ZeroBandwidth, Windows, Times, Ceil, LoadChunk, Reset, IsMidnight, Arrives;
    var reset := Reset(c, domains, today);
    ResetKeepsTruth(c, domains, today, truth);
    BoundaryIsMidnight(reset, truth);
    last := FailureIsAtBoundary(up, reset, today, calls);
  }

  /** With an upstream that serves every query a load makes exactly one request for each batch and three-day window. */
  lemma {:induction false} ServedExtendCalls(up: Upstream, c: MonthBandwidth, target: int, calls: nat, truth: Truth)
    requires HonestUpstream(up, truth) && Serves(up, {}) && FiniteTruth(c.domains, truth) && NoDuplicates(c.domains) && |c.domains| > 0
    requires Agrees(c, truth) && IsMidnight(c.monthStart) && IsMidnight(target) && c.periodEnd <= target
    ensures Extend(up, c, target, calls).calls == calls + Times(Windows(c.periodEnd, target), Ceil(|c.domains|, 50))
    decreases target - c.periodEnd
  {
    hide Agrees, LoadChunk, MergedBandwidth, HonestUpstream, Serves, FiniteTruth, NoDuplicates, Times, Ceil, Windows;
    var batches := Ceil(|c.domains|, 50);
    BoundaryIsMidnight(c, truth);
    TimesStep(0, batches);
    NoWindow(target);
    if c.periodEnd < target {
      var end := ChunkEnd(c.periodEnd, target);
      ServedChunk(up, c.domains, c.periodEnd, end, calls, truth);
      ServedChunkCalls(up, c.domains, c.periodEnd, end, calls);
      var segment := LoadChunk(up, c.domains, c.periodEnd, end, calls);
      ChunkIsTruth(up, c.domains, c.periodEnd, end, calls, truth);
      MergeKeepsTruth(c, end, segment.usage.value, truth);
      var next := c.(periodEnd := end, aggregate := MergedBandwidth(c.aggregate, segment.usage.value).value);
      WindowLength(c.periodEnd, target);
      ServedExtendCalls(up, next, target, segment.calls, truth);
      TimesStep(Windows(end, target), batches);
    }
  }

  lemma ServedChunkCalls(up: Upstream, domains: seq<string>, cursor: int, end: int, calls: nat)
    requires Serves(up, {}) && NoDuplicates(domains) && IsMidnight(cursor) && IsMidnight(end) && cursor < end
    ensures LoadChunk(up, domains, cursor, end, calls).calls == calls + Ceil(|domains|, 50)
  {
    hide IsolateAll, ValidBatches, BandwidthFinite, Rows, BandwidthUsage, Serves, NoDuplicates, Ceil;
    ServedCalls(up, domains, DayNumber(cursor), DayNumber(end - DAY), FiveMinutes, calls);
  }

  lemma ServedLoadCalls(up: Upstream, c: MonthBandwidth, domains: seq<string>, today: int, calls: nat, truth: Truth)
    requires HonestUpstream(up, truth) && Serves(up, {}) && FiniteTruth(domains, truth) && NoDuplicates(domains) && |domains| > 0
    requires Agrees(c, truth) && IsMidnight(today)
    ensures Reset(c, domains, today).periodEnd <= today
    ensures Load(up, c, domains, today, calls).calls
         == calls + Times(Windows(Reset(c, domains, today).periodEnd, today), Ceil(|domains|, 50))
  {
    MonthStartProperties(today);
    EmptyAgrees(domains, MonthStart(today), truth);
    hide MonthStart, Agrees, Extend, ZeroBandwidth, HonestUpstream, Serves, FiniteTruth, NoDuplicates, Windows, Times, Ceil;
    ServedExtendCalls(up, Reset(c, domains, today), today, calls, truth);
  }

  // ---- The number of requests ----

  /** n chunks cost at most 15 requests each per batch, one more for a chunk that fails. */
  function MonthCalls(batches: nat, chunks: nat): nat {
    if chunks == 0 then 0 else Times(batches, 15 * chunks + 1)
  }

  lemma ChunkCalls(up: Upstream, domains: seq<string>, cursor: int, end: int, calls: nat)
    requires cursor <= end
    ensures var segment := LoadChunk(up, domains, cursor, end, calls);
      && calls <= segment.calls <= calls + Times(Ceil(|domains|, BATCH_SIZE), 16)
      && (segment.usage.Some? ==> segment.calls <= calls + Times(Ceil(|domains|, BATCH_SIZE), 15))
  {
    hide IsolateAll, ValidBatches, BandwidthFinite, Rows, BandwidthUsage, Times;
    ChunksProperties(domains, BATCH_SIZE);
    hide Chunks, Ceil;
    AllCalls(FetchWith(up, DayNumber(cursor), DayNumber(end - DAY), FiveMinutes), Chunks(domains, BATCH_SIZE), calls, 1);
  }

  lemma MonthCallsStep(batches: nat, chunks: nat)
    requires chunks > 0
    ensures Times(batches, 16) <= MonthCalls(batches, chunks)
    ensures Times(batches, 15) + MonthCalls(batches, chunks - 1) <= MonthCalls(batches, chunks)
  {
    var n := 15 * chunks + 1;
    MulMonotone(16, n, batches);
    assert batches * n == batches * (n - 15) + batches * 15;
  }

  lemma {:induction false} ExtendCalls(up: Upstream, c: MonthBandwidth, target: int, calls: nat, chunks: nat)
    requires target - c.periodEnd <= chunks * BACKFILL
    ensures var l := Extend(up, c, target, calls);
      calls <= l.calls <= calls + MonthCalls(Ceil(|c.domains|, BATCH_SIZE), chunks)
    decreases target - c.periodEnd
  {
    hide LoadChunk, MergedBandwidth, MonthCalls, Times, Ceil;
    if c.periodEnd < target {
      assert chunks > 0;
      var end := ChunkEnd(c.periodEnd, target);
      var segment := LoadChunk(up, c.domains, c.periodEnd, end, calls);
      ChunkCalls(up, c.domains, c.periodEnd, end, calls);
      MonthCallsStep(Ceil(|c.domains|, BATCH_SIZE), chunks);
      if segment.usage.Some? && MergedBandwidth(c.aggregate, segment.usage.value).Success? {
        var next := c.(periodEnd := end, aggregate := MergedBandwidth(c.aggregate, segment.usage.value).value);
        assert target - end <= (chunks - 1) * BACKFILL;
        ExtendCalls(up, next, target, segment.calls, chunks - 1);
      }
    }
  }

  lemma TenChunks(c: MonthBandwidth, domains: seq<string>, today: int)
    requires IsMidnight(today)
    ensures today - Reset(c, domains, today).periodEnd <= 10 * BACKFILL && Reset(c, domains, today).domains == domains
  {
    MonthStartProperties(today);
  }

  /** At most ten three-day windows: 151 requests per batch of fifty, for every day, cached boundary and failure. */
  lemma LoadCalls(up: Upstream, c: MonthBandwidth, domains: seq<string>, today: int, calls: nat)
    requires IsMidnight(today)
    ensures calls <= Load(up, c, domains, today, calls).calls <= calls + 151 * Ceil(|domains|, BATCH_SIZE)
  {
    hide Reset, Extend, Ceil, IsMidnight;
    TenChunks(c, domains, today);
    ExtendCalls(up, Reset(c, domains, today), today, calls, 10);
    assert MonthCalls(Ceil(|domains|, BATCH_SIZE), 10) == 151 * Ceil(|domains|, BATCH_SIZE);
  }
}
