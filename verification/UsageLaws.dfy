/** Laws of the usage round: window coverage, month-to-date bandwidth, and conservation of traffic (internal/app/cdn.go). */
module UsageLaws {
  import opened Core
  import opened Clock
  import opened UsagePoints
  import opened Usage
  import opened UsageTable
  import opened CdnMerge
  import opened Isolation
  import opened Metering
  import opened MonitoringRound
  import opened UsageSnapshot
  import opened MonthCache

  // ---- Coverage ----

  type Answers = seq<(seq<string>, Monitored)>

  /** Answered batches as a round leaves them: usable, non-empty, without a repeated domain. */
  ghost predicate Answered(answers: Answers, w: Window) {
    && |answers| > 0 && NoDuplicates(Flatten(Firsts(answers)))
    && forall i :: 0 <= i < |answers| ==> Usable(answers[i].1, answers[i].0, w)
  }

  /** Every response starts at the midnight the query asked for. */
  ghost predicate StartsAtMidnight(answers: Answers, w: Window) {
    forall i :: 0 <= i < |answers| ==> StartsAt(answers[i].1, w.startDay * DAY)
  }

  predicate StartsAt(m: Monitored, start: int) {
    |m.bandwidth.times| > 0 && m.bandwidth.times[0] == start && |m.traffic.times| > 0 && m.traffic.times[0] == start
  }

  lemma CountPair(xs: seq<string>, i: nat, j: nat)
    requires i < j < |xs|
    ensures xs[i] == xs[j] ==> multiset(xs)[xs[i]] >= 2
  {
    assert xs == xs[..j] + [xs[j]] + xs[j + 1..];
    assert xs[i] in xs[..j];
  }

  /** Part of a duplicate-free collection is duplicate-free. */
  lemma PartNoDuplicates(part: seq<string>, rest: seq<string>, whole: seq<string>)
    requires multiset(part) + multiset(rest) == multiset(whole) && NoDuplicates(whole)
    ensures NoDuplicates(part)
  {
    forall i, j | 0 <= i < j < |part|
      ensures part[i] != part[j]
    {
      CountPair(part, i, j);
      OccursOnce(whole, part[i]);
      assert multiset(whole)[part[i]] == multiset(part)[part[i]] + multiset(rest)[part[i]];
    }
  }

  /** A round over a scope without duplicates leaves answered batches. */
  lemma RoundIsAnswered(up: MonitoringRound.Upstream, w: Window, bad: map<string, Error>, scope: seq<string>, calls: nat)
    requires NoDuplicates(scope)
    ensures var o := RoundOutcome(FetchMonitoring(up, w), bad, Chunks(scope, BATCH_SIZE), calls);
      && (|o.succeeded| > 0 ==> Answered(o.succeeded, w))
      && (o.failed == [] ==> Flatten(Firsts(o.succeeded)) == scope)
  {
    hide RoundOutcome, NoDuplicates, Usable;
    var o := RoundOutcome(FetchMonitoring(up, w), bad, Chunks(scope, BATCH_SIZE), calls);
    ChunksProperties(scope, BATCH_SIZE);
    RoundFates(FetchMonitoring(up, w), bad, Chunks(scope, BATCH_SIZE), calls);
    PartNoDuplicates(Succeeded(o), Failed(o), scope);
    forall i | 0 <= i < |o.succeeded|
      ensures Usable(o.succeeded[i].1, o.succeeded[i].0, w)
    {
      RoundIsUsable(up, w, bad, Chunks(scope, BATCH_SIZE), calls, i);
    }
  }

  /** The chosen bucket end lies on the response's own grid, within it, and no later than the safe point. */
  lemma LatestEndBounds(times: seq<int>, safeBefore: int)
    requires IsGrid(times, FiveMinutes) && times[0] + FIVE_MINUTES <= safeBefore
    ensures times[0] < LatestEnd(times, safeBefore) <= times[0] + |times| * FIVE_MINUTES
    ensures LatestEnd(times, safeBefore) <= safeBefore
    ensures Aligned(FiveMinutes, LatestEnd(times, safeBefore))
  {
    hide IsGrid, Aligned;
    FirstIsAligned(times);
    var t0, x := times[0], safeBefore - times[0];
    AlignedShift(t0, |times|);
    AlignedShift(t0, x / FIVE_MINUTES);
    QuotientBounds(x);
  }

  lemma AlignedShift(t: int, k: int)
    requires Aligned(FiveMinutes, t)
    ensures Aligned(FiveMinutes, t + k * FIVE_MINUTES) && (k >= 1 ==> t < t + k * FIVE_MINUTES)
  {
    hide Aligned;
    AlignedIsMultiple(FiveMinutes, t);
    AlignedIsMultiple(FiveMinutes, t + k * FIVE_MINUTES);
    ModShift(t, k, FIVE_MINUTES);
  }

  lemma QuotientBounds(x: int)
    ensures Truncate(x, FIVE_MINUTES) == x / FIVE_MINUTES * FIVE_MINUTES <= x
    ensures x >= FIVE_MINUTES ==> x / FIVE_MINUTES >= 1
  {
  }

  lemma FirstIsAligned(times: seq<int>)
    requires IsGrid(times, FiveMinutes)
    ensures |times| > 0 && Aligned(FiveMinutes, times[0])
  {
  }

  /** A usable batch that starts early enough covers every aligned period that ends with the round's data. */
  lemma BatchCovers(m: Monitored, domains: seq<string>, w: Window, start: int, end: int)
    requires Usable(m, domains, w) && StartsAt(m, w.startDay * DAY)
    requires ValidPeriod(FiveMinutes, start, end) && end <= m.dataAt
    ensures ValidBatch(Batch(domains, m.bandwidth), FiveMinutes, start, end) <==> w.startDay * DAY <= start
    ensures ValidBatch(Batch(domains, m.traffic), FiveMinutes, start, end) <==> w.startDay * DAY <= start
  {
    hide Aligned, IsGrid, LatestEnd, ValidDomains;
    LatestEndBounds(m.bandwidth.times, w.safeBefore);
    LatestEndBounds(m.traffic.times, w.safeBefore);
  }

  lemma CommonEndBounds(answers: Answers, w: Window)
    requires Answered(answers, w)
    ensures CommonEnd(answers).Some? && CommonEnd(answers).value <= w.safeBefore && Aligned(FiveMinutes, CommonEnd(answers).value)
    ensures forall i :: 0 <= i < |answers| ==> CommonEnd(answers).value <= answers[i].1.dataAt
  {
    hide NoDuplicates, Flatten, Firsts, CommonEnd, Aligned, IsGrid, LatestEnd, ValidDomains;
    CommonEndIsLeast(answers);
    var i :| 0 <= i < |answers| && CommonEnd(answers).value == answers[i].1.dataAt;
    LatestEndBounds(answers[i].1.bandwidth.times, w.safeBefore);
  }

  /** All batches together cover a period exactly when it does not start before the queried midnight. */
  lemma RoundCovers(answers: Answers, w: Window, start: int, end: int)
    requires Answered(answers, w) && StartsAtMidnight(answers, w)
    requires ValidPeriod(FiveMinutes, start, end) && end <= CommonEnd(answers).value
    ensures ValidBatches(RoundOf(answers).bandwidth, FiveMinutes, start, end) <==> w.startDay * DAY <= start
    ensures ValidBatches(RoundOf(answers).traffic, FiveMinutes, start, end) <==> w.startDay * DAY <= start
  {
    hide NoDuplicates, Firsts, CommonEnd, Aligned, Usable, StartsAt, ValidBatch, Flatten, Domains;
    RoundDomains(answers);
    CommonEndBounds(answers, w);
    forall i | 0 <= i < |answers|
      ensures ValidBatch(RoundOf(answers).bandwidth[i], FiveMinutes, start, end) <==> w.startDay * DAY <= start
      ensures ValidBatch(RoundOf(answers).traffic[i], FiveMinutes, start, end) <==> w.startDay * DAY <= start
    {
      BatchCovers(answers[i].1, answers[i].0, w, start, end);
    }
    assert RoundOf(answers).bandwidth[0] == Batch(answers[0].0, answers[0].1.bandwidth);
    assert RoundOf(answers).traffic[0] == Batch(answers[0].0, answers[0].1.traffic);
  }

  lemma HourAligned(t: int)
    ensures ValidPeriod(FiveMinutes, HourStart(t), HourEnd(t)) && HourEnd(t) <= t
  {
    var q := t / HOUR;
    assert HourEnd(t) == (q * 12) * FIVE_MINUTES && HourStart(t) == (q * 12 - 12) * FIVE_MINUTES;
    ModOfMultiple(q * 12, FIVE_MINUTES);
    ModOfMultiple(q * 12 - 12, FIVE_MINUTES);
    AlignedIsMultiple(FiveMinutes, HourEnd(t));
    AlignedIsMultiple(FiveMinutes, HourStart(t));
  }

  /** Exactly when the hour can be built: its start must not precede the queried midnight. */
  lemma HourCoverage(answers: Answers, w: Window)
    requires Answered(answers, w) && StartsAtMidnight(answers, w)
    ensures CommonEnd(answers).Some?
    ensures HourCovered(RoundOf(answers), CommonEnd(answers).value) <==> w.startDay * DAY <= HourStart(CommonEnd(answers).value)
  {
    hide Answered, StartsAtMidnight, CommonEnd, HourStart, HourEnd, ValidBatches;
    CommonEndBounds(answers, w);
    HourAligned(CommonEnd(answers).value);
    RoundCovers(answers, w, HourStart(CommonEnd(answers).value), HourEnd(CommonEnd(answers).value));
  }

  /** For every wall clock and source lag: data at most one hour behind the safe point keeps the hour inside the query. */
  lemma WindowAllowsAnHour(now: int, sourceLag: int, behind: int)
    requires 0 <= behind <= HOUR
    ensures var w := NewWindow(now, sourceLag);
      w.startDay * DAY <= HourStart(w.safeBefore - behind) && w.startDay * DAY <= w.todayStart && IsMidnight(w.todayStart)
  {
    hide Truncate, DayNumber, Midnight, IsMidnight;
    var w := NewWindow(now, sourceLag);
    DayFloor(now);
    DayFloor(w.todayStart);
    DayFloor(w.hourStart - HOUR);
    TruncateHour(w.safeBefore, w.safeBefore - behind);
  }

  lemma DayFloor(t: int)
    ensures DayNumber(t) * DAY <= t && IsMidnight(Midnight(t))
  {
  }

  lemma TruncateHour(safeBefore: int, t: int)
    requires safeBefore - HOUR <= t
    ensures Truncate(safeBefore, HOUR) - HOUR <= Truncate(t, HOUR)
  {
    var a, b := safeBefore / HOUR, t / HOUR;
    assert Truncate(safeBefore, HOUR) == a * HOUR && Truncate(t, HOUR) == b * HOUR;
    assert a - 1 <= b;
  }

  /** Five minutes more is too much: at 02:10 with a ten-minute source lag, data ending at 00:55 leaves the hour outside. */
  lemma WindowIsTight()
    ensures var w := NewWindow(20000 * DAY + 2 * HOUR + 10 * MINUTE, 10 * MINUTE);
      HourStart(w.safeBefore - HOUR - FIVE_MINUTES) < w.startDay * DAY
  {
  }

  /** The hour and today are always covered when the slowest batch lags at most one hour. */
  lemma HourAndTodayCovered(answers: Answers, now: int, sourceLag: int)
    requires var w := NewWindow(now, sourceLag);
      && Answered(answers, w) && StartsAtMidnight(answers, w)
      && CommonEnd(answers).Some? && w.safeBefore - HOUR <= CommonEnd(answers).value
    ensures var w, dataEnd := NewWindow(now, sourceLag), CommonEnd(answers).value;
      HourCovered(RoundOf(answers), dataEnd) && TodayCovered(RoundOf(answers), w.todayStart, dataEnd)
  {
    hide Answered, StartsAtMidnight, CommonEnd, HourCovered, ValidBatches, NewWindow, HourStart;
    var w, dataEnd := NewWindow(now, sourceLag), CommonEnd(answers).value;
    CommonEndBounds(answers, w);
    WindowAllowsAnHour(now, sourceLag, w.safeBefore - dataEnd);
    HourCoverage(answers, w);
    if w.todayStart < dataEnd {
      MidnightAligned(w.todayStart);
      RoundCovers(answers, w, w.todayStart, dataEnd);
    }
  }

  // ---- A cooperative upstream ----

  /** Every well-formed query is answered, except those that name an invalid domain. */
  ghost predicate Cooperates(up: MonitoringRound.Upstream, w: Window, end: int, invalid: set<string>) {
    forall c, flow, n :: ValidDomains(c) ==> CooperativeAnswer(up(MonitoringQuery(c, w.startDay, w.endDay, flow), n), c, w, end, invalid)
  }

  ghost predicate CooperativeAnswer(r: Result<Response, Error>, domains: seq<string>, w: Window, end: int, invalid: set<string>) {
    if HasInvalid(domains, invalid) then Rejects(r) else AnswersUntil(r, domains, w, end)
  }

  /** Refused for an invalid domain, as an error or by the code of the response. */
  predicate Rejects(r: Result<Response, Error>) {
    r == Failure(Api(INVALID_DOMAIN)) || (r.Success? && r.value.code == INVALID_DOMAIN)
  }

  /** A valid grid from the queried midnight whose safe data ends at the given instant. */
  predicate AnswersUntil(r: Result<Response, Error>, domains: seq<string>, w: Window, end: int) {
    && r.Success? && ValidMonitoring(r.value, domains, w.safeBefore)
    && r.value.times[0] == w.startDay * DAY && LatestEnd(r.value.times, w.safeBefore) == end
  }

  /** One bucket from the queried midnight, unless an invalid domain is named. */
  ghost function OneBucketUpstream(w: Window, invalid: set<string>): MonitoringRound.Upstream {
    (q: MonitoringQuery, n: nat) =>
      if HasInvalid(q.domains, invalid) then Failure(Api(INVALID_DOMAIN)) else Success(Response(BUSINESS_OK, [w.startDay * DAY], map[]))
  }

  /** Every window and every set of invalid domains has such an upstream. */
  lemma CooperationIsPossible(now: int, sourceLag: int, invalid: set<string>)
    ensures var w := NewWindow(now, sourceLag); Cooperates(OneBucketUpstream(w, invalid), w, w.startDay * DAY + FIVE_MINUTES, invalid)
  {
    hide NewWindow, ValidDomains, HasInvalid;
    var w := NewWindow(now, sourceLag);
    WindowShape(now, sourceLag);
    MidnightsAligned(FiveMinutes, w.startDay);
    hide Aligned;
    assert w.startDay * DAY + FIVE_MINUTES <= w.safeBefore;
  }

  lemma CooperativeAttempt(up: MonitoringRound.Upstream, w: Window, end: int, invalid: set<string>, domains: seq<string>, n: nat)
    requires Cooperates(up, w, end, invalid) && ValidDomains(domains)
    ensures AnswersAsExpected(FetchMonitoring(up, w), domains, n, invalid)
  {
    var bandwidth, traffic := MonitoringQuery(domains, w.startDay, w.endDay, false), MonitoringQuery(domains, w.startDay, w.endDay, true);
    assert CooperativeAnswer(up(bandwidth, n), domains, w, end, invalid) && CooperativeAnswer(up(traffic, n + 1), domains, w, end, invalid);
    hide HasInvalid, ValidDomains, ValidResponse, IsGrid, LatestEnd, Cooperates;
  }

  lemma CooperativeSearch(up: MonitoringRound.Upstream, w: Window, end: int, invalid: set<string>, active: seq<string>)
    requires Cooperates(up, w, end, invalid) && ValidDomains(active)
    ensures RejectsExactly(FetchMonitoring(up, w), active, invalid)
  {
    hide Cooperates, AnswersAsExpected;
    forall i: nat, j: nat, n: nat | i < j <= |active|
      ensures AnswersAsExpected(FetchMonitoring(up, w), active[i..j], n, invalid)
    {
      CooperativeAttempt(up, w, end, invalid, active[i..j], n);
    }
  }

  lemma {:induction false} ActivePart(bad: map<string, Error>, domains: seq<string>)
    requires NoDuplicates(domains)
    ensures NoDuplicates(Active(bad, domains)) && |Active(bad, domains)| <= |domains|
  {
    if |domains| > 0 {
      var init := domains[..|domains| - 1];
      ActivePart(bad, init);
      ActiveMembers(bad, init, domains[|domains| - 1]);
      LastIsFresh(domains);
    }
  }

  lemma {:induction false} NothingBanned(domains: seq<string>)
    ensures Active(map[], domains) == domains
  {
    if |domains| > 0 {
      NothingBanned(domains[..|domains| - 1]);
    }
  }

  /** The invalid domains a batch has not met before are few enough for its sixteen attempts. */
  ghost predicate WithinBudget(bad: map<string, Error>, batches: seq<seq<string>>, invalid: set<string>) {
    forall b :: 0 <= b < |batches| ==> FewInvalid(Active(bad, batches[b]), invalid)
  }

  ghost predicate FewInvalid(active: seq<string>, invalid: set<string>) {
    |active| > 0 ==> WorstCost(active, invalid) <= ATTEMPT_LIMIT
  }

  /** One unknown invalid domain in every batch of fifty is within budget. */
  lemma OneUnknownIsWithinBudget(bad: map<string, Error>, scope: seq<string>, invalid: set<string>)
    requires NoDuplicates(scope)
    requires forall b :: 0 <= b < |Chunks(scope, BATCH_SIZE)| ==> |Keep(Active(bad, Chunks(scope, BATCH_SIZE)[b]), invalid, true)| <= 1
    ensures WithinBudget(bad, Chunks(scope, BATCH_SIZE), invalid)
  {
    hide Keep, Chunks, WorstCost, Active, ValidDomains;
    var batches := Chunks(scope, BATCH_SIZE);
    DomainsOfChunks(scope);
    forall b | 0 <= b < |batches|
      ensures FewInvalid(Active(bad, batches[b]), invalid)
    {
      ValidPart(bad, batches[b]);
      if |Active(bad, batches[b])| > 0 {
        OneInvalidCost(Active(bad, batches[b]), invalid);
      }
    }
  }

  lemma ValidPart(bad: map<string, Error>, domains: seq<string>)
    requires ValidDomains(domains)
    ensures |Active(bad, domains)| <= BATCH_SIZE && (|Active(bad, domains)| > 0 ==> ValidDomains(Active(bad, domains)))
  {
    hide NoDuplicates;
    ActivePart(bad, domains);
  }

  lemma CooperativeBatches(up: MonitoringRound.Upstream, w: Window, end: int, invalid: set<string>, bad: map<string, Error>, scope: seq<string>, b: nat)
    requires Cooperates(up, w, end, invalid) && NoDuplicates(scope) && WithinBudget(bad, Chunks(scope, BATCH_SIZE), invalid)
    requires b < |Chunks(scope, BATCH_SIZE)|
    ensures SearchesWell(FetchMonitoring(up, w), Active(bad, Chunks(scope, BATCH_SIZE)[b]), invalid)
  {
    hide Cooperates, ValidDomains, Active, RejectsExactly, WorstCost, Chunks;
    var domains := Chunks(scope, BATCH_SIZE)[b];
    DomainsOfChunks(scope);
    ValidPart(bad, domains);
    assert FewInvalid(Active(bad, Chunks(scope, BATCH_SIZE)[b]), invalid);
    if |Active(bad, domains)| > 0 {
      CooperativeSearch(up, w, end, invalid, Active(bad, domains));
    }
  }

  /** An answered batch starts at the queried midnight and ends at the common instant. */
  lemma CooperativePayload(up: MonitoringRound.Upstream, w: Window, end: int, invalid: set<string>, domains: seq<string>, m: Monitored, n: nat)
    requires Cooperates(up, w, end, invalid) && Usable(m, domains, w) && WasAsked(up, w, domains, m, n)
    ensures StartsAt(m, w.startDay * DAY) && m.dataAt == end
  {
    var bandwidth, traffic := MonitoringQuery(domains, w.startDay, w.endDay, false), MonitoringQuery(domains, w.startDay, w.endDay, true);
    assert CooperativeAnswer(up(bandwidth, n), domains, w, end, invalid) && CooperativeAnswer(up(traffic, n + 1), domains, w, end, invalid);
    hide HasInvalid, ValidDomains, IsGrid, LatestEnd, Cooperates;
  }

  /** Every domain is answered, known or unknown to be invalid, and lands where it belongs. */
  ghost predicate Sorted(o: Outcome<Monitored>, bad: map<string, Error>, scope: seq<string>, invalid: set<string>) {
    && Succeeded(o) == Keep(Active(bad, scope), invalid, false) && o.invalid == Keep(Active(bad, scope), invalid, true)
    && forall d :: Placed(o, bad, scope, invalid, d)
  }

  ghost predicate Placed(o: Outcome<Monitored>, bad: map<string, Error>, scope: seq<string>, invalid: set<string>, d: string) {
    && (d in Succeeded(o) <==> d in scope && d !in bad && d !in invalid)
    && (d in Failed(o) <==> d in scope && (d in bad || d in invalid))
    && (d in Marked(bad, o) <==> d in bad || (d in scope && d in invalid))
  }

  /**
   * Main law: when the upstream rejects exactly the requests that name an invalid domain, a round collects every other
   * domain, remembers exactly the invalid ones, and its answered batches meet what the coverage laws ask of them.
   */
  lemma RejectingRound(up: MonitoringRound.Upstream, w: Window, end: int, invalid: set<string>, bad: map<string, Error>, scope: seq<string>,
                       calls: nat)
    requires Cooperates(up, w, end, invalid) && NoDuplicates(scope) && WithinBudget(bad, Chunks(scope, BATCH_SIZE), invalid)
    ensures var o := RoundOutcome(FetchMonitoring(up, w), bad, Chunks(scope, BATCH_SIZE), calls);
      && Sorted(o, bad, scope, invalid)
      && (|o.succeeded| > 0 ==> Answered(o.succeeded, w) && StartsAtMidnight(o.succeeded, w) && CommonEnd(o.succeeded) == Some(end))
  {
    hide Cooperates, RoundOutcome, Answered, NoDuplicates, Chunks, CommonEnd, StartsAt, Flatten, Firsts, SearchesWell, Usable, WasAsked,
         Keep, Active, Marked, Succeeded, Failed, WithinBudget, Placed;
    var fetch, batches := FetchMonitoring(up, w), Chunks(scope, BATCH_SIZE);
    var o := RoundOutcome(fetch, bad, batches, calls);
    ChunksProperties(scope, BATCH_SIZE);
    forall b | 0 <= b < |batches|
      ensures SearchesWell(fetch, Active(bad, batches[b]), invalid)
    {
      CooperativeBatches(up, w, end, invalid, bad, scope, b);
    }
    RoundCollects(fetch, bad, batches, calls, invalid);
    forall d
      ensures Placed(o, bad, scope, invalid, d)
    {
      RoundPlaces(fetch, bad, batches, calls, invalid, d);
    }
    RoundIsAnswered(up, w, bad, scope, calls);
    forall i | 0 <= i < |o.succeeded|
      ensures StartsAt(o.succeeded[i].1, w.startDay * DAY) && o.succeeded[i].1.dataAt == end
    {
      RoundIsUsable(up, w, bad, batches, calls, i);
      var n: nat :| WasAsked(up, w, o.succeeded[i].0, o.succeeded[i].1, n);
      CooperativePayload(up, w, end, invalid, o.succeeded[i].0, o.succeeded[i].1, n);
    }
    CommonEndIsLeast(o.succeeded);
  }

  lemma RoundPlaces(fetch: Fetch<Monitored>, bad: map<string, Error>, batches: seq<seq<string>>, calls: nat, invalid: set<string>, d: string)
    requires NoDuplicates(Flatten(batches))
    requires forall b :: 0 <= b < |batches| ==> SearchesWell(fetch, Active(bad, batches[b]), invalid)
    ensures Placed(RoundOutcome(fetch, bad, batches, calls), bad, Flatten(batches), invalid, d)
  {
    hide RoundOutcome, SearchesWell, Active, Marked, Succeeded, Failed, Flatten, NoDuplicates;
    RoundSeparates(fetch, bad, batches, calls, invalid, d);
  }

  /** With no invalid domain at all the round is complete. */
  lemma CooperativeRound(up: MonitoringRound.Upstream, w: Window, end: int, scope: seq<string>, calls: nat)
    requires Cooperates(up, w, end, {}) && NoDuplicates(scope) && |scope| > 0
    ensures var o := RoundOutcome(FetchMonitoring(up, w), map[], Chunks(scope, BATCH_SIZE), calls);
      && o.failed == [] && |o.succeeded| > 0 && Flatten(Firsts(o.succeeded)) == scope
      && Answered(o.succeeded, w) && StartsAtMidnight(o.succeeded, w) && CommonEnd(o.succeeded) == Some(end)
  {
    hide Cooperates, RoundOutcome, Answered, NoDuplicates, Chunks, CommonEnd, StartsAtMidnight, Marked, Keep, Active;
    var o := RoundOutcome(FetchMonitoring(up, w), map[], Chunks(scope, BATCH_SIZE), calls);
    forall b | 0 <= b < |Chunks(scope, BATCH_SIZE)|
      ensures |Keep(Active(map[], Chunks(scope, BATCH_SIZE)[b]), {}, true)| <= 1
    {
      NoneInvalid(Active(map[], Chunks(scope, BATCH_SIZE)[b]));
    }
    OneUnknownIsWithinBudget(map[], scope, {});
    RejectingRound(up, w, end, {}, map[], scope, calls);
    NothingBanned(scope);
    NoneInvalid(scope);
    ChunksProperties(scope, BATCH_SIZE);
    RoundFates(FetchMonitoring(up, w), map[], Chunks(scope, BATCH_SIZE), calls);
    assert |multiset(scope)| == |multiset(Succeeded(o))| + |multiset(Failed(o))|;
  }

  /** Then it makes exactly two requests for each batch of fifty. */
  lemma CooperativeCalls(up: MonitoringRound.Upstream, w: Window, end: int, scope: seq<string>, calls: nat)
    requires Cooperates(up, w, end, {}) && NoDuplicates(scope)
    ensures RoundOutcome(FetchMonitoring(up, w), map[], Chunks(scope, BATCH_SIZE), calls).calls == calls + 2 * Ceil(|scope|, 50)
  {
    hide Cooperates, RoundOutcome, NoDuplicates, Chunks, ValidDomains, Ceil;
    ChunksProperties(scope, BATCH_SIZE);
    DomainsOfChunks(scope);
    CooperativeBatchCalls(up, w, end, Chunks(scope, BATCH_SIZE), calls);
  }

  lemma {:induction false} CooperativeBatchCalls(up: MonitoringRound.Upstream, w: Window, end: int, batches: seq<seq<string>>, calls: nat)
    requires Cooperates(up, w, end, {}) && forall b :: 0 <= b < |batches| ==> ValidDomains(batches[b])
    ensures var o := RoundOutcome(FetchMonitoring(up, w), map[], batches, calls); o.invalid == [] && o.calls == calls + 2 * |batches|
  {
    if |batches| > 0 {
      hide Cooperates, Isolate, ValidDomains, Ask, Active, Banned;
      var init, last := batches[..|batches| - 1], batches[|batches| - 1];
      var earlier := RoundOutcome(FetchMonitoring(up, w), map[], init, calls);
      CooperativeBatchCalls(up, w, end, init, calls);
      NothingInvalid(map[]);
      NothingBanned(last);
      assert ValidDomains(last) && |last| > 0 by { assert ValidDomains(batches[|batches| - 1]); NotEmpty(last); }
      CooperativeAttemptCalls(up, w, end, last, earlier.calls);
      IsolateLeaf(FetchMonitoring(up, w), ATTEMPT_LIMIT, last, 0, earlier.calls);
    }
  }

  lemma NotEmpty(domains: seq<string>)
    requires ValidDomains(domains)
    ensures |domains| > 0
  {
  }

  lemma CooperativeAttemptCalls(up: MonitoringRound.Upstream, w: Window, end: int, domains: seq<string>, n: nat)
    requires Cooperates(up, w, end, {}) && ValidDomains(domains)
    ensures Ask(up, w, domains, n).result.Success? && Ask(up, w, domains, n).calls == 2
  {
    hide Cooperates, AnswersAsExpected, Ask, ValidDomains;
    NoneInvalid(domains);
    CooperativeAnswered(up, w, end, domains, n);
    AnsweredAsksTwice(up, w);
    assert FetchMonitoring(up, w)(domains, n) == Ask(up, w, domains, n);
    TwoRequestsPerAttempt(up, w);
  }

  lemma CooperativeAnswered(up: MonitoringRound.Upstream, w: Window, end: int, domains: seq<string>, n: nat)
    requires Cooperates(up, w, end, {}) && ValidDomains(domains)
    ensures Ask(up, w, domains, n).result.Success?
  {
    hide Cooperates, Ask, ValidDomains;
    NoneInvalid(domains);
    CooperativeAttempt(up, w, end, {}, domains, n);
  }

  // ---- The month part ----

  /** A period inside a valid one is valid. */
  lemma SubPeriod(batches: seq<Batch>, g: Granularity, a: int, b: int, c: int, d: int)
    requires ValidBatches(batches, g, a, d) && a <= b < c <= d && Aligned(g, b) && Aligned(g, c)
    ensures ValidBatches(batches, g, b, c)
  {
    hide Aligned, ValidDomains, ValidResponse, NoDuplicates, Domains;
    forall i | 0 <= i < |batches|
      ensures ValidBatch(batches[i], g, b, c)
    {
      assert ValidBatch(batches[i], g, a, d);
    }
  }

  lemma DayAligned(t: int)
    ensures Aligned(Day, t) <==> IsMidnight(t)
  {
    AlignedIsMultiple(Day, t);
  }

  lemma {:induction false} MonthCoversDays(prior: seq<Batch>, monthStart: int, start: int, today: int)
    requires monthStart < today ==> ValidBatches(prior, Day, monthStart, today)
    requires monthStart <= start && IsMidnight(start) && IsMidnight(today)
    ensures DaysValid(prior, start, today)
    decreases today - start
  {
    hide ValidBatches, Aligned;
    if start < today {
      assert start + DAY <= today;
      DayAligned(start);
      DayAligned(start + DAY);
      SubPeriod(prior, Day, monthStart, start, start + DAY, today);
      MonthCoversDays(prior, monthStart, start + DAY, today);
    }
  }

  /** What the rest of a complete round supplies: the month's day series, and the cache of completed days. */
  ghost predicate MonthSupplied(month: Month, scope: seq<string>, today: int, truth: Truth) {
    && (month.includeTraffic && MonthStart(today) < today ==>
          ValidBatches(month.prior, Day, MonthStart(today), today) && Domains(month.prior) == scope)
    && (month.includeBandwidth ==>
          exists c :: Agrees(c, truth) && CacheOf(c, month, scope, today))
  }

  predicate CacheOf(c: MonthBandwidth, month: Month, scope: seq<string>, today: int) {
    c.monthStart == MonthStart(today) && c.periodEnd == today && c.domains == scope && c.aggregate == month.priorBandwidth
  }

  /** Month-to-date bandwidth is the one-shot aggregate of the whole month so far, completed days and today alike. */
  lemma MonthBandwidthIsOneShot(c: MonthBandwidth, round: UsageRound, today: int, dataEnd: int, truth: Truth)
    requires Agrees(c, truth) && IsMidnight(today) && c.monthStart == MonthStart(today) && c.periodEnd == today && today < dataEnd
    requires ValidBatches(round.bandwidth, FiveMinutes, today, dataEnd) && HonestBatches(round.bandwidth, truth)
    requires Domains(round.bandwidth) == c.domains
    ensures MergedBandwidth(c.aggregate, TodayBandwidth(round, today, dataEnd))
         == Success(BandwidthUsage(c.domains, c.monthStart, dataEnd, TruthRows(c.domains, truth, FiveMinutes, c.monthStart, dataEnd)))
  {
    hide BandwidthUsage, MergedBandwidth, BandwidthFinite, Aligned, GridPoints, TruthRow, Rows, HonestBatches, Domains, MonthStart;
    MonthStartProperties(today);
    MidnightAligned(c.monthStart);
    MidnightAligned(today);
    RowsAreTruth(round.bandwidth, FiveMinutes, today, dataEnd, truth);
    var top := TruthRows(c.domains, truth, FiveMinutes, c.monthStart, today);
    var bottom := TruthRows(c.domains, truth, FiveMinutes, today, dataEnd);
    RowsSpan(c.monthStart, today);
    RowsSpan(today, dataEnd);
    MergeIsConcatenation(c.domains, c.monthStart, today, dataEnd, top, bottom);
    TruthRowsSplit(c.domains, truth, FiveMinutes, c.monthStart, today, dataEnd);
  }

  /** Without assuming the round honest, the merge still never meets different domains. */
  lemma CacheMergesWithToday(c: MonthBandwidth, round: UsageRound, today: int, dataEnd: int, truth: Truth)
    requires Agrees(c, truth) && today < dataEnd && Domains(round.bandwidth) == c.domains
    ensures MergedBandwidth(c.aggregate, TodayBandwidth(round, today, dataEnd)).Success?
  {
    hide BandwidthFinite, TruthRows, Rows, Domains, DomainPeak;
    NamesOf(c.domains, c.monthStart, c.periodEnd, TruthRows(c.domains, truth, FiveMinutes, c.monthStart, c.periodEnd));
    NamesOf(c.domains, today, dataEnd, Rows(round.bandwidth, FiveMinutes, today, dataEnd));
  }

  /**
   * Main law: whenever the slowest batch lags at most one hour and the day series covers the completed days, building
   * the snapshot cannot fail with a coverage or alignment error.
   */
  lemma SnapshotIsCovered(answers: Answers, month: Month, scope: seq<string>, now: int, sourceLag: int, truth: Truth)
    requires var w := NewWindow(now, sourceLag);
      && Answered(answers, w) && StartsAtMidnight(answers, w)
      && CommonEnd(answers).Some? && w.safeBefore - HOUR <= CommonEnd(answers).value
      && Flatten(Firsts(answers)) == scope && MonthSupplied(month, scope, w.todayStart, truth)
    ensures var w, dataEnd := NewWindow(now, sourceLag), CommonEnd(answers).value;
      && dataEnd <= w.safeBefore && |RoundOf(answers).bandwidth| > 0 && |RoundOf(answers).traffic| > 0
      && Covered(RoundOf(answers), month, w.todayStart, dataEnd)
  {
    hide StartsAtMidnight, CommonEnd, HourCovered, TodayCovered, ValidBatches, NewWindow, Usable, MonthStart, Agrees, MergedBandwidth,
         TodayBandwidth, Firsts, Domains, Flatten, DaysValid;
    var w, dataEnd := NewWindow(now, sourceLag), CommonEnd(answers).value;
    CommonEndBounds(answers, w);
    HourAndTodayCovered(answers, now, sourceLag);
    RoundDomains(answers);
    WindowAllowsAnHour(now, sourceLag, w.safeBefore - dataEnd);
    MonthStartProperties(w.todayStart);
    if month.includeTraffic && month.complete {
      MonthCoversDays(month.prior, MonthStart(w.todayStart), MonthStart(w.todayStart), w.todayStart);
    }
    if month.includeBandwidth && w.todayStart < dataEnd {
      var c :| Agrees(c, truth) && CacheOf(c, month, scope, w.todayStart);
      CacheMergesWithToday(c, RoundOf(answers), w.todayStart, dataEnd, truth);
    }
  }

  // ---- Conservation ----

  function BytesOfDays(days: seq<DailyTraffic>): seq<real> {
    seq(|days|, i requires 0 <= i < |days| => days[i].bytes)
  }

  lemma AccountOverPeriod(batches: seq<Batch>, g: Granularity, a: int, b: int, c: int)
    requires a <= b <= c && Aligned(g, a) && Aligned(g, b) && Aligned(g, c)
    ensures TrafficOf(batches, g, a, c).accountBytes == TrafficOf(batches, g, a, b).accountBytes + TrafficOf(batches, g, b, c).accountBytes
    ensures TrafficOf(batches, g, a, a).accountBytes == 0.0
  {
    var top, bottom := Rows(batches, g, a, b), Rows(batches, g, b, c);
    assert (a - a) / Step(g) == 0;
    assert Rows(batches, g, a, a) == [];
    hide Aligned, Rows, TrafficUsage, Sum;
    RowsSplit(batches, g, a, b, c);
    AccountIsBucketSum(Domains(batches), a, b, top);
    AccountIsBucketSum(Domains(batches), b, c, bottom);
    AccountIsBucketSum(Domains(batches), a, c, top + bottom);
    ColumnConcat(top, bottom, 0);
    SumConcat(Totals(top), Totals(bottom));
    ZeroAccount(Domains(batches), a, a, []);
  }

  /** The listed days are the days from start to today, and their bytes add up to the completed days plus today. */
  lemma {:induction false} DaysAddUp(prior: seq<Batch>, todayBytes: real, start: int, today: int)
    requires start <= today && IsMidnight(start) && IsMidnight(today)
    ensures var days := DailyOf(prior, todayBytes, start, today);
      && |days| == DayNumber(today) - DayNumber(start) + 1
      && (forall i :: 0 <= i < |days| ==> days[i].day == DayNumber(start) + i)
      && Sum(BytesOfDays(days)) == TrafficOf(prior, Day, start, today).accountBytes + todayBytes
    decreases today - start
  {
    hide TrafficOf, Sum, Aligned;
    DayAligned(start);
    DayAligned(today);
    var days := DailyOf(prior, todayBytes, start, today);
    if start >= today {
      AccountOverPeriod(prior, Day, start, start, start);
      assert BytesOfDays(days) == [todayBytes];
      SumAppend([], todayBytes);
      assert [] + [todayBytes] == [todayBytes];
      SumZeros([]);
    } else {
      DayAligned(start + DAY);
      var rest := DailyOf(prior, todayBytes, start + DAY, today);
      var first := TrafficOf(prior, Day, start, start + DAY).accountBytes;
      DaysAddUp(prior, todayBytes, start + DAY, today);
      AccountOverPeriod(prior, Day, start, start + DAY, today);
      assert BytesOfDays(days) == [first] + BytesOfDays(rest);
      SumConcat([first], BytesOfDays(rest));
      SumAppend([], first);
      assert [] + [first] == [first];
      SumZeros([]);
    }
  }

  ghost predicate BytesAreRegions(t: TrafficAggregate) {
    && t.accountBytes == Sum(DomainBytes(t.domains))
    && forall i :: 0 <= i < |t.domains| ==> t.domains[i].bytes == t.domains[i].china + t.domains[i].oversea
  }

  lemma UsageAddsUp(domains: seq<string>, start: int, end: int, rows: seq<seq<Cell>>)
    ensures BytesAreRegions(TrafficUsage(domains, start, end, rows))
  {
    hide Sum;
  }

  lemma ZeroAddsUp(domains: seq<string>, at: int)
    ensures BytesAreRegions(ZeroTraffic(domains, at))
  {
    SumZeros(DomainBytes(ZeroTraffic(domains, at).domains));
  }

  lemma MergeAddsUp(prior: TrafficAggregate, today: TrafficAggregate)
    requires SameTrafficDomains(prior, today) && BytesAreRegions(prior) && BytesAreRegions(today)
    ensures BytesAreRegions(MergedTraffic(prior, today))
    ensures MergedTraffic(prior, today).accountBytes == prior.accountBytes + today.accountBytes
  {
    hide Sum;
    var merged := MergedTraffic(prior, today);
    SumPointwise(DomainBytes(prior.domains), DomainBytes(today.domains), DomainBytes(merged.domains));
  }

  lemma TodayAddsUp(round: UsageRound, today: int, dataEnd: int)
    ensures BytesAreRegions(TodayTraffic(round, today, dataEnd))
  {
    hide BytesAreRegions, TrafficUsage, ZeroTraffic;
    if today < dataEnd {
      UsageAddsUp(Domains(round.traffic), today, dataEnd, Rows(round.traffic, FiveMinutes, today, dataEnd));
    } else {
      ZeroAddsUp(Domains(round.traffic), today);
    }
  }

  /**
   * Main law: in a complete snapshot with month traffic the days are exactly those from the first of the month to today,
   * and their bytes, the account's month-to-date bytes and the two regions of all domains are one and the same total.
   */
  lemma Conservation(s: Snapshot, round: UsageRound, month: Month, today: int, dataEnd: int)
    requires IsSnapshot(s, round, month, today, dataEnd) && month.complete && month.includeTraffic && IsMidnight(today)
    ensures |s.dailyTraffic| == DayOfMonth(DayNumber(today))
    ensures forall i :: 0 <= i < |s.dailyTraffic| ==> s.dailyTraffic[i].day == DayNumber(MonthStart(today)) + i
    ensures Sum(BytesOfDays(s.dailyTraffic)) == s.periods[2].traffic.accountBytes
    ensures BytesAreRegions(s.periods[2].traffic)
  {
    MonthStartProperties(today);
    var start, todayTraffic := MonthStart(today), TodayTraffic(round, today, dataEnd);
    assert DayNumber(start) == DayNumber(today) - (DayOfMonth(DayNumber(today)) - 1);
    hide MonthStart, DayOfMonth, BytesAreRegions, Sum, TodayTraffic, DailyOf, HourUsage, TrafficUsage, MergedTraffic, SameTrafficDomains;
    TodayAddsUp(round, today, dataEnd);
    DaysAddUp(month.prior, todayTraffic.accountBytes, start, today);
    if start < today {
      UsageAddsUp(Domains(month.prior), start, today, Rows(month.prior, Day, start, today));
      MergeAddsUp(TrafficOf(month.prior, Day, start, today), todayTraffic);
    } else {
      DayAligned(today);
      AccountOverPeriod(month.prior, Day, today, today, today);
    }
  }
}
