/** One monitoring round: its window, its two queries per attempt, and what it hands to the usage snapshot (internal/app/cdn.go). */
module MonitoringRound {
  import opened Core
  import opened Clock
  import opened UsagePoints
  import opened Usage
  import opened Isolation
  import opened Metering

  // ---- The window of a round ----

  datatype Window = Window(safeBefore: int, todayStart: int, hourStart: int, hourEnd: int, startDay: int, endDay: int)

  function SafeBefore(now: int, sourceLag: int): int { Truncate(now - sourceLag, FIVE_MINUTES) }

  /** One extra hour is queried so that a lagging batch can still fill the previous complete hour. */
  function NewWindow(now: int, sourceLag: int): Window {
    var safeBefore, todayStart := SafeBefore(now, sourceLag), Midnight(now);
    var hourEnd := Truncate(safeBefore, HOUR);
    var hourStart := hourEnd - HOUR;
    var queryStart := if hourStart - HOUR < todayStart then hourStart - HOUR else todayStart;
    Window(safeBefore, todayStart, hourStart, hourEnd, DayNumber(queryStart), DayNumber(safeBefore))
  }

  /** Every instant of the window, by what it means. */
  lemma WindowShape(now: int, sourceLag: int)
    ensures var w := NewWindow(now, sourceLag);
      && w.safeBefore <= now - sourceLag < w.safeBefore + FIVE_MINUTES && w.safeBefore % FIVE_MINUTES == 0
      && w.todayStart <= now < w.todayStart + DAY && w.todayStart % DAY == 0
      && w.hourEnd <= w.safeBefore < w.hourEnd + HOUR && w.hourEnd % HOUR == 0 && w.hourStart == w.hourEnd - HOUR
      && w.startDay * DAY <= w.todayStart && w.startDay * DAY <= w.hourStart - HOUR
      && (w.todayStart < (w.startDay + 1) * DAY || w.hourStart - HOUR < (w.startDay + 1) * DAY)
      && w.endDay * DAY <= w.safeBefore < (w.endDay + 1) * DAY
  {
    hide DayNumber, Truncate, Midnight;
    var w := NewWindow(now, sourceLag);
    TruncateBounds(now - sourceLag, FIVE_MINUTES);
    TruncateBounds(w.safeBefore, HOUR);
    DayBounds(now);
    DayBounds(w.safeBefore);
    DayBounds(w.todayStart);
    DayBounds(w.hourStart - HOUR);
  }

  lemma TruncateBounds(t: int, unit: int)
    requires unit > 0
    ensures Truncate(t, unit) <= t < Truncate(t, unit) + unit && Truncate(t, unit) % unit == 0
  {
    ModOfMultiple(t / unit, unit);
    assert t == t / unit * unit + t % unit;
  }

  lemma DayBounds(t: int)
    ensures Midnight(t) <= t < Midnight(t) + DAY && Midnight(t) % DAY == 0
    ensures DayNumber(t) * DAY <= t < (DayNumber(t) + 1) * DAY
  {
  }

  // ---- One attempt: bandwidth, then flow ----

  datatype MonitoringQuery = MonitoringQuery(domains: seq<string>, startDay: int, endDay: int, flow: bool)
  type Upstream = (MonitoringQuery, nat) -> Result<Response, Error>
  datatype Monitored = Monitored(bandwidth: Response, traffic: Response, dataAt: int)

  /** End of the last bucket of a grid that ends no later than safeBefore. */
  function LatestEnd(times: seq<int>, safeBefore: int): int
    requires |times| > 0
  {
    var end := times[0] + |times| * FIVE_MINUTES;
    if end <= safeBefore then end else Truncate(safeBefore - times[0], FIVE_MINUTES) + times[0]
  }

  predicate ValidMonitoring(r: Response, domains: seq<string>, safeBefore: int) {
    ValidDomains(domains) && ValidResponse(r, domains, FiveMinutes) && r.times[0] + FIVE_MINUTES <= safeBefore
  }

  /** Where a response's data safely ends. Validation errors other than API codes are not told apart. */
  function SafePoint(r: Response, domains: seq<string>, safeBefore: int): Result<int, Error> {
    if r.code != BUSINESS_OK then Failure(Api(r.code))
    else if ValidMonitoring(r, domains, safeBefore) then Success(LatestEnd(r.times, safeBefore))
    else Failure(SeriesMisaligned)
  }

  lemma LatestEndIs(times: seq<int>, safeBefore: int, latest: nat)
    requires IsGrid(times, FiveMinutes) && IsLatestSafe(times, safeBefore, latest)
    ensures LatestEnd(times, safeBefore) == times[latest] + FIVE_MINUTES
  {
    GridPoint(times, FiveMinutes, latest);
    if latest + 1 < |times| {
      GridPoint(times, FiveMinutes, latest + 1);
      GridPoint(times, FiveMinutes, |times| - 1);
      MulMonotone(latest + 1, |times| - 1, FIVE_MINUTES);
      QuotientIs(safeBefore - times[0], FIVE_MINUTES, latest + 1);
    }
  }

  /** Validates a response and selects its latest safe bucket. */
  method SelectLatestSafe(r: Response, domains: seq<string>, safeBefore: int) returns (end: Result<int, Error>)
    ensures end.Success? <==> SafePoint(r, domains, safeBefore).Success?
    ensures end.Success? ==> end == SafePoint(r, domains, safeBefore)
    ensures end.Failure? ==> (end.error.Api? <==> r.code != BUSINESS_OK) && (end.error.Api? ==> end == SafePoint(r, domains, safeBefore))
  {
    if r.code != BUSINESS_OK {
      return Failure(Api(r.code));
    }
    var valid := ValidateUsageDomains(domains);
    if !valid {
      return Failure(InvalidInput);
    }
    if exists d :: d in r.data && d !in domains {
      return Failure(SeriesMisaligned);
    }
    var latest := LatestSafeIndex(r.times, safeBefore);
    if latest.Failure? {
      return Failure(latest.error);
    }
    for i := 0 to |domains|
      invariant forall k :: 0 <= k < i && domains[k] in r.data ==>
                  ValidSeries(r.data[domains[k]].china, |r.times|) && ValidSeries(r.data[domains[k]].oversea, |r.times|)
    {
      if domains[i] in r.data {
        var china := ValidateSeries(r.data[domains[i]].china, |r.times|);
        if !china {
          return Failure(InvalidValue);
        }
        var oversea := ValidateSeries(r.data[domains[i]].oversea, |r.times|);
        if !oversea {
          return Failure(InvalidValue);
        }
      }
    }
    LatestEndIs(r.times, safeBefore, latest.value);
    return Success(r.times[latest.value] + FIVE_MINUTES);
  }

  /** Two requests whose data must end at the same bucket; the second is made only when the first is usable. */
  function Ask(up: Upstream, w: Window, domains: seq<string>, n: nat): Attempt<Monitored> {
    var bandwidth := up(MonitoringQuery(domains, w.startDay, w.endDay, false), n);
    if bandwidth.Failure? then Attempt(Failure(bandwidth.error), 1)
    else
      var end := SafePoint(bandwidth.value, domains, w.safeBefore);
      if end.Failure? then Attempt(Failure(end.error), 1)
      else
        var traffic := up(MonitoringQuery(domains, w.startDay, w.endDay, true), n + 1);
        if traffic.Failure? then Attempt(Failure(traffic.error), 2)
        else
          var other := SafePoint(traffic.value, domains, w.safeBefore);
          if other.Failure? then Attempt(Failure(other.error), 2)
          else if other.value != end.value then Attempt(Failure(SeriesMisaligned), 2)
          else Attempt(Success(Monitored(bandwidth.value, traffic.value, end.value)), 2)
  }

  function FetchMonitoring(up: Upstream, w: Window): Fetch<Monitored> {
    (c: seq<string>, n: nat) => Ask(up, w, c, n)
  }

  /** What the source's selection guarantees about an answered batch. */
  predicate Usable(m: Monitored, domains: seq<string>, w: Window) {
    && ValidMonitoring(m.bandwidth, domains, w.safeBefore) && ValidMonitoring(m.traffic, domains, w.safeBefore)
    && m.dataAt == LatestEnd(m.bandwidth.times, w.safeBefore) == LatestEnd(m.traffic.times, w.safeBefore)
  }

  /** The bandwidth and the flow are the answers to the two requests of one attempt. */
  predicate WasAsked(up: Upstream, w: Window, domains: seq<string>, m: Monitored, n: nat) {
    && up(MonitoringQuery(domains, w.startDay, w.endDay, false), n) == Success(m.bandwidth)
    && up(MonitoringQuery(domains, w.startDay, w.endDay, true), n + 1) == Success(m.traffic)
  }

  lemma FetchedIsUsable(up: Upstream, w: Window, domains: seq<string>, n: nat)
    requires FetchMonitoring(up, w)(domains, n).result.Success?
    ensures Usable(FetchMonitoring(up, w)(domains, n).result.value, domains, w)
    ensures WasAsked(up, w, domains, FetchMonitoring(up, w)(domains, n).result.value, n)
  {
    hide ValidMonitoring, LatestEnd;
  }

  // ---- All batches, skipping domains known to be invalid ----

  function Active(bad: map<string, Error>, domains: seq<string>): seq<string> {
    if |domains| == 0 then []
    else
      var last, earlier := domains[|domains| - 1], Active(bad, domains[..|domains| - 1]);
      if last in bad then earlier else earlier + [last]
  }

  function Banned(bad: map<string, Error>, domains: seq<string>): seq<(string, Error)> {
    if |domains| == 0 then []
    else
      var last, earlier := domains[|domains| - 1], Banned(bad, domains[..|domains| - 1]);
      if last in bad then earlier + [(last, bad[last])] else earlier
  }

  function BatchOutcome(fetch: Fetch<Monitored>, bad: map<string, Error>, domains: seq<string>, calls: nat): Outcome<Monitored> {
    var active, banned := Active(bad, domains), Banned(bad, domains);
    if |active| == 0 then Outcome([], banned, [], 0, calls)
    else
      var o := Isolate(fetch, ATTEMPT_LIMIT, active, 0, calls);
      o.(failed := banned + o.failed)
  }

  /** The negative cache a later batch reads. */
  function Marked(bad: map<string, Error>, o: Outcome<Monitored>): map<string, Error> {
    Record(bad, FailAll(o.invalid, Api(INVALID_DOMAIN)))
  }

  function RoundOutcome(fetch: Fetch<Monitored>, bad: map<string, Error>, batches: seq<seq<string>>, calls: nat): Outcome<Monitored> {
    if |batches| == 0 then Outcome([], [], [], 0, calls)
    else
      var earlier := RoundOutcome(fetch, bad, batches[..|batches| - 1], calls);
      Join(earlier, BatchOutcome(fetch, Marked(bad, earlier), batches[|batches| - 1], earlier.calls))
  }

  /** One batch, over the shared lists and the shared negative cache. */
  method CollectMonitoring(search: Search<Monitored>, fetch: Fetch<Monitored>, domains: seq<string>)
    modifies search
    ensures search.State() == After(old(search.State()), BatchOutcome(fetch, old(search.bad), domains, old(search.calls)))
  {
    hide Record, FailAll, Isolate, Active, Banned;
    ghost var before := search.State();
    var active: seq<string> := [];
    ghost var banned: seq<(string, Error)> := [];
    BannedStep(before, domains, 0);
    for i := 0 to |domains|
      invariant search.State() == before.(failed := Record(before.failed, banned))
      invariant active == Active(before.bad, domains[..i]) && banned == Banned(before.bad, domains[..i])
    {
      BannedStep(before, domains, i);
      if domains[i] in search.bad {
        banned := banned + [(domains[i], search.bad[domains[i]])];
        RecordAppend(before.failed, Banned(before.bad, domains[..i]), banned[|banned| - 1]);
        search.failed := search.failed[domains[i] := search.bad[domains[i]]];
      } else {
        active := active + [domains[i]];
      }
    }
    assert domains[..|domains|] == domains;
    search.attempts := 0;
    if |active| == 0 {
      NothingInvalid(before.bad);
      return;
    }
    ghost var o := Isolate(fetch, ATTEMPT_LIMIT, active, 0, before.calls);
    RecordConcat(before.failed, banned, o.failed);
    search.Collect(fetch, ATTEMPT_LIMIT, active);
  }

  lemma RecordAppend(failures: map<string, Error>, entries: seq<(string, Error)>, entry: (string, Error))
    ensures Record(failures, entries + [entry]) == Record(failures, entries)[entry.0 := entry.1]
  {
    assert (entries + [entry])[..|entries|] == entries;
  }

  lemma NothingInvalid(bad: map<string, Error>)
    ensures Record(bad, FailAll([], Api(INVALID_DOMAIN))) == bad
  {
    RecordOne(bad, "", Api(INVALID_DOMAIN));
  }

  lemma BannedStep(s: SearchState<Monitored>, domains: seq<string>, i: nat)
    requires i <= |domains|
    ensures Record(s.failed, []) == s.failed && Active(s.bad, domains[..0]) == [] && Banned(s.bad, domains[..0]) == []
    ensures i < |domains| ==>
              && Active(s.bad, domains[..i + 1]) == Active(s.bad, domains[..i]) + (if domains[i] in s.bad then [] else [domains[i]])
              && Banned(s.bad, domains[..i + 1]) == Banned(s.bad, domains[..i])
                   + (if domains[i] in s.bad then [(domains[i], s.bad[domains[i]])] else [])
  {
    if i < |domains| {
      assert domains[..i + 1][..i] == domains[..i];
    }
  }

  /** The round's loop over batches of fifty. */
  method CollectRound(search: Search<Monitored>, fetch: Fetch<Monitored>, domains: seq<string>)
    requires search.succeeded == [] && search.failed == map[]
    modifies search
    ensures var o := RoundOutcome(fetch, old(search.bad), Chunks(domains, BATCH_SIZE), old(search.calls));
      && search.succeeded == o.succeeded && search.failed == Record(map[], o.failed) && search.calls == o.calls
      && search.bad == Marked(old(search.bad), o)
  {
    hide Record, FailAll, BatchOutcome, Chunks;
    ghost var bad0, calls0 := search.bad, search.calls;
    var requests := Batches(domains, BATCH_SIZE);
    ghost var o := RoundOutcome(fetch, bad0, requests[..0], calls0);
    NothingInvalid(bad0);
    RecordOne(map[], "", IsolationBudget);
    for b := 0 to |requests|
      invariant o == RoundOutcome(fetch, bad0, requests[..b], calls0)
      invariant search.succeeded == o.succeeded && search.failed == Record(map[], o.failed) && search.calls == o.calls
      invariant search.bad == Marked(bad0, o)
    {
      assert requests[..b + 1][..b] == requests[..b];
      ghost var next := BatchOutcome(fetch, search.bad, requests[b], search.calls);
      RecordConcat(map[], o.failed, next.failed);
      MarkedJoin(bad0, o, next);
      CollectMonitoring(search, fetch, requests[b]);
      o := Join(o, next);
    }
    assert requests[..|requests|] == requests;
  }

  lemma MarkedJoin(bad: map<string, Error>, left: Outcome<Monitored>, right: Outcome<Monitored>)
    ensures Marked(bad, Join(left, right)) == Marked(Marked(bad, left), right)
  {
    var error := Api(INVALID_DOMAIN);
    RecordConcat(bad, FailAll(left.invalid, error), FailAll(right.invalid, error));
    assert FailAll(left.invalid + right.invalid, error) == FailAll(left.invalid, error) + FailAll(right.invalid, error);
  }

  // ---- What a round guarantees ----

  lemma {:induction false} ActiveInterleaves(bad: map<string, Error>, domains: seq<string>)
    ensures Interleaves(Active(bad, domains), Firsts(Banned(bad, domains)), domains)
  {
    if |domains| > 0 {
      var init, last := domains[..|domains| - 1], domains[|domains| - 1];
      var kept, dropped := if last in bad then [] else [last], if last in bad then [(last, bad[last])] else [];
      ActiveInterleaves(bad, init);
      assert Firsts(Banned(bad, init) + dropped) == Firsts(Banned(bad, init)) + Firsts(dropped);
      assert Firsts(dropped) == if last in bad then [last] else [];
      assert domains == init + [last];
      assert Active(bad, domains) == Active(bad, init) + kept && Banned(bad, domains) == Banned(bad, init) + dropped;
      hide Active, Banned, Firsts;
      InterleavesOneSided([last]);
      InterleavesConcat(Active(bad, init), Firsts(Banned(bad, init)), init, kept, Firsts(dropped), [last]);
    }
  }

  /** Every domain of a batch has exactly one fate. */
  lemma BatchFates(fetch: Fetch<Monitored>, bad: map<string, Error>, domains: seq<string>, calls: nat)
    ensures var o := BatchOutcome(fetch, bad, domains, calls);
      && multiset(Succeeded(o)) + multiset(Failed(o)) == multiset(domains)
      && (o.failed == [] ==> Succeeded(o) == domains)
  {
    hide Interleaves, Isolate, Active, Banned, Firsts;
    var active, banned := Active(bad, domains), Banned(bad, domains);
    ActiveInterleaves(bad, domains);
    InterleavesProperties(active, Firsts(banned), domains);
    if |active| > 0 {
      var search := Isolate(fetch, ATTEMPT_LIMIT, active, 0, calls);
      IsolationPartitions(fetch, ATTEMPT_LIMIT, active, 0, calls);
      InterleavesProperties(Succeeded(search), Failed(search), active);
      FirstsConcat(banned, search.failed);
      AddFates([], Firsts(banned), Firsts(banned), Succeeded(search), Failed(search), active);
    }
  }

  /** Every domain of the round has exactly one fate; when nothing failed the answered requests spell out the scope. */
  lemma {:induction false} RoundFates(fetch: Fetch<Monitored>, bad: map<string, Error>, batches: seq<seq<string>>, calls: nat)
    ensures var o := RoundOutcome(fetch, bad, batches, calls);
      && multiset(Succeeded(o)) + multiset(Failed(o)) == multiset(Flatten(batches))
      && (o.failed == [] ==> Succeeded(o) == Flatten(batches))
  {
    if |batches| > 0 {
      hide BatchOutcome, Succeeded, Failed, Marked;
      var init, last := batches[..|batches| - 1], batches[|batches| - 1];
      var earlier := RoundOutcome(fetch, bad, init, calls);
      var next := BatchOutcome(fetch, Marked(bad, earlier), last, earlier.calls);
      RoundFates(fetch, bad, init, calls);
      BatchFates(fetch, Marked(bad, earlier), last, earlier.calls);
      JoinLists(earlier, next);
      AddFates(Succeeded(earlier), Failed(earlier), Flatten(init), Succeeded(next), Failed(next), last);
    }
  }

  lemma AddFates(s1: seq<string>, f1: seq<string>, w1: seq<string>, s2: seq<string>, f2: seq<string>, w2: seq<string>)
    requires multiset(s1) + multiset(f1) == multiset(w1) && multiset(s2) + multiset(f2) == multiset(w2)
    ensures multiset(s1 + s2) + multiset(f1 + f2) == multiset(w1 + w2)
  {
  }

  /** A collected batch is usable, and both of its responses answer one attempt. */
  ghost predicate UsablyAnswered(up: Upstream, w: Window, answer: (seq<string>, Monitored)) {
    Usable(answer.1, answer.0, w) && exists n: nat :: WasAsked(up, w, answer.0, answer.1, n)
  }

  lemma AnsweredIsUsable(up: Upstream, w: Window, whole: seq<string>, answer: (seq<string>, Monitored))
    requires WasAnswered(FetchMonitoring(up, w), whole, answer)
    ensures UsablyAnswered(up, w, answer)
  {
    hide Usable, WasAsked, Ask;
    var n: nat :| FetchMonitoring(up, w)(answer.0, n).result == Success(answer.1);
    FetchedIsUsable(up, w, answer.0, n);
  }

  /** Answered batches are usable and never empty. */
  lemma {:induction false} RoundIsUsable(up: Upstream, w: Window, bad: map<string, Error>, batches: seq<seq<string>>, calls: nat, i: nat)
    requires i < |RoundOutcome(FetchMonitoring(up, w), bad, batches, calls).succeeded|
    ensures UsablyAnswered(up, w, RoundOutcome(FetchMonitoring(up, w), bad, batches, calls).succeeded[i])
  {
    hide Isolate, Marked, UsablyAnswered, Active, Banned, FetchMonitoring, WasAnswered;
    var fetch := FetchMonitoring(up, w);
    var init, last := batches[..|batches| - 1], batches[|batches| - 1];
    var earlier := RoundOutcome(fetch, bad, init, calls);
    if i < |earlier.succeeded| {
      RoundIsUsable(up, w, bad, init, calls, i);
    } else {
      var active := Active(Marked(bad, earlier), last);
      SucceededWasAnswered(fetch, ATTEMPT_LIMIT, active, 0, earlier.calls, i - |earlier.succeeded|);
      AnsweredIsUsable(up, w, active, RoundOutcome(fetch, bad, batches, calls).succeeded[i]);
    }
  }

  // ---- The requests a round makes ----

  /** An attempt makes its flow request exactly when the answer to its bandwidth request was usable. */
  lemma AskCounts(up: Upstream, w: Window, domains: seq<string>, n: nat)
    ensures var first := up(MonitoringQuery(domains, w.startDay, w.endDay, false), n);
      Ask(up, w, domains, n).calls ==
        if first.Success? && first.value.code == 200 && ValidMonitoring(first.value, domains, w.safeBefore) then 2 else 1
  {
    hide ValidMonitoring, LatestEnd;
  }

  lemma AnsweredAsksTwice(up: Upstream, w: Window)
    ensures CallsAtLeast(FetchMonitoring(up, w), 2)
  {
    hide SafePoint;
  }

  /** A failure was answered in the log, or its domain was known to be invalid and not asked for. */
  ghost predicate RoundFailure(fetch: Fetch<Monitored>, log: seq<Asked>, failure: (string, Error), bad: map<string, Error>, o: Outcome<Monitored>) {
    || FailedIn(fetch, log, failure, true)
    || (failure.0 in bad && bad[failure.0] == failure.1)
    || (failure.0 in o.invalid && failure.1 == Api(INVALID_DOMAIN))
  }

  ghost predicate RoundExplained(fetch: Fetch<Monitored>, log: seq<Asked>, o: Outcome<Monitored>, bad: map<string, Error>) {
    && (forall i :: 0 <= i < |o.succeeded| ==> AnsweredIn(fetch, log, o.succeeded[i]))
    && forall i :: 0 <= i < |o.failed| ==> RoundFailure(fetch, log, o.failed[i], bad, o)
  }

  lemma {:induction false} RecordedValue(failures: map<string, Error>, domains: seq<string>, d: string)
    requires d in Record(failures, FailAll(domains, Api(INVALID_DOMAIN)))
    ensures var marked := Record(failures, FailAll(domains, Api(INVALID_DOMAIN)));
      (d in domains && marked[d] == Api(INVALID_DOMAIN)) || (d in failures && marked[d] == failures[d])
  {
    if |domains| > 0 {
      var init, last := domains[..|domains| - 1], domains[|domains| - 1];
      assert FailAll(domains, Api(INVALID_DOMAIN))[..|domains| - 1] == FailAll(init, Api(INVALID_DOMAIN));
      if d != last {
        RecordedValue(failures, init, d);
      }
    }
  }

  lemma {:induction false} BannedErrors(bad: map<string, Error>, domains: seq<string>, i: nat)
    requires i < |Banned(bad, domains)|
    ensures var (d, e) := Banned(bad, domains)[i]; d in bad && bad[d] == e
  {
    if i < |Banned(bad, domains[..|domains| - 1])| {
      BannedErrors(bad, domains[..|domains| - 1], i);
    }
  }

  lemma BatchIsLogged(fetch: Fetch<Monitored>, bad: map<string, Error>, domains: seq<string>, calls: nat) returns (log: seq<Asked>)
    ensures var o := BatchOutcome(fetch, bad, domains, calls);
      && IsLog(fetch, log, calls, o.calls)
      && (forall i :: 0 <= i < |o.succeeded| ==> AnsweredIn(fetch, log, o.succeeded[i]))
      && forall i :: 0 <= i < |o.failed| ==>
           FailedIn(fetch, log, o.failed[i], true) || (o.failed[i].0 in bad && bad[o.failed[i].0] == o.failed[i].1)
  {
    hide Isolate, Active, Banned, AnsweredIn, FailedIn, Piece;
    var active, banned, o := Active(bad, domains), Banned(bad, domains), BatchOutcome(fetch, bad, domains, calls);
    log := [];
    if |active| > 0 {
      log := SearchIsLogged(fetch, ATTEMPT_LIMIT, active, 0, calls);
    }
    forall i | 0 <= i < |o.failed|
      ensures FailedIn(fetch, log, o.failed[i], true) || (o.failed[i].0 in bad && bad[o.failed[i].0] == o.failed[i].1)
    {
      if i < |banned| {
        BannedErrors(bad, domains, i);
      } else {
        var search := Isolate(fetch, ATTEMPT_LIMIT, active, 0, calls);
        assert [] + log + [] == log;
        FailureIn(fetch, log, [], [], search.failed[i - |banned|], search.attempts >= ATTEMPT_LIMIT, true);
      }
    }
  }

  lemma JoinRounds(fetch: Fetch<Monitored>, left: seq<Asked>, right: seq<Asked>, l: Outcome<Monitored>, r: Outcome<Monitored>, bad: map<string, Error>)
    requires RoundExplained(fetch, left, l, bad)
    requires forall i :: 0 <= i < |r.succeeded| ==> AnsweredIn(fetch, right, r.succeeded[i])
    requires forall i :: 0 <= i < |r.failed| ==>
               FailedIn(fetch, right, r.failed[i], true) || (r.failed[i].0 in Marked(bad, l) && Marked(bad, l)[r.failed[i].0] == r.failed[i].1)
    ensures RoundExplained(fetch, left + right, Join(l, r), bad)
  {
    hide AnsweredIn, FailedIn, Marked;
    var log, o := left + right, Join(l, r);
    assert [] + left + right == log && left + right + [] == log;
    forall i | 0 <= i < |o.succeeded|
      ensures AnsweredIn(fetch, log, o.succeeded[i])
    {
      if i < |l.succeeded| {
        ExplainedIn(fetch, left, [], right, l.succeeded[i]);
      } else {
        ExplainedIn(fetch, right, left, [], r.succeeded[i - |l.succeeded|]);
      }
    }
    forall i | 0 <= i < |o.failed|
      ensures RoundFailure(fetch, log, o.failed[i], bad, o)
    {
      if i < |l.failed| {
        assert RoundFailure(fetch, left, l.failed[i], bad, l);
        if FailedIn(fetch, left, l.failed[i], true) {
          FailureIn(fetch, left, [], right, l.failed[i], true, true);
        }
      } else {
        var failure := r.failed[i - |l.failed|];
        if FailedIn(fetch, right, failure, true) {
          FailureIn(fetch, right, left, [], failure, true, true);
        } else {
          MarkedValue(bad, l, failure.0);
        }
      }
    }
  }

  lemma MarkedValue(bad: map<string, Error>, o: Outcome<Monitored>, d: string)
    requires d in Marked(bad, o)
    ensures (d in o.invalid && Marked(bad, o)[d] == Api(INVALID_DOMAIN)) || (d in bad && Marked(bad, o)[d] == bad[d])
  {
    RecordedValue(bad, o.invalid, d);
  }

  /** Main law of the round's log: every request is counted, and everything a round reports was answered or already known. */
  lemma {:induction false} RoundIsLogged(fetch: Fetch<Monitored>, bad: map<string, Error>, batches: seq<seq<string>>, calls: nat)
    returns (log: seq<Asked>)
    ensures var o := RoundOutcome(fetch, bad, batches, calls); IsLog(fetch, log, calls, o.calls) && RoundExplained(fetch, log, o, bad)
  {
    if |batches| == 0 {
      log := [];
    } else {
      hide BatchOutcome, RoundExplained, Marked, AnsweredIn, FailedIn, Join;
      var init, last := batches[..|batches| - 1], batches[|batches| - 1];
      var earlier := RoundOutcome(fetch, bad, init, calls);
      var next := BatchOutcome(fetch, Marked(bad, earlier), last, earlier.calls);
      var first := RoundIsLogged(fetch, bad, init, calls);
      var second := BatchIsLogged(fetch, Marked(bad, earlier), last, earlier.calls);
      JoinCounts(earlier, next);
      LogConcat(fetch, first, second, calls, earlier.calls, next.calls);
      JoinRounds(fetch, first, second, earlier, next, bad);
      log := first + second;
    }
  }

  /** No request goes uncounted: two for every collected batch, and their numbers are not shared. */
  lemma {:induction false} RoundCounted(fetch: Fetch<Monitored>, bad: map<string, Error>, batches: seq<seq<string>>, calls: nat)
    requires CallsAtLeast(fetch, 2)
    ensures var o := RoundOutcome(fetch, bad, batches, calls); o.calls >= calls + 2 * |o.succeeded|
  {
    if |batches| > 0 {
      hide Isolate, Active, Banned, Marked, CallsAtLeast;
      var init, last := batches[..|batches| - 1], batches[|batches| - 1];
      var earlier := RoundOutcome(fetch, bad, init, calls);
      RoundCounted(fetch, bad, init, calls);
      var active := Active(Marked(bad, earlier), last);
      if |active| > 0 {
        CallsCounted(fetch, ATTEMPT_LIMIT, active, 0, earlier.calls, 2);
        AttemptsCover(fetch, active, earlier.calls);
      }
    }
  }

  lemma AttemptsCover(fetch: Fetch<Monitored>, active: seq<string>, calls: nat)
    ensures var o := Isolate(fetch, ATTEMPT_LIMIT, active, 0, calls);
      o.attempts >= |o.succeeded| && Times(|o.succeeded|, 1) == |o.succeeded|
  {
    hide Isolate;
    AttemptsAtLeast(fetch, ATTEMPT_LIMIT, active, 0, calls);
  }

  lemma {:induction false} AttemptsAtLeast(fetch: Fetch<Monitored>, limit: nat, current: seq<string>, attempts: nat, calls: nat)
    ensures var o := Isolate(fetch, limit, current, attempts, calls); o.attempts >= attempts + |o.succeeded|
    decreases |current|
  {
    hide Isolate, Leaf;
    if Halves(fetch, limit, current, attempts, calls) {
      var left, right := Unfold(fetch, limit, current, attempts, calls);
      AttemptsAtLeast(fetch, limit, current[..|current| / 2], attempts + 1, calls + fetch(current, calls).calls);
      AttemptsAtLeast(fetch, limit, current[|current| / 2..], left.attempts, left.calls);
    } else {
      IsolateLeaf(fetch, limit, current, attempts, calls);
      LeafCounts(fetch, limit, current, attempts, calls);
      LeafLists(fetch, limit, current, attempts, calls);
    }
  }

  /** A collected batch answers two requests numbered within the round, and the numbers of any two batches are apart. */
  lemma AnswersAreNumbered(up: Upstream, w: Window, bad: map<string, Error>, batches: seq<seq<string>>, calls: nat, log: seq<Asked>, k: nat, l: nat)
    requires var fetch := FetchMonitoring(up, w); IsLog(fetch, log, calls, RoundOutcome(fetch, bad, batches, calls).calls)
    requires k < l < |log|
    requires FetchMonitoring(up, w)(log[k].domains, log[k].number).result.Success?
    requires FetchMonitoring(up, w)(log[l].domains, log[l].number).result.Success?
    ensures WasAsked(up, w, log[k].domains, FetchMonitoring(up, w)(log[k].domains, log[k].number).result.value, log[k].number)
    ensures WasAsked(up, w, log[l].domains, FetchMonitoring(up, w)(log[l].domains, log[l].number).result.value, log[l].number)
    ensures calls <= log[k].number && log[k].number + 2 <= log[l].number
    ensures log[l].number + 2 <= RoundOutcome(FetchMonitoring(up, w), bad, batches, calls).calls
  {
    var fetch := FetchMonitoring(up, w);
    var to := RoundOutcome(fetch, bad, batches, calls).calls;
    AnsweredAsksTwice(up, w);
    FetchedIsUsable(up, w, log[k].domains, log[k].number);
    FetchedIsUsable(up, w, log[l].domains, log[l].number);
    hide IsLog, FetchMonitoring, RoundOutcome, WasAsked;
    LogNumbers(fetch, log, calls, to, k);
    LogNumbers(fetch, log, calls, to, l);
  }

  /** Two upstreams that answer every query for the window's days alike. */
  ghost predicate SameForWindow(a: Upstream, b: Upstream, w: Window) {
    forall c, flow, n :: a(MonitoringQuery(c, w.startDay, w.endDay, flow), n) == b(MonitoringQuery(c, w.startDay, w.endDay, flow), n)
  }

  /** A round asks for nothing but the days of its window. */
  lemma {:induction false} RoundAsks(a: Upstream, b: Upstream, w: Window, bad: map<string, Error>, batches: seq<seq<string>>, calls: nat)
    requires SameForWindow(a, b, w)
    ensures RoundOutcome(FetchMonitoring(a, w), bad, batches, calls) == RoundOutcome(FetchMonitoring(b, w), bad, batches, calls)
  {
    if |batches| > 0 {
      hide Isolate, Active, Banned, Marked, FetchMonitoring;
      var init, last := batches[..|batches| - 1], batches[|batches| - 1];
      var earlier := RoundOutcome(FetchMonitoring(a, w), bad, init, calls);
      RoundAsks(a, b, w, bad, init, calls);
      SameAttempts(a, b, w);
      SameSearch(FetchMonitoring(a, w), FetchMonitoring(b, w), ATTEMPT_LIMIT, Active(Marked(bad, earlier), last), 0, earlier.calls);
    }
  }

  lemma SameAttempts(a: Upstream, b: Upstream, w: Window)
    requires SameForWindow(a, b, w)
    ensures forall c, n :: FetchMonitoring(a, w)(c, n) == FetchMonitoring(b, w)(c, n)
  {
    hide SafePoint;
  }

  lemma TwoRequestsPerAttempt(up: Upstream, w: Window)
    ensures CallsBounded(FetchMonitoring(up, w), 2)
  {
    hide SafePoint;
  }

  /** A round makes at most 32 requests per batch of fifty, and at most 30 when no domain failed. */
  lemma {:induction false} RoundCalls(fetch: Fetch<Monitored>, bad: map<string, Error>, batches: seq<seq<string>>, calls: nat)
    requires CallsBounded(fetch, 2)
    ensures var o := RoundOutcome(fetch, bad, batches, calls);
      && calls <= o.calls <= calls + Times(|batches|, 32)
      && (o.failed == [] ==> o.calls <= calls + Times(|batches|, 30))
  {
    hide CallsBounded, Times, Isolate, Active, Banned, Marked;
    TimesStep(0, 32);
    TimesStep(0, 30);
    if |batches| > 0 {
      TimesStep(|batches| - 1, 32);
      TimesStep(|batches| - 1, 30);
      var init, last := batches[..|batches| - 1], batches[|batches| - 1];
      var earlier := RoundOutcome(fetch, bad, init, calls);
      RoundCalls(fetch, bad, init, calls);
      var active := Active(Marked(bad, earlier), last);
      if |active| > 0 {
        BatchCalls(fetch, active, earlier.calls, 2);
      }
    }
  }

  // ---- An upstream that rejects exactly the invalid domains ----

  lemma {:induction false} ActiveMembers(bad: map<string, Error>, domains: seq<string>, d: string)
    ensures d in Active(bad, domains) <==> d in domains && d !in bad
  {
    if |domains| > 0 {
      assert domains == domains[..|domains| - 1] + [domains[|domains| - 1]];
      ActiveMembers(bad, domains[..|domains| - 1], d);
    }
  }

  lemma {:induction false} ActiveConcat(bad: map<string, Error>, left: seq<string>, right: seq<string>)
    ensures Active(bad, left + right) == Active(bad, left) + Active(bad, right)
    decreases |right|
  {
    if |right| == 0 {
      assert left + right == left;
    } else {
      assert (left + right)[..|left + right| - 1] == left + right[..|right| - 1];
      ActiveConcat(bad, left, right[..|right| - 1]);
    }
  }

  /** Only the batch's own entries of the negative cache matter. */
  lemma {:induction false} ActiveSame(a: map<string, Error>, b: map<string, Error>, domains: seq<string>)
    requires forall d :: d in domains ==> (d in a <==> d in b)
    ensures Active(a, domains) == Active(b, domains)
  {
    if |domains| > 0 {
      assert domains[|domains| - 1] in domains;
      ActiveSame(a, b, domains[..|domains| - 1]);
    }
  }

  lemma MarkedKeys(bad: map<string, Error>, o: Outcome<Monitored>, d: string)
    ensures d in Marked(bad, o) <==> d in bad || d in o.invalid
  {
    var entries := FailAll(o.invalid, Api(INVALID_DOMAIN));
    RecordKeys(bad, entries, d);
    if d in o.invalid {
      var i :| 0 <= i < |o.invalid| && o.invalid[i] == d;
      assert entries[i].0 == d;
    }
  }

  /** The search of one batch: it names the invalid domains it has not met before, few enough for its attempts. */
  ghost predicate SearchesWell(fetch: Fetch<Monitored>, active: seq<string>, invalid: set<string>) {
    |active| > 0 ==> RejectsExactly(fetch, active, invalid) && WorstCost(active, invalid) <= ATTEMPT_LIMIT
  }

  lemma BatchSeparates(fetch: Fetch<Monitored>, bad: map<string, Error>, domains: seq<string>, calls: nat, invalid: set<string>)
    requires SearchesWell(fetch, Active(bad, domains), invalid)
    ensures var o, active := BatchOutcome(fetch, bad, domains, calls), Active(bad, domains);
      Succeeded(o) == Keep(active, invalid, false) && o.invalid == Keep(active, invalid, true)
  {
    hide Isolate, RejectsExactly, Active, WorstCost;
    var active := Active(bad, domains);
    if |active| > 0 {
      hide Keep, Succeeded, Failed;
      IsolationCost(fetch, ATTEMPT_LIMIT, active, 0, calls, invalid);
      SameSucceeded(BatchOutcome(fetch, bad, domains, calls), Isolate(fetch, ATTEMPT_LIMIT, active, 0, calls));
    } else {
      assert Firsts(BatchOutcome(fetch, bad, domains, calls).succeeded) == [];
    }
  }

  lemma SameSucceeded(a: Outcome<Monitored>, b: Outcome<Monitored>)
    requires a.succeeded == b.succeeded
    ensures Succeeded(a) == Succeeded(b)
  {
  }

  /** A batch's searches are not disturbed by what earlier batches of distinct domains marked. */
  lemma {:induction false} RoundCollects(fetch: Fetch<Monitored>, bad: map<string, Error>, batches: seq<seq<string>>, calls: nat, invalid: set<string>)
    requires NoDuplicates(Flatten(batches))
    requires forall b :: 0 <= b < |batches| ==> SearchesWell(fetch, Active(bad, batches[b]), invalid)
    ensures var o, active := RoundOutcome(fetch, bad, batches, calls), Active(bad, Flatten(batches));
      Succeeded(o) == Keep(active, invalid, false) && o.invalid == Keep(active, invalid, true)
  {
    if |batches| > 0 {
      hide BatchOutcome, SearchesWell, Keep, Active, Marked, Succeeded;
      var init, last := batches[..|batches| - 1], batches[|batches| - 1];
      var earlier := RoundOutcome(fetch, bad, init, calls);
      assert forall b :: 0 <= b < |init| ==> init[b] == batches[b];
      SplitDistinct(Flatten(init), last);
      RoundCollects(fetch, bad, init, calls, invalid);
      forall d | d in last
        ensures d in Marked(bad, earlier) <==> d in bad
      {
        MarkedKeys(bad, earlier, d);
        KeepMembers(Active(bad, Flatten(init)), invalid, true, d);
        ActiveMembers(bad, Flatten(init), d);
      }
      ActiveSame(Marked(bad, earlier), bad, last);
      assert SearchesWell(fetch, Active(bad, batches[|batches| - 1]), invalid);
      BatchSeparates(fetch, Marked(bad, earlier), last, earlier.calls, invalid);
      JoinLists(earlier, BatchOutcome(fetch, Marked(bad, earlier), last, earlier.calls));
      ActiveConcat(bad, Flatten(init), last);
      KeepConcat(Active(bad, Flatten(init)), Active(bad, last), invalid, true);
      KeepConcat(Active(bad, Flatten(init)), Active(bad, last), invalid, false);
    }
  }

  lemma SplitDistinct(left: seq<string>, right: seq<string>)
    requires NoDuplicates(left + right)
    ensures NoDuplicates(left) && NoDuplicates(right) && forall d :: d in right ==> d !in left
  {
    var both := left + right;
    assert forall i :: 0 <= i < |left| ==> left[i] == both[i];
    assert forall j :: 0 <= j < |right| ==> right[j] == both[|left| + j];
  }

  /**
   * Main law of rejection: every domain not known to be invalid is collected exactly when it is valid, the negative cache
   * gains exactly the invalid ones, and the others fail. Known ones fail without a request.
   */
  lemma RoundSeparates(fetch: Fetch<Monitored>, bad: map<string, Error>, batches: seq<seq<string>>, calls: nat, invalid: set<string>, d: string)
    requires NoDuplicates(Flatten(batches))
    requires forall b :: 0 <= b < |batches| ==> SearchesWell(fetch, Active(bad, batches[b]), invalid)
    ensures var o, scope := RoundOutcome(fetch, bad, batches, calls), Flatten(batches);
      && (d in Succeeded(o) <==> d in scope && d !in bad && d !in invalid)
      && (d in Failed(o) <==> d in scope && (d in bad || d in invalid))
      && (d in Marked(bad, o) <==> d in bad || (d in scope && d in invalid))
  {
    hide RoundOutcome, SearchesWell, Keep, Active, Marked, Succeeded, Failed, Flatten, NoDuplicates;
    var o, scope := RoundOutcome(fetch, bad, batches, calls), Flatten(batches);
    RoundCollects(fetch, bad, batches, calls, invalid);
    ActiveMembers(bad, scope, d);
    KeepMembers(Active(bad, scope), invalid, true, d);
    KeepMembers(Active(bad, scope), invalid, false, d);
    MarkedKeys(bad, o, d);
    RoundFates(fetch, bad, batches, calls);
    OccursOnce(scope, d);
    assert multiset(Succeeded(o))[d] + multiset(Failed(o))[d] == multiset(scope)[d];
    assert d in Succeeded(o) <==> d in multiset(Succeeded(o));
    assert d in Failed(o) <==> d in multiset(Failed(o));
    assert d in scope <==> d in multiset(scope);
  }

  // ---- What the round hands over ----

  datatype UsageRound = UsageRound(bandwidth: seq<Batch>, traffic: seq<Batch>, dataEnd: Option<int>)

  function RoundOf(succeeded: seq<(seq<string>, Monitored)>): UsageRound {
    UsageRound(
      seq(|succeeded|, i requires 0 <= i < |succeeded| => Batch(succeeded[i].0, succeeded[i].1.bandwidth)),
      seq(|succeeded|, i requires 0 <= i < |succeeded| => Batch(succeeded[i].0, succeeded[i].1.traffic)),
      CommonEnd(succeeded))
  }

  /** Bandwidth batches carry the answers to the bandwidth requests, traffic batches those to the flow requests. */
  lemma RoundCarries(up: Upstream, w: Window, bad: map<string, Error>, batches: seq<seq<string>>, calls: nat, i: nat) returns (n: nat)
    requires i < |RoundOutcome(FetchMonitoring(up, w), bad, batches, calls).succeeded|
    ensures var round := RoundOf(RoundOutcome(FetchMonitoring(up, w), bad, batches, calls).succeeded);
      && i < |round.bandwidth| && i < |round.traffic| && round.bandwidth[i].domains == round.traffic[i].domains
      && up(MonitoringQuery(round.bandwidth[i].domains, w.startDay, w.endDay, false), n) == Success(round.bandwidth[i].response)
      && up(MonitoringQuery(round.traffic[i].domains, w.startDay, w.endDay, true), n + 1) == Success(round.traffic[i].response)
  {
    hide RoundOutcome, Usable, FetchMonitoring;
    RoundIsUsable(up, w, bad, batches, calls, i);
    var o := RoundOutcome(FetchMonitoring(up, w), bad, batches, calls);
    n :| WasAsked(up, w, o.succeeded[i].0, o.succeeded[i].1, n);
  }

  /** The slowest batch decides where the round's data ends. */
  function CommonEnd(succeeded: seq<(seq<string>, Monitored)>): Option<int> {
    if |succeeded| == 0 then None
    else
      var earlier, last := CommonEnd(succeeded[..|succeeded| - 1]), succeeded[|succeeded| - 1].1.dataAt;
      if earlier.None? || last < earlier.value then Some(last) else earlier
  }

  lemma {:induction false} CommonEndIsLeast(succeeded: seq<(seq<string>, Monitored)>)
    ensures CommonEnd(succeeded).None? <==> |succeeded| == 0
    ensures |succeeded| > 0 ==>
              && (forall i :: 0 <= i < |succeeded| ==> CommonEnd(succeeded).value <= succeeded[i].1.dataAt)
              && exists i :: 0 <= i < |succeeded| && CommonEnd(succeeded).value == succeeded[i].1.dataAt
  {
    if |succeeded| > 0 {
      var init := succeeded[..|succeeded| - 1];
      CommonEndIsLeast(init);
      assert succeeded[|succeeded| - 1].1.dataAt >= CommonEnd(succeeded).value;
      if CommonEnd(succeeded) == CommonEnd(init) {
        var i :| 0 <= i < |init| && CommonEnd(init).value == init[i].1.dataAt;
        assert succeeded[i] == init[i];
      }
      forall i | 0 <= i < |init| ensures CommonEnd(succeeded).value <= succeeded[i].1.dataAt { assert succeeded[i] == init[i]; }
    }
  }

  lemma {:induction false} RoundDomains(succeeded: seq<(seq<string>, Monitored)>)
    ensures Domains(RoundOf(succeeded).bandwidth) == Domains(RoundOf(succeeded).traffic) == Flatten(Firsts(succeeded))
  {
    if |succeeded| > 0 {
      var init := succeeded[..|succeeded| - 1];
      RoundDomains(init);
      assert RoundOf(succeeded).bandwidth[..|succeeded| - 1] == RoundOf(init).bandwidth;
      assert RoundOf(succeeded).traffic[..|succeeded| - 1] == RoundOf(init).traffic;
      assert Firsts(succeeded)[..|succeeded| - 1] == Firsts(init);
    }
  }
}
