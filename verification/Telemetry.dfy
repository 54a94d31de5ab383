/** Resource health and its aggregates for one collector (internal/telemetry/metrics.go). */
module Telemetry {
  import opened Core
  import opened Clock

  /** Seconds of the Unix epoch; instants are UTC+8 wall-clock nanoseconds. */
  function Unix(t: int): int { (t - 8 * HOUR) / SECOND }

  type Times = map<string, int>
  type States = map<string, bool>

  // ---- Aggregation over one walk of the resources ----

  /** How the source's walk ends: at a resource that never succeeded, at one that failed, or with the oldest success. */
  datatype Verdict = NeverSucceeded | LastFailed | AllSucceeded(oldest: int)

  function Walk(order: seq<string>, states: States, last: Times): Verdict
    requires |order| > 0 && forall r :: r in order ==> r in states
  {
    var r := order[0];
    if r !in last then NeverSucceeded
    else if !states[r] then LastFailed
    else if |order| == 1 then AllSucceeded(last[r])
    else
      match Walk(order[1..], states, last)
      case AllSucceeded(oldest) => AllSucceeded(if oldest < last[r] then oldest else last[r])
      case verdict => verdict
  }

  /** Any walk order the map may produce: every resource once. */
  ghost predicate IsOrder(order: seq<string>, states: States) {
    NoDuplicates(order) && forall r :: r in order <==> r in states
  }

  /** A walk deletes the last-success gauge, leaves it as it was, or sets it. */
  function GaugeAfter(v: Verdict, was: Option<int>): Option<int> {
    match v
    case NeverSucceeded => None
    case LastFailed => was
    case AllSucceeded(oldest) => Some(Unix(oldest))
  }

  /** The two gauges that recomputing leaves, for some order of the map. */
  ghost predicate Aggregated(states: States, last: Times, was: Option<int>, success: Option<int>, gauge: Option<int>) {
    if states == map[] then success.None? && gauge.None?
    else exists order :: IsOrder(order, states) && AggregatedIn(order, states, last, was, success, gauge)
  }

  predicate AggregatedIn(order: seq<string>, states: States, last: Times, was: Option<int>, success: Option<int>, gauge: Option<int>)
    requires forall r :: r in order ==> r in states
  {
    && |order| > 0 && gauge == GaugeAfter(Walk(order, states, last), was)
    && success == Some(if Walk(order, states, last).AllSucceeded? then 1 else 0)
  }

  predicate Missing(r: string, states: States, last: Times) { r in states && r !in last }
  predicate Failing(r: string, states: States, last: Times) { r in states && r in last && !states[r] }

  ghost predicate IsOldest(oldest: int, order: seq<string>, times: Times) {
    && (forall r :: r in order ==> r in times && oldest <= times[r])
    && exists r :: r in order && times[r] == oldest
  }

  lemma {:induction false} WalkMeans(order: seq<string>, states: States, last: Times)
    requires |order| > 0 && forall r :: r in order ==> r in states
    ensures var v := Walk(order, states, last);
      && (v.AllSucceeded? <==> forall r :: r in order ==> r in last && states[r])
      && (v.AllSucceeded? ==> IsOldest(v.oldest, order, last))
      && (v.NeverSucceeded? ==> exists r :: r in order && Missing(r, states, last))
      && (v.LastFailed? ==> exists r :: r in order && Failing(r, states, last))
  {
    assert order[0] in order;
    if |order| > 1 {
      assert order == [order[0]] + order[1..];
      WalkMeans(order[1..], states, last);
    } else {
      assert order == [order[0]];
    }
  }

  /** The success gauge and the oldest success do not depend on the walk order. */
  lemma OrderIrrelevantForSuccess(a: seq<string>, b: seq<string>, states: States, last: Times)
    requires IsOrder(a, states) && IsOrder(b, states) && |a| > 0 && |b| > 0
    ensures Walk(a, states, last).AllSucceeded? <==> Walk(b, states, last).AllSucceeded?
    ensures Walk(a, states, last).AllSucceeded? ==> Walk(a, states, last) == Walk(b, states, last)
  {
    WalkMeans(a, states, last);
    WalkMeans(b, states, last);
    if Walk(a, states, last).AllSucceeded? {
      var r :| r in a && last[r] == Walk(a, states, last).oldest;
      assert r in b;
      var q :| q in b && last[q] == Walk(b, states, last).oldest;
      assert q in a;
    }
  }

  /** Two orders of the map that leave different last-success gauges. */
  ghost predicate GaugesDiffer(a: seq<string>, b: seq<string>, states: States, last: Times, was: Option<int>) {
    && IsOrder(a, states) && IsOrder(b, states) && |a| > 0 && |b| > 0
    && GaugeAfter(Walk(a, states, last), was) != GaugeAfter(Walk(b, states, last), was)
  }

  /** An order that visits a given resource first. */
  lemma OrderFrom(r: string, states: States)
    requires r in states
    ensures IsOrder([r] + Remaining(states.Keys - {r}), states)
  {
    var rest := Remaining(states.Keys - {r});
    assert forall q :: q in rest <==> q in states && q != r;
  }

  /**
   * The last-success gauge depends on the order of the map exactly when it is present, some resource never succeeded and
   * another one's last result is a failure after a success.
   */
  lemma OrderMattersForLastSuccess(states: States, last: Times, was: Option<int>)
    ensures (was.Some? && exists m, f :: Missing(m, states, last) && Failing(f, states, last)) <==>
              exists a, b :: GaugesDiffer(a, b, states, last, was)
  {
    hide NoDuplicates;
    if was.Some? {
      if m, f :| Missing(m, states, last) && Failing(f, states, last) {
        var a, b := [m] + Remaining(states.Keys - {m}), [f] + Remaining(states.Keys - {f});
        OrderFrom(m, states);
        OrderFrom(f, states);
        assert GaugesDiffer(a, b, states, last, was);
      }
    }
    forall a, b | GaugesDiffer(a, b, states, last, was)
      ensures was.Some? && exists m, f :: Missing(m, states, last) && Failing(f, states, last)
    {
      WalkMeans(a, states, last);
      WalkMeans(b, states, last);
      OrderIrrelevantForSuccess(a, b, states, last);
    }
  }

  // ---- What reconciling and observing do to the maps ----

  function NamesOf(resources: seq<string>): set<string> { set r | r in resources }

  function Kept(times: Times, keep: set<string>): Times { map r | r in times && r in keep :: times[r] }

  /** Unchanged resources keep their health; new ones start unhealthy. */
  function KeptStates(was: States, keep: set<string>): States { map r | r in keep :: r in was && was[r] }

  function Health(states: States): map<string, int> { map r | r in states :: if states[r] then 1 else 0 }

  /** Results of resources that are not configured are ignored. */
  function Observed(was: States, results: States): States {
    map r | r in was :: if r in results then results[r] else was[r]
  }

  function ObservedSuccess(was: States, last: Times, results: States, now: int): Times {
    map r | r in was && (r in last || (r in results && results[r])) :: if r in results && results[r] then now else last[r]
  }

  lemma KeptStep(was: States, times: Times, keep: set<string>, r: string)
    ensures KeptStates(was, keep + {r}) == KeptStates(was, keep)[r := r in was && was[r]]
    ensures Kept(times, keep + {r}) == if r in times then Kept(times, keep)[r := times[r]] else Kept(times, keep)
    ensures Health(KeptStates(was, keep + {r})) == Health(KeptStates(was, keep))[r := if r in was && was[r] then 1 else 0]
  {
  }

  lemma KeptNothing(was: States, times: Times)
    ensures KeptStates(was, {}) == map[] && Kept(times, {}) == map[]
    ensures KeptStates(was, was.Keys) == was
  {
  }

  lemma ObserveStep(was: States, last: Times, results: States, r: string, ok: bool, now: int)
    requires last.Keys <= was.Keys
    ensures Observed(was, results[r := ok]) == if r in was then Observed(was, results)[r := ok] else Observed(was, results)
    ensures r !in results ==>
              ObservedSuccess(was, last, results[r := ok], now) ==
                if r in was && ok then ObservedSuccess(was, last, results, now)[r := now] else ObservedSuccess(was, last, results, now)
    ensures r in was ==> Health(Observed(was, results[r := ok])) == Health(Observed(was, results))[r := if ok then 1 else 0]
  {
  }

  lemma ObserveNothing(was: States, last: Times, now: int)
    requires last.Keys <= was.Keys
    ensures Observed(was, map[]) == was && ObservedSuccess(was, last, map[], now) == last
  {
  }

  // ---- Invariants ----

  /** Per-resource series mirror the maps behind them. */
  ghost predicate Mirrors(series: Times, times: Times) {
    series.Keys == times.Keys && forall r :: r in times ==> series[r] == Unix(times[r])
  }

  /** The data timestamp is the oldest over all resources, or absent while one has none. */
  ghost predicate DataTimestampIs(gauge: Option<int>, states: States, dataTimes: Times) {
    if states != map[] && forall r :: r in states ==> r in dataTimes
    then
      && gauge.Some?
      && (forall r :: r in states ==> gauge.value <= Unix(dataTimes[r]))
      && exists r :: r in states && gauge.value == Unix(dataTimes[r])
    else gauge.None?
  }

  ghost predicate PastOnly(last: Times, now: int) {
    forall r :: r in last ==> last[r] <= now
  }

  /** The last-success gauge is never later than any resource's last success. */
  ghost predicate NeverLater(gauge: Option<int>, last: Times, now: int) {
    gauge.Some? ==> gauge.value <= Unix(now) && forall r :: r in last ==> gauge.value <= Unix(last[r])
  }

  /** The maps belong together: times only of configured resources, and every healthy resource has succeeded. */
  ghost predicate Belong(states: States, last: Times, data: Times) {
    last.Keys <= states.Keys && data.Keys <= states.Keys && forall r :: r in states && states[r] ==> r in last
  }

  lemma ObservedBelongs(was: States, last: Times, data: Times, results: States, now: int, gauge: Option<int>, timestamp: Option<int>)
    requires Belong(was, last, data) && PastOnly(last, now) && NeverLater(gauge, last, now) && DataTimestampIs(timestamp, was, data)
    ensures Belong(Observed(was, results), ObservedSuccess(was, last, results, now), data)
    ensures PastOnly(ObservedSuccess(was, last, results, now), now)
    ensures NeverLater(gauge, ObservedSuccess(was, last, results, now), now)
    ensures DataTimestampIs(timestamp, Observed(was, results), data)
  {
    SameKeys(was, results);
    SameDataTimestamp(timestamp, was, Observed(was, results), data);
  }

  lemma KeptBelongs(was: States, last: Times, data: Times, keep: set<string>, now: int, gauge: Option<int>)
    requires Belong(was, last, data) && PastOnly(last, now) && NeverLater(gauge, last, now)
    ensures Belong(KeptStates(was, keep), Kept(last, keep), Kept(data, keep))
    ensures PastOnly(Kept(last, keep), now) && NeverLater(gauge, Kept(last, keep), now)
  {
  }

  lemma TimesOf(states: States, last: Times, data: Times)
    requires Belong(states, last, data)
    ensures last.Keys <= states.Keys && data.Keys <= states.Keys
  {
  }

  lemma KeptSeries(was: States, series: Times, times: Times, keep: set<string>)
    requires Mirrors(series, times) && times.Keys <= was.Keys
    ensures Mirrors(series - (was.Keys - keep), Kept(times, keep))
  {
  }

  lemma KeptHealth(was: States, keep: set<string>)
    ensures Health(KeptStates(was, was.Keys + keep)) - (was.Keys - keep) == Health(KeptStates(was, keep))
  {
  }

  /** One collector that is managed per resource. */
  class Collector {
    var configured: Option<States>
    var lastSuccess: Times
    var dataTimes: Times
    var success: Option<int>
    var lastSuccessGauge: Option<int>
    var staleAfterGauge: Option<int>
    var dataTimestamp: Option<int>
    var resourceSuccess: map<string, int>
    var resourceLastSuccess: Times
    var resourceData: Times

    function States(): States
      reads this`configured
    {
      if configured.Some? then configured.value else map[]
    }

    /** The state maps and the per-resource series. */
    ghost predicate SeriesValid()
      reads this`configured, this`lastSuccess, this`dataTimes, this`resourceSuccess, this`resourceLastSuccess, this`resourceData
    {
      && resourceSuccess == Health(States())
      && Mirrors(resourceLastSuccess, lastSuccess) && Mirrors(resourceData, dataTimes)
      && Belong(States(), lastSuccess, dataTimes)
    }

    /** What the collector-wide gauges say, at an instant no earlier than anything observed. */
    ghost predicate Valid(now: int)
      reads this
    {
      && SeriesValid() && PastOnly(lastSuccess, now) && SuccessIs() && NeverLater(lastSuccessGauge, lastSuccess, now)
      && DataTimestampIs(dataTimestamp, States(), dataTimes)
    }

    /**
     * The success gauge is 1 exactly when every configured resource last succeeded, and then the last-success gauge shows
     * one of their times; without resources there are no gauges.
     */
    ghost predicate SuccessIs()
      reads this`configured, this`success, this`lastSuccess, this`lastSuccessGauge
    {
      && (success == Some(1) ==>
            lastSuccessGauge.Some? && exists r :: r in lastSuccess && lastSuccessGauge.value == Unix(lastSuccess[r]))
      && success == (if States() == map[] then None else if forall r :: r in States() ==> States()[r] then Some(1) else Some(0))
      && (States() == map[] ==> lastSuccessGauge.None?)
    }

    lemma NoGauges(now: int)
      requires States() == map[] && success.None? && lastSuccessGauge.None? && dataTimestamp.None?
      ensures SuccessIs() && NeverLater(lastSuccessGauge, lastSuccess, now) && DataTimestampIs(dataTimestamp, States(), dataTimes)
      ensures forall was :: Aggregated(States(), lastSuccess, was, success, lastSuccessGauge)
    {
    }

    constructor ()
      ensures configured.None? && lastSuccess == map[] && forall now :: Valid(now)
    {
      configured, lastSuccess, dataTimes := None, map[], map[];
      success, lastSuccessGauge, staleAfterGauge, dataTimestamp := None, None, None, None;
      resourceSuccess, resourceLastSuccess, resourceData := map[], map[], map[];
    }

    /** Walks the resources in an arbitrary order. */
    method UpdateAggregates() returns (ghost order: seq<string>)
      requires States() != map[]
      modifies this`success, this`lastSuccessGauge
      ensures IsOrder(order, States()) && AggregatedIn(order, States(), lastSuccess, old(lastSuccessGauge), success, lastSuccessGauge)
    {
      hide NoDuplicates, Walk, Unix;
      var states := States();
      NothingWalked();
      var pending := states.Keys;
      var oldest: Option<int>, walked: seq<string> := None, [];
      while pending != {}
        invariant pending <= states.Keys && (forall r :: r in states <==> r in pending || r in walked)
        invariant NoDuplicates(walked) && forall r :: r in walked ==> r !in pending
        invariant success == old(success) && lastSuccessGauge == old(lastSuccessGauge)
        invariant |walked| == 0 ==> pending == states.Keys && oldest.None?
        invariant |walked| > 0 ==> oldest.Some? && Walk(walked, states, lastSuccess) == AllSucceeded(oldest.value)
        decreases |pending|
      {
        var r: string :| r in pending;
        var rest := Remaining(pending - {r});
        if r !in lastSuccess {
          success, lastSuccessGauge := Some(0), None;
          WalkStops(walked, r, rest, states, lastSuccess);
          OrderThrough(walked, r, pending, states);
          return walked + [r] + rest;
        }
        if !states[r] {
          success := Some(0);
          WalkStops(walked, r, rest, states, lastSuccess);
          OrderThrough(walked, r, pending, states);
          return walked + [r] + rest;
        }
        WalkContinues(walked, r, states, lastSuccess);
        OneWalked(r);
        DistinctConcat(walked, [r]);
        if oldest.None? || lastSuccess[r] < oldest.value {
          oldest := Some(lastSuccess[r]);
        }
        walked := walked + [r];
        pending := pending - {r};
      }
      success, lastSuccessGauge := Some(1), Some(Unix(oldest.value));
      return walked;
    }

    method UpdateDataTimestamp()
      modifies this`dataTimestamp
      ensures DataTimestampIs(dataTimestamp, States(), dataTimes)
    {
      var states := States();
      if states == map[] {
        dataTimestamp := None;
        return;
      }
      var pending := states.Keys;
      var oldest: Option<int> := None;
      while pending != {}
        invariant pending <= states.Keys
        invariant forall r :: r in states && r !in pending ==> r in dataTimes && oldest.Some? && oldest.value <= dataTimes[r]
        invariant oldest.Some? ==> exists r :: r in states && r in dataTimes && dataTimes[r] == oldest.value
        invariant pending == states.Keys || oldest.Some?
        decreases |pending|
      {
        var r: string :| r in pending;
        if r !in dataTimes {
          dataTimestamp := None;
          return;
        }
        if oldest.None? || dataTimes[r] < oldest.value {
          oldest := Some(dataTimes[r]);
        }
        pending := pending - {r};
      }
      dataTimestamp := Some(Unix(oldest.value));
      OldestUnix(oldest.value, states, dataTimes);
    }

    /** The history of the resources that stay. */
    method KeepKnown(resources: seq<string>) returns (states: States, last: Times, data: Times)
      requires resourceSuccess == Health(States())
      modifies this`resourceSuccess
      ensures states == KeptStates(States(), NamesOf(resources))
      ensures last == Kept(lastSuccess, NamesOf(resources)) && data == Kept(dataTimes, NamesOf(resources))
      ensures resourceSuccess == Health(KeptStates(States(), States().Keys + NamesOf(resources)))
    {
      hide KeptStates, Kept, Health;
      var was := States();
      KeptNothing(was, lastSuccess);
      KeptNothing(was, dataTimes);
      ghost var keep: set<string> := {};
      states, last, data := map[], map[], map[];
      assert was.Keys + keep == was.Keys;
      for i := 0 to |resources|
        invariant keep == NamesOf(resources[..i])
        invariant states == KeptStates(was, keep) && last == Kept(lastSuccess, keep) && data == Kept(dataTimes, keep)
        invariant resourceSuccess == Health(KeptStates(was, was.Keys + keep))
      {
        var r := resources[i];
        assert resources[..i + 1] == resources[..i] + [r];
        assert was.Keys + (keep + {r}) == was.Keys + keep + {r};
        KeptStep(was, lastSuccess, keep, r);
        KeptStep(was, dataTimes, keep, r);
        KeptStep(was, dataTimes, was.Keys + keep, r);
        keep := keep + {r};
        states := states[r := r in was && was[r]];
        if r in lastSuccess {
          last := last[r := lastSuccess[r]];
        }
        if r in dataTimes {
          data := data[r := dataTimes[r]];
        }
        resourceSuccess := resourceSuccess[r := if states[r] then 1 else 0];
      }
      assert resources[..|resources|] == resources;
    }

    /** Replaces the maps, and leaves series for exactly the resources that stay. */
    method Reconcile(resources: seq<string>, now: int)
      requires SeriesValid() && PastOnly(lastSuccess, now) && NeverLater(lastSuccessGauge, lastSuccess, now)
      modifies this`configured, this`lastSuccess, this`dataTimes, this`resourceSuccess, this`resourceLastSuccess, this`resourceData
      ensures SeriesValid() && PastOnly(lastSuccess, now) && NeverLater(lastSuccessGauge, lastSuccess, now)
      ensures configured == Some(KeptStates(old(States()), NamesOf(resources)))
      ensures lastSuccess == Kept(old(lastSuccess), NamesOf(resources)) && dataTimes == Kept(old(dataTimes), NamesOf(resources))
    {
      hide KeptStates, Kept, Health, Mirrors, Belong, PastOnly, NeverLater, NamesOf;
      var was := States();
      KeptBelongs(was, lastSuccess, dataTimes, NamesOf(resources), now, lastSuccessGauge);
      TimesOf(was, lastSuccess, dataTimes);
      KeptSeries(was, resourceLastSuccess, lastSuccess, NamesOf(resources));
      KeptSeries(was, resourceData, dataTimes, NamesOf(resources));
      KeptHealth(was, NamesOf(resources));
      var states, last, data := KeepKnown(resources);
      DeleteSeries(was.Keys, NamesOf(resources));
      configured, lastSuccess, dataTimes := Some(states), last, data;
    }

    /** Reconciles with a newly discovered set: unchanged resources keep their history, removed ones leave no series. */
    method ReplaceResources(resources: seq<string>, staleAfter: int, now: int)
      requires Valid(now)
      modifies this
      ensures Valid(now) && configured == Some(KeptStates(old(States()), NamesOf(resources)))
      ensures lastSuccess == Kept(old(lastSuccess), NamesOf(resources)) && dataTimes == Kept(old(dataTimes), NamesOf(resources))
      ensures staleAfterGauge == if resources == [] then None else Some(staleAfter)
      ensures Aggregated(States(), lastSuccess, old(lastSuccessGauge), success, lastSuccessGauge)
    {
      hide SeriesValid, KeptStates, Kept, NeverLater, PastOnly, SuccessIs, DataTimestampIs, Aggregated;
      Reconcile(resources, now);
      if |resources| == 0 {
        success, lastSuccessGauge, staleAfterGauge, dataTimestamp := None, None, None, None;
        assert NamesOf(resources) == {};
        KeptNothing(old(States()), old(lastSuccess));
        NoGauges(now);
        return;
      }
      staleAfterGauge := Some(staleAfter);
      Refresh(now);
      UpdateDataTimestamp();
    }

    /** Recomputing the aggregates establishes what they promise. */
    method Refresh(now: int)
      requires SeriesValid() && NeverLater(lastSuccessGauge, lastSuccess, now) && PastOnly(lastSuccess, now)
      modifies this`success, this`lastSuccessGauge
      ensures SuccessIs() && NeverLater(lastSuccessGauge, lastSuccess, now)
      ensures Aggregated(States(), lastSuccess, old(lastSuccessGauge), success, lastSuccessGauge)
    {
      if States() == map[] {
        success, lastSuccessGauge := None, None;
        return;
      }
      ghost var order := UpdateAggregates();
      AggregatesValid(order, States(), lastSuccess);
      hide Walk, IsOrder;
      UnixAll(now, lastSuccess);
    }

    /** Removes the series of every resource that is no longer kept. */
    method DeleteSeries(was: set<string>, keep: set<string>)
      modifies this`resourceSuccess, this`resourceLastSuccess, this`resourceData
      ensures resourceSuccess == old(resourceSuccess) - (was - keep)
      ensures resourceLastSuccess == old(resourceLastSuccess) - (was - keep)
      ensures resourceData == old(resourceData) - (was - keep)
    {
      var pending := was;
      while pending != {}
        invariant pending <= was
        invariant resourceSuccess == old(resourceSuccess) - (was - pending - keep)
        invariant resourceLastSuccess == old(resourceLastSuccess) - (was - pending - keep)
        invariant resourceData == old(resourceData) - (was - pending - keep)
        decreases |pending|
      {
        var r: string :| r in pending;
        if r !in keep {
          resourceSuccess, resourceLastSuccess, resourceData :=
            resourceSuccess - {r}, resourceLastSuccess - {r}, resourceData - {r};
        }
        pending := pending - {r};
      }
    }

    /** One result: ignored for a resource that is not configured. */
    method ApplyOne(states: States, r: string, ok: bool, now: int, ghost was: States, ghost last0: Times, ghost done: States)
      returns (after: States)
      requires states == Observed(was, done) && lastSuccess == ObservedSuccess(was, last0, done, now) && last0.Keys <= was.Keys
      requires resourceSuccess == Health(states) && Mirrors(resourceLastSuccess, lastSuccess) && r !in done
      modifies this`lastSuccess, this`resourceSuccess, this`resourceLastSuccess
      ensures after == Observed(was, done[r := ok]) && lastSuccess == ObservedSuccess(was, last0, done[r := ok], now)
      ensures resourceSuccess == Health(after) && Mirrors(resourceLastSuccess, lastSuccess)
    {
      hide Observed, ObservedSuccess, Health, Mirrors;
      ObserveStep(was, last0, done, r, ok, now);
      SameKeys(was, done);
      MirrorsStep(resourceLastSuccess, lastSuccess, r, now);
      after := states;
      if r in states {
        after := states[r := ok];
        resourceSuccess := resourceSuccess[r := if ok then 1 else 0];
        if ok {
          lastSuccess := lastSuccess[r := now];
          resourceLastSuccess := resourceLastSuccess[r := Unix(now)];
        }
      }
    }

    /** Writes one batch of results into the maps and the series. */
    method ApplyResults(results: map<string, bool>, now: int)
      requires SeriesValid() && configured.Some? && PastOnly(lastSuccess, now) && NeverLater(lastSuccessGauge, lastSuccess, now)
      requires DataTimestampIs(dataTimestamp, States(), dataTimes)
      modifies this`configured, this`lastSuccess, this`resourceSuccess, this`resourceLastSuccess
      ensures SeriesValid() && PastOnly(lastSuccess, now) && NeverLater(lastSuccessGauge, lastSuccess, now)
      ensures configured == Some(Observed(old(States()), results)) && DataTimestampIs(dataTimestamp, States(), dataTimes)
      ensures lastSuccess == ObservedSuccess(old(States()), old(lastSuccess), results, now)
    {
      hide Observed, ObservedSuccess, Health, Mirrors, IsDone, Belong, PastOnly, NeverLater, DataTimestampIs;
      var states := configured.value;
      ghost var was, last0 := states, lastSuccess;
      TimesOf(was, lastSuccess, dataTimes);
      ObservedBelongs(was, last0, dataTimes, results, now, lastSuccessGauge, dataTimestamp);
      ObserveNothing(was, last0, now);
      ghost var done: States := map[];
      var pending := results.Keys;
      NothingDone(results);
      while pending != {}
        invariant IsDone(done, results, pending) && pending <= results.Keys
        invariant states == Observed(was, done) && lastSuccess == ObservedSuccess(was, last0, done, now)
        invariant resourceSuccess == Health(states) && Mirrors(resourceLastSuccess, lastSuccess)
        decreases |pending|
      {
        var r: string :| r in pending;
        DoneStep(results, pending, done, r);
        pending := pending - {r};
        states := ApplyOne(states, r, results[r], now, was, last0, done);
        done := done[r := results[r]];
      }
      AllDone(done, results);
      configured := Some(states);
    }

    /** One batch of results; results of resources that are no longer configured are ignored. */
    method ObserveResourceResults(results: map<string, bool>, now: int)
      requires Valid(now)
      modifies this
      ensures Valid(now)
      ensures configured == if old(configured).None? then None else Some(Observed(old(States()), results))
      ensures lastSuccess ==
                if old(configured).None? then old(lastSuccess) else ObservedSuccess(old(States()), old(lastSuccess), results, now)
      ensures dataTimes == old(dataTimes) && dataTimestamp == old(dataTimestamp) && staleAfterGauge == old(staleAfterGauge)
      ensures if old(configured).None? then success == old(success) && lastSuccessGauge == old(lastSuccessGauge)
              else Aggregated(States(), lastSuccess, old(lastSuccessGauge), success, lastSuccessGauge)
    {
      if configured.None? {
        return;
      }
      hide SeriesValid, Observed, ObservedSuccess, DataTimestampIs, NeverLater, PastOnly, SuccessIs, Aggregated, Valid;
      ObserveConfigured(results, now);
    }

    method ObserveConfigured(results: map<string, bool>, now: int)
      requires Valid(now) && configured.Some?
      modifies this`configured, this`lastSuccess, this`resourceSuccess, this`resourceLastSuccess, this`success, this`lastSuccessGauge
      ensures Valid(now) && configured == Some(Observed(old(States()), results))
      ensures lastSuccess == ObservedSuccess(old(States()), old(lastSuccess), results, now)
      ensures Aggregated(States(), lastSuccess, old(lastSuccessGauge), success, lastSuccessGauge)
    {
      hide SeriesValid, Observed, ObservedSuccess, DataTimestampIs, NeverLater, PastOnly, SuccessIs, Aggregated;
      ApplyResults(results, now);
      Refresh(now);
    }

    method SetResourceDataTimestamp(resource: string, dataAt: int, now: int)
      requires Valid(now)
      modifies this`resourceData, this`dataTimes, this`dataTimestamp
      ensures Valid(now)
      ensures dataTimes == if dataAt != ZERO_TIME && resource in States() then old(dataTimes)[resource := dataAt] else old(dataTimes)
    {
      if dataAt == ZERO_TIME {
        return;
      }
      if configured.None? {
        return;
      }
      if resource !in configured.value {
        return;
      }
      resourceData := resourceData[resource := Unix(dataAt)];
      dataTimes := dataTimes[resource := dataAt];
      UpdateDataTimestamp();
    }
  }

  /** A walk over failing resources alone leaves the gauge as it was. */
  lemma FailingKeepsGauge(states: States, last: Times, was: Option<int>, success: Option<int>, gauge: Option<int>)
    requires Aggregated(states, last, was, success, gauge) && states != map[] && forall r :: r in states ==> Failing(r, states, last)
    ensures gauge == was
  {
    var order :| IsOrder(order, states) && AggregatedIn(order, states, last, was, success, gauge);
    assert order[0] in order;
  }

  lemma OneSucceeds(a: string, now: int)
    ensures NamesOf([a]) == {a} && KeptStates(map[], {a}) == map[a := false] && Kept(map[], {a}) == map[]
    ensures Observed(map[a := false], map[a := true]) == map[a := true]
    ensures ObservedSuccess(map[a := false], map[], map[a := true], now) == map[a := now]
    ensures Observed(map[a := true], map[a := false]) == map[a := false]
    ensures ObservedSuccess(map[a := true], map[a := now], map[a := false], now) == map[a := now]
  {
  }

  lemma OneMore(a: string, b: string, now: int)
    requires a != b
    ensures NamesOf([a, b]) == {a, b} && KeptStates(map[a := false], {a, b}) == map[a := false, b := false]
    ensures Kept(map[a := now], {a, b}) == map[a := now]
  {
  }

  /** One resource succeeds and then fails: the gauge still shows its success. */
  method ReachFailure(a: string, now: int) returns (c: Collector)
    ensures fresh(c) && c.Valid(now) && c.configured == Some(map[a := false]) && c.lastSuccess == map[a := now]
    ensures c.lastSuccessGauge == Some(Unix(now))
  {
    hide NamesOf, KeptStates, Kept, Observed, ObservedSuccess, Aggregated, Collector.SeriesValid, NeverLater, PastOnly, DataTimestampIs;
    c := new Collector();
    OneSucceeds(a, now);
    c.ReplaceResources([a], 0, now);
    c.ObserveResourceResults(map[a := true], now);
    var was := c.lastSuccessGauge;
    assert c.States() == map[a := true];
    assert a in c.States() && c.SuccessIs();
    c.ObserveResourceResults(map[a := false], now);
    FailingKeepsGauge(c.States(), c.lastSuccess, was, c.success, c.lastSuccessGauge);
  }

  /** Then discovery adds another resource: whether that call keeps or deletes the gauge is up to the order of the map. */
  method ReachOrderDependence(a: string, b: string, now: int) returns (c: Collector, was: Option<int>)
    requires a != b
    ensures fresh(c) && c.Valid(now) && was == Some(Unix(now))
    ensures Aggregated(c.States(), c.lastSuccess, was, c.success, c.lastSuccessGauge)
    ensures exists p, q :: GaugesDiffer(p, q, c.States(), c.lastSuccess, was)
  {
    hide GaugesDiffer, NamesOf, KeptStates, Kept, Aggregated, NeverLater, PastOnly, DataTimestampIs, Health, Mirrors, Belong;
    c := ReachFailure(a, now);
    was := c.lastSuccessGauge;
    OneMore(a, b, now);
    c.ReplaceResources([a, b], 0, now);
    assert Missing(b, c.States(), c.lastSuccess) && Failing(a, c.States(), c.lastSuccess);
    OrderMattersForLastSuccess(c.States(), c.lastSuccess, was);
  }

  /** The part of a batch already walked. */
  ghost predicate IsDone(done: States, results: States, pending: set<string>) {
    done == map r | r in results && r !in pending :: results[r]
  }

  lemma DoneStep(results: States, pending: set<string>, done: States, r: string)
    requires r in results && r in pending && IsDone(done, results, pending)
    ensures r !in done && IsDone(done[r := results[r]], results, pending - {r})
  {
  }

  lemma NothingDone(results: States)
    ensures IsDone(map[], results, results.Keys)
  {
  }

  lemma AllDone(done: States, results: States)
    requires IsDone(done, results, {})
    ensures done == results
  {
  }

  lemma MirrorsStep(series: Times, times: Times, r: string, now: int)
    requires Mirrors(series, times)
    ensures Mirrors(series[r := Unix(now)], times[r := now])
  {
  }

  lemma SameKeys(was: States, results: States)
    ensures Observed(was, results).Keys == was.Keys
  {
  }

  lemma SameDataTimestamp(gauge: Option<int>, a: States, b: States, times: Times)
    requires a.Keys == b.Keys && DataTimestampIs(gauge, a, times)
    ensures DataTimestampIs(gauge, b, times)
  {
    assert a == map[] <==> b == map[];
    assert forall r :: r in a <==> r in b;
  }

  /** A sequence listing a finite set. */
  ghost function Remaining(s: set<string>): (order: seq<string>)
    ensures NoDuplicates(order) && forall r :: r in order <==> r in s
    decreases |s|
  {
    if s == {} then [] else
    var r: string :| r in s;
    [r] + Remaining(s - {r})
  }

  lemma NothingWalked()
    ensures NoDuplicates<string>([])
  {
  }

  lemma OneWalked(r: string)
    ensures NoDuplicates([r])
  {
  }

  lemma OrderThrough(walked: seq<string>, r: string, pending: set<string>, states: States)
    requires r in pending && forall q :: q in states <==> q in pending || q in walked
    requires NoDuplicates(walked) && forall q :: q in walked ==> q !in pending
    ensures IsOrder(walked + [r] + Remaining(pending - {r}), states)
  {
    hide NoDuplicates;
    OneWalked(r);
    DistinctConcat(walked, [r]);
    DistinctConcat(walked + [r], Remaining(pending - {r}));
  }

  lemma {:induction false} WalkStops(walked: seq<string>, r: string, rest: seq<string>, states: States, last: Times)
    requires forall q :: q in walked + [r] + rest ==> q in states
    requires |walked| > 0 ==> (forall q :: q in walked ==> q in states) && Walk(walked, states, last).AllSucceeded?
    requires r !in last || !states[r]
    ensures Walk(walked + [r] + rest, states, last) == if r !in last then NeverSucceeded else LastFailed
    decreases |walked|
  {
    var order := walked + [r] + rest;
    if |walked| > 0 {
      assert walked[0] in walked && order[0] == walked[0];
      assert order[1..] == walked[1..] + [r] + rest;
      WalkStops(walked[1..], r, rest, states, last);
    }
  }

  lemma {:induction false} WalkContinues(walked: seq<string>, r: string, states: States, last: Times)
    requires (forall q :: q in walked ==> q in states) && r in states && r in last && states[r]
    requires |walked| > 0 ==> Walk(walked, states, last).AllSucceeded?
    ensures var v := Walk(walked + [r], states, last);
      v == AllSucceeded(if |walked| == 0 || last[r] < Walk(walked, states, last).oldest then last[r] else Walk(walked, states, last).oldest)
    decreases |walked|
  {
    if |walked| > 0 {
      assert (walked + [r])[1..] == walked[1..] + [r];
      WalkContinues(walked[1..], r, states, last);
    }
  }

  lemma UnixMonotone(a: int, b: int)
    requires a <= b
    ensures Unix(a) <= Unix(b)
  {
  }

  lemma OldestUnix(oldest: int, states: States, times: Times)
    requires forall r :: r in states ==> r in times && oldest <= times[r]
    ensures forall r :: r in states ==> Unix(oldest) <= Unix(times[r])
  {
    forall r | r in states ensures Unix(oldest) <= Unix(times[r]) { UnixMonotone(oldest, times[r]); }
  }

  lemma UnixAll(now: int, times: Times)
    requires forall r :: r in times ==> times[r] <= now
    ensures forall r :: r in times ==> Unix(times[r]) <= Unix(now)
  {
    forall r | r in times ensures Unix(times[r]) <= Unix(now) { UnixMonotone(times[r], now); }
  }

  /** What any walk says about the gauges. */
  lemma AggregatesValid(order: seq<string>, states: States, last: Times)
    requires IsOrder(order, states) && |order| > 0 && last.Keys <= states.Keys
    requires forall r :: r in states && states[r] ==> r in last
    ensures var v := Walk(order, states, last);
      && states != map[]
      && (v.AllSucceeded? <==> forall r :: r in states ==> states[r])
      && (v.AllSucceeded? ==> forall r :: r in last ==> Unix(v.oldest) <= Unix(last[r]))
      && (v.AllSucceeded? ==> exists r :: r in last && last[r] == v.oldest)
  {
    assert order[0] in states;
    WalkMeans(order, states, last);
    var v := Walk(order, states, last);
    if v.AllSucceeded? {
      OldestUnix(v.oldest, states, last);
    }
  }
}
