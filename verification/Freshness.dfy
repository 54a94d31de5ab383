/**
 * The freshness bound: configuration, scheduler jitter, the safe window and the staleness test together
 * (internal/config/config.go, internal/poller/scheduler.go, internal/app/cdn.go, internal/snapshot/snapshot.go).
 */
module Freshness {
  import opened Core
  import opened Clock
  import opened MonitoringRound
  import opened Stores
  import UsageJob

  // ---- Configuration ----

  datatype Config = Config(
    kodoEnabled: bool, kodoVerified: bool, cdnEnabled: bool, cdnVerified: bool, unitsVerified: bool,
    kodoCapacity: int, kodoActivity: int, cdnMonitoring: int, cdnAnalytics: int, sourceLag: int, staleAfter: int)

  function Max(a: int, b: int): int { if a < b then b else a }

  function MaximumRealtimeInterval(c: Config): int {
    var kodo := if c.kodoEnabled && c.kodoVerified then Max(c.kodoCapacity, c.kodoActivity) else 0;
    var cdn := if c.cdnEnabled && c.cdnVerified then Max(kodo, c.cdnAnalytics) else kodo;
    if c.cdnEnabled && c.cdnVerified && c.unitsVerified then Max(cdn, c.cdnMonitoring) else cdn
  }

  predicate Enabled(c: Config, interval: int) {
    || (c.kodoEnabled && c.kodoVerified && (interval == c.kodoCapacity || interval == c.kodoActivity))
    || (c.cdnEnabled && c.cdnVerified && (interval == c.cdnAnalytics || (c.unitsVerified && interval == c.cdnMonitoring)))
  }

  /** The part of Validate that bounds the realtime jobs. */
  predicate Accepts(c: Config) {
    && c.sourceLag >= FIVE_MINUTES
    && c.kodoCapacity >= FIVE_MINUTES && c.kodoActivity >= FIVE_MINUTES
    && c.cdnMonitoring >= FIVE_MINUTES && c.cdnAnalytics >= FIVE_MINUTES
    && c.staleAfter > 0
    && var longest := MaximumRealtimeInterval(c);
      longest > 0 ==> c.staleAfter >= c.sourceLag + FIVE_MINUTES + longest + longest / 10
  }

  /** The one bound on the longest interval serves every enabled one. */
  lemma AcceptedInterval(c: Config, interval: int)
    requires Accepts(c) && Enabled(c, interval)
    ensures interval >= FIVE_MINUTES && c.staleAfter >= c.sourceLag + FIVE_MINUTES + interval + interval / 10
  {
    assert interval <= MaximumRealtimeInterval(c);
  }

  /** A configuration is accepted exactly when its floors hold and every enabled realtime interval meets the bound. */
  lemma AcceptsExactly(c: Config)
    ensures Accepts(c) <==>
              && c.sourceLag >= 300_000_000_000 && c.staleAfter > 0
              && c.kodoCapacity >= 300_000_000_000 && c.kodoActivity >= 300_000_000_000
              && c.cdnMonitoring >= 300_000_000_000 && c.cdnAnalytics >= 300_000_000_000
              && forall interval :: Enabled(c, interval) ==> c.staleAfter >= c.sourceLag + 300_000_000_000 + interval + interval / 10
  {
    var longest := MaximumRealtimeInterval(c);
    if c.kodoCapacity >= FIVE_MINUTES && c.kodoActivity >= FIVE_MINUTES && c.cdnMonitoring >= FIVE_MINUTES && c.cdnAnalytics >= FIVE_MINUTES {
      assert longest > 0 ==> Enabled(c, longest);
      forall interval | Enabled(c, interval)
        ensures 0 < interval <= longest && interval / 10 <= longest / 10
      {
      }
    }
  }

  // ---- The scheduler loop ----

  /** The jittered interval: at most a tenth of the interval either way. */
  predicate IsJittered(interval: int, drawn: int) {
    interval - interval / 10 <= drawn <= interval + interval / 10
  }

  /** One pass of the loop: when the job started, how long it took, and the interval drawn afterwards. */
  datatype Pass = Pass(started: int, duration: int, drawn: int)

  predicate Overlaps(p: Pass) { p.drawn - p.duration <= 0 }

  /** Start of the next pass: an overlapping pass waits a whole further interval. */
  function NextStart(interval: int, p: Pass): int {
    p.started + p.duration + if Overlaps(p) then interval else p.drawn - p.duration
  }

  predicate HonoursTimeout(interval: int, p: Pass) {
    0 <= p.duration <= UsageJob.CollectionTimeout(interval) && IsJittered(interval, p.drawn)
  }

  /** A pass that honours its timeout never overlaps, and the next one starts a jittered interval after it started. */
  lemma NeverOverlaps(interval: int, p: Pass)
    requires interval >= FIVE_MINUTES && HonoursTimeout(interval, p)
    ensures !Overlaps(p) && NextStart(interval, p) == p.started + p.drawn
  {
  }

  ghost predicate IsSchedule(interval: int, passes: seq<Pass>) {
    && (forall i :: 0 <= i < |passes| ==> HonoursTimeout(interval, passes[i]))
    && forall i :: 0 < i < |passes| ==> passes[i].started == NextStart(interval, passes[i - 1])
  }

  /** Over any run the drift stays within a tenth of the elapsed intervals. */
  lemma {:induction false} ScheduleDrift(interval: int, passes: seq<Pass>, n: nat)
    requires interval >= FIVE_MINUTES && IsSchedule(interval, passes) && n < |passes|
    ensures n * (interval - interval / 10) <= passes[n].started - passes[0].started <= n * (interval + interval / 10)
  {
    if n > 0 {
      ScheduleDrift(interval, passes, n - 1);
      NeverOverlaps(interval, passes[n - 1]);
      IntervalMultiple(n, interval - interval / 10);
      IntervalMultiple(n, interval + interval / 10);
    }
  }

  lemma IntervalMultiple(n: nat, d: int)
    requires n > 0
    ensures n * d == (n - 1) * d + d
  {
  }

  // ---- What a pass publishes ----

  /** Collected while the pass ran, from data ending at the safe point of an instant of that pass. */
  ghost predicate Publishes(c: Config, p: Pass, windowAt: int, m: Meta) {
    && p.started <= windowAt <= m.collectedAt <= p.started + p.duration
    && m.dataAt == SafeBefore(windowAt, c.sourceLag) && m.dataAt != ZERO_TIME && m.collectedAt != ZERO_TIME
    && m.staleAfter == c.staleAfter
  }

  lemma SafePointAge(windowAt: int, sourceLag: int)
    requires sourceLag >= 0
    ensures windowAt - sourceLag - FIVE_MINUTES < SafeBefore(windowAt, sourceLag) <= windowAt - sourceLag
  {
  }

  /** Main law: for every accepted configuration a published snapshot is still loadable when the next pass starts. */
  lemma LoadableAtNextStart(c: Config, interval: int, p: Pass, windowAt: int, m: Meta, now: int)
    requires Accepts(c) && Enabled(c, interval) && HonoursTimeout(interval, p) && Publishes(c, p, windowAt, m)
    requires now <= NextStart(interval, p)
    ensures !Overlaps(p) && !Stale(now, m)
  {
    AcceptedInterval(c, interval);
    NeverOverlaps(interval, p);
    SafePointAge(windowAt, c.sourceLag);
  }

  // ---- And until the next pass publishes? ----

  /** The longest time from a safe point to the next publication. */
  function WorstGap(c: Config, interval: int): int {
    c.sourceLag + FIVE_MINUTES - 1 + interval + interval / 10 + UsageJob.CollectionTimeout(interval)
  }

  /** The next pass also honours its timeout and publishes at that instant. */
  ghost predicate NextPublication(c: Config, interval: int, p: Pass, windowAt: int, m: Meta, published: int) {
    && HonoursTimeout(interval, p) && Publishes(c, p, windowAt, m)
    && NextStart(interval, p) <= published <= NextStart(interval, p) + UsageJob.CollectionTimeout(interval)
  }

  /** A sufficient stale_after: no snapshot expires before its successor appears. */
  lemma LoadableUntilPublished(c: Config, interval: int, p: Pass, windowAt: int, m: Meta, published: int)
    requires c.sourceLag >= FIVE_MINUTES && interval >= FIVE_MINUTES && c.staleAfter >= WorstGap(c, interval)
    requires NextPublication(c, interval, p, windowAt, m, published)
    ensures !Stale(published, m)
  {
    NeverOverlaps(interval, p);
    SafePointAge(windowAt, c.sourceLag);
  }

  /** And a necessary one: below it some pass leaves a gap in which nothing is loadable. */
  lemma GapBelowBound(c: Config, interval: int) returns (p: Pass, m: Meta, published: int)
    requires c.sourceLag >= FIVE_MINUTES && interval >= FIVE_MINUTES && 0 < c.staleAfter < WorstGap(c, interval)
    ensures NextPublication(c, interval, p, p.started, m, published) && Stale(published, m)
  {
    var started := c.sourceLag + FIVE_MINUTES - 1;
    p := Pass(started, 0, interval + interval / 10);
    m := Meta(started, SafeBefore(started, c.sourceLag), c.staleAfter);
    published := started + interval + interval / 10 + UsageJob.CollectionTimeout(interval);
    assert SafeBefore(started, c.sourceLag) == 0;
    NeverOverlaps(interval, p);
  }

  const DEFAULTS: Config := Config(true, true, true, true, true, 30 * MINUTE, 30 * MINUTE, 30 * MINUTE, 30 * MINUTE, 10 * MINUTE, HOUR)

  /** The accepted defaults lie below that bound: a slow round can leave a gap before it publishes. */
  lemma DefaultsAllowAGap()
    ensures Accepts(DEFAULTS) && Enabled(DEFAULTS, 30 * MINUTE) && DEFAULTS.staleAfter < WorstGap(DEFAULTS, 30 * MINUTE)
  {
  }
}
