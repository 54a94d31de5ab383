/** The adaptive burst-one limiter (internal/limiter/limiter.go). */
module Limiter {
  import opened Core
  import opened Clock

  const MAX_DURATION: int := 9_223_372_036_854_775_807
  const RECOVERY: int := 5 * MINUTE
  const MINIMUM_COOLDOWN: int := 5 * SECOND

  // ---- Pacing ----

  function Ceiling(x: real): int { -(-x).Floor }

  /** Never zero and never beyond the largest duration, however extreme the rate. */
  function PacingInterval(qps: real): (interval: int)
    requires qps > 0.0
    ensures 1 <= interval <= MAX_DURATION
  {
    var nanoseconds := SECOND as real / qps;
    if nanoseconds >= MAX_DURATION as real then MAX_DURATION
    else if nanoseconds <= 1.0 then 1
    else Ceiling(nanoseconds)
  }

  lemma QuotientAntitone(a: real, slow: real, fast: real)
    requires a > 0.0 && 0.0 < slow <= fast
    ensures a / fast <= a / slow
  {
    var q := a / fast;
    assert q * fast == a;
    assert q >= 0.0;
    assert q * slow <= q * fast by { assert q * (fast - slow) >= 0.0; }
    assert a / slow - q == (a - q * slow) / slow;
    assert (a - q * slow) / slow >= 0.0;
  }

  /** A slower rate never waits less. */
  lemma PacingAntitone(slow: real, fast: real)
    requires 0.0 < slow <= fast
    ensures PacingInterval(slow) >= PacingInterval(fast)
  {
    QuotientAntitone(SECOND as real, slow, fast);
  }

  /** The interval honours the rate: no shorter than its exact period, unless that exceeds every duration. */
  lemma PacingHonoursRate(qps: real)
    requires qps > 0.0
    ensures PacingInterval(qps) as real >= SECOND as real / qps || PacingInterval(qps) == MAX_DURATION
    ensures SECOND as real / qps > 1.0 ==> (PacingInterval(qps) - 1) as real < SECOND as real / qps
  {
  }

  // ---- The state, and its two transitions ----

  /** `recoverAfter` is none for the source's zero time. */
  datatype Pace = Pace(base: real, current: real, next: int, cooldownUntil: int, recoverAfter: Option<int>)

  function Fresh(qps: real): Pace { Pace(qps, qps, ZERO_TIME, ZERO_TIME, None) }

  function Later(a: int, b: int): int { if b > a then b else a }

  predicate Recovers(s: Pace, now: int) { s.recoverAfter.Some? && now >= s.recoverAfter.value }

  function Recovered(s: Pace, now: int): Pace {
    if !Recovers(s, now) then s
    else if s.current * 2.0 >= s.base then s.(current := s.base, recoverAfter := None)
    else s.(current := s.current * 2.0, recoverAfter := Some(now + RECOVERY))
  }

  function AllowedAt(s: Pace): int { Later(s.next, s.cooldownUntil) }

  datatype Taken = Taken(pace: Pace, delay: int, granted: bool)

  function Take(s: Pace, now: int): Taken
    requires s.current > 0.0 && s.base > 0.0
  {
    var r := Recovered(s, now);
    if AllowedAt(s) > now then Taken(r, AllowedAt(s) - now, false)
    else Taken(r.(next := now + PacingInterval(r.current)), 0, true)
  }

  function Limited(s: Pace, now: int, retryAfter: int): Pace {
    var cooldown := now + Later(MINIMUM_COOLDOWN, retryAfter);
    s.(cooldownUntil := Later(s.cooldownUntil, cooldown),
       current := if s.current / 2.0 < s.base / 16.0 then s.base / 16.0 else s.current / 2.0,
       recoverAfter := Some(now + RECOVERY))
  }

  /** What one poll of a waiting caller sees. */
  datatype Poll = Poll(now: int, cancelled: bool)

  /** A poll at which nothing stands in the way of a grant. */
  predicate Admits(s: Pace, poll: Poll) { !poll.cancelled && poll.now >= AllowedAt(s) }

  class RateLimiter {
    const base: real
    const gated: bool
    var currentQps: real
    var next: int
    var cooldownUntil: int
    var recoverAfter: Option<int>
    /** Concurrency slots the modelled caller holds. */
    var held: nat

    function State(): Pace
      reads this
    {
      Pace(base, currentQps, next, cooldownUntil, recoverAfter)
    }

    ghost predicate Valid()
      reads this
    {
      base > 0.0 && currentQps > 0.0
    }

    constructor (qps: real, gated: bool)
      requires qps > 0.0
      ensures Valid() && State() == Fresh(qps) && this.gated == gated && held == 0
    {
      base, currentQps := qps, qps;
      this.gated := gated;
      next, cooldownUntil, recoverAfter, held := ZERO_TIME, ZERO_TIME, None, 0;
    }

    method TakeOrDelay(now: int) returns (delay: int, granted: bool)
      requires Valid()
      modifies this`currentQps, this`next, this`recoverAfter
      ensures Valid()
      ensures Taken(State(), delay, granted) == Take(old(State()), now)
    {
      if recoverAfter.Some? && now >= recoverAfter.value {
        currentQps := currentQps * 2.0;
        if currentQps >= base {
          currentQps := base;
          recoverAfter := None;
        } else {
          recoverAfter := Some(now + RECOVERY);
        }
      }
      var allowedAt := now;
      if next > allowedAt {
        allowedAt := next;
      }
      if cooldownUntil > allowedAt {
        allowedAt := cooldownUntil;
      }
      if allowedAt > now {
        return allowedAt - now, false;
      }
      next := now + PacingInterval(currentQps);
      return 0, true;
    }

    method OnRateLimited(now: int, retryAfter: int)
      requires Valid()
      modifies this`currentQps, this`cooldownUntil, this`recoverAfter
      ensures Valid() && State() == Limited(old(State()), now, retryAfter)
    {
      var wait := retryAfter;
      if wait < MINIMUM_COOLDOWN {
        wait := MINIMUM_COOLDOWN;
      }
      var until := now + wait;
      if until > cooldownUntil {
        cooldownUntil := until;
      }
      currentQps := currentQps / 2.0;
      var floor := base / 16.0;
      if currentQps < floor {
        currentQps := floor;
      }
      recoverAfter := Some(now + RECOVERY);
    }

    /**
     * Waits for a slot, then for a grant. The caller is cancelled while queueing when `slot` is false, and otherwise
     * polls until a grant, a cancellation, or the end of what it sees. Only a granted caller keeps its slot.
     */
    method Acquire(cancelled: bool, slot: bool, polls: seq<Poll>) returns (granted: bool)
      requires Valid()
      modifies this
      ensures Valid() && cooldownUntil == old(cooldownUntil)
      ensures held == old(held) + if granted && gated then 1 else 0
      ensures !granted ==> next == old(next)
      ensures granted ==> exists i :: 0 <= i < |polls| && Admits(old(State()), polls[i]) && next == polls[i].now + PacingInterval(currentQps)
      ensures !granted && !cancelled && (slot || !gated) ==>
                (exists i :: 0 <= i < |polls| && polls[i].cancelled) || forall i :: 0 <= i < |polls| ==> !Admits(old(State()), polls[i])
    {
      if cancelled {
        return false;
      }
      if gated {
        if !slot {
          return false;
        }
        held := held + 1;
      }
      for i := 0 to |polls|
        invariant Valid() && cooldownUntil == old(cooldownUntil) && next == old(next)
        invariant held == old(held) + if gated then 1 else 0
        invariant forall j :: 0 <= j < i ==> !Admits(old(State()), polls[j])
      {
        if polls[i].cancelled {
          Release();
          return false;
        }
        var delay, taken := TakeOrDelay(polls[i].now);
        if taken {
          return true;
        }
      }
      Release();
      return false;
    }

    method Release()
      requires Valid() && (gated ==> held > 0)
      modifies this`held
      ensures Valid() && held == old(held) - if gated then 1 else 0
    {
      if gated {
        held := held - 1;
      }
    }
  }

  // ---- The rate ----

  function Halved(base: real, k: nat): real { if k == 0 then base else Halved(base, k - 1) / 2.0 }

  /** The rate is the base halved at most four times, and recovery is pending exactly when it is below the base. */
  ghost predicate AtLevel(s: Pace, k: nat) {
    && s.base > 0.0 && k <= 4 && s.current == Halved(s.base, k) && (s.recoverAfter.Some? <==> k > 0)
  }

  lemma Levels(base: real)
    requires base > 0.0
    ensures Halved(base, 0) == base && Halved(base, 1) == base / 2.0 && Halved(base, 2) == base / 4.0
    ensures Halved(base, 3) == base / 8.0 && Halved(base, 4) == base / 16.0 && Halved(base, 5) == base / 32.0
  {
    assert Halved(base, 2) == Halved(base, 1) / 2.0;
    assert Halved(base, 4) == Halved(base, 3) / 2.0;
  }

  lemma LimitedLevel(s: Pace, k: nat, now: int, retryAfter: int)
    requires AtLevel(s, k)
    ensures AtLevel(Limited(s, now, retryAfter), if k < 4 then k + 1 else 4)
  {
    Levels(s.base);
  }

  lemma RecoveredLevel(s: Pace, k: nat, now: int)
    requires AtLevel(s, k)
    ensures AtLevel(Recovered(s, now), if Recovers(s, now) then k - 1 else k)
  {
    Levels(s.base);
  }

  lemma TakeLevel(s: Pace, k: nat, now: int)
    requires AtLevel(s, k)
    ensures s.current > 0.0 && AtLevel(Take(s, now).pace, if Recovers(s, now) then k - 1 else k)
  {
    Levels(s.base);
    RecoveredLevel(s, k, now);
  }

  // ---- Runs: the laws below hold for every sequence of readings of the clock ----

  datatype Event = Attempt(now: int) | RateLimited(now: int, retryAfter: int)

  /** The state after a run, together with the level of its rate. */
  ghost function After(qps: real, events: seq<Event>): (s: (Pace, nat))
    requires qps > 0.0
    ensures AtLevel(s.0, s.1) && s.0.base == qps
  {
    if |events| == 0 then (Fresh(qps), 0)
    else
      var (s, k) := After(qps, events[..|events| - 1]);
      match events[|events| - 1]
      case Attempt(now) =>
        TakeLevel(s, k, now);
        (Take(s, now).pace, if Recovers(s, now) then k - 1 else k)
      case RateLimited(now, retryAfter) =>
        LimitedLevel(s, k, now, retryAfter);
        (Limited(s, now, retryAfter), if k < 4 then k + 1 else 4)
  }

  ghost predicate Granted(qps: real, events: seq<Event>, i: nat)
    requires qps > 0.0 && i < |events|
  {
    var (s, k) := After(qps, events[..i]);
    events[i].Attempt? && (Levels(qps); Take(s, events[i].now).granted)
  }

  /** The times of all grants, in order. */
  ghost function Grants(qps: real, events: seq<Event>): seq<int>
    requires qps > 0.0
  {
    if |events| == 0 then []
    else
      var init, i := events[..|events| - 1], |events| - 1;
      if Granted(qps, events, i) then Grants(qps, init) + [events[i].now] else Grants(qps, init)
  }

  lemma LevelBelowBase(s: Pace, k: nat)
    requires AtLevel(s, k)
    ensures 0.0 < s.current <= s.base
  {
    Levels(s.base);
  }

  /** A grant moves the pacing clock at least one base interval ahead; nothing else moves it. */
  lemma TakePacing(s: Pace, k: nat, now: int)
    requires AtLevel(s, k)
    ensures s.current > 0.0
    ensures var t := Take(s, now);
      if t.granted then now >= s.next && now >= s.cooldownUntil && t.pace.next >= now + PacingInterval(s.base)
      else t.pace.next == s.next && t.delay > 0
    ensures Take(s, now).pace.cooldownUntil == s.cooldownUntil
  {
    LevelBelowBase(s, k);
    RecoveredLevel(s, k, now);
    LevelBelowBase(Recovered(s, now), if Recovers(s, now) then k - 1 else k);
    PacingAntitone(Recovered(s, now).current, s.base);
  }

  lemma {:induction false} GrantsPacing(qps: real, events: seq<Event>)
    requires qps > 0.0
    ensures var g := Grants(qps, events);
      && (|g| > 0 ==> After(qps, events).0.next >= g[|g| - 1] + PacingInterval(qps))
      && forall i :: 0 < i < |g| ==> g[i] >= g[i - 1] + PacingInterval(qps)
  {
    hide PacingInterval, Take, Limited, Recovers, AtLevel;
    if |events| > 0 {
      var init, last := events[..|events| - 1], events[|events| - 1];
      GrantsPacing(qps, init);
      var (s, k) := After(qps, init);
      if last.Attempt? {
        TakePacing(s, k, last.now);
      } else {
        LimitedKeeps(s, last.now, last.retryAfter);
      }
    }
  }

  lemma LimitedKeeps(s: Pace, now: int, retryAfter: int)
    ensures var l := Limited(s, now, retryAfter);
      && l.next == s.next && l.base == s.base && l.recoverAfter == Some(now + RECOVERY)
      && l.cooldownUntil >= s.cooldownUntil && l.cooldownUntil >= now + Later(MINIMUM_COOLDOWN, retryAfter)
  {
  }

  /** Main law: n grants inside a window of W nanoseconds satisfy (n-1) base intervals <= W. */
  lemma {:induction false} GrantWindow(qps: real, events: seq<Event>, first: nat, last: nat)
    requires qps > 0.0 && first <= last < |Grants(qps, events)|
    ensures (last - first) * PacingInterval(qps) <= Grants(qps, events)[last] - Grants(qps, events)[first]
    decreases last - first
  {
    hide PacingInterval, Grants;
    if first < last {
      GrantWindow(qps, events, first, last - 1);
      GrantsPacing(qps, events);
      assert (last - first) * PacingInterval(qps) == (last - 1 - first) * PacingInterval(qps) + PacingInterval(qps);
    }
  }

  lemma {:induction false} CooldownKept(qps: real, events: seq<Event>, i: nat)
    requires qps > 0.0 && i < |events| && events[i].RateLimited?
    ensures After(qps, events).0.cooldownUntil >= events[i].now + Later(MINIMUM_COOLDOWN, events[i].retryAfter)
  {
    hide Take, Limited, Recovers, AtLevel;
    var init, last := events[..|events| - 1], events[|events| - 1];
    var (s, k) := After(qps, init);
    if i < |init| {
      CooldownKept(qps, init, i);
    }
    if last.Attempt? {
      TakePacing(s, k, last.now);
    } else {
      LimitedKeeps(s, last.now, last.retryAfter);
    }
  }

  /** Main law: after any rate-limit event nothing is granted for max(5s, retryAfter). */
  lemma CooldownRespected(qps: real, events: seq<Event>, i: nat, j: nat)
    requires qps > 0.0 && i < j < |events| && events[i].RateLimited? && Granted(qps, events, j)
    ensures events[j].now >= events[i].now + Later(MINIMUM_COOLDOWN, events[i].retryAfter)
  {
    hide Take, Limited, Recovers, AtLevel, Later;
    var (s, k) := After(qps, events[..j]);
    assert events[..j][i] == events[i];
    CooldownKept(qps, events[..j], i);
    TakePacing(s, k, events[j].now);
  }

  /** A delayed caller that comes back exactly when told is granted, and no earlier, unless someone else got there first. */
  lemma DelayIsExact(s: Pace, k: nat, now: int, again: int)
    requires AtLevel(s, k) && s.current > 0.0 && !Take(s, now).granted && again >= now
    ensures var waiting := Take(s, now).pace;
      waiting.current > 0.0 && waiting.base > 0.0 && (Take(waiting, again).granted <==> again >= now + Take(s, now).delay)
  {
    LevelBelowBase(s, k);
    TakeLevel(s, k, now);
    LevelBelowBase(Take(s, now).pace, if Recovers(s, now) then k - 1 else k);
  }

  // ---- Both sides: exactly when a caller is granted ----

  /** A grant sets the pacing clock one interval of the halved rate ahead, no more and no less. */
  lemma GrantPace(s: Pace, k: nat, now: int)
    requires AtLevel(s, k) && s.current > 0.0 && Take(s, now).granted
    ensures var level := if Recovers(s, now) then k - 1 else k;
      Halved(s.base, level) > 0.0 && Take(s, now).pace.next == now + PacingInterval(Halved(s.base, level))
  {
    RecoveredLevel(s, k, now);
    LevelBelowBase(Recovered(s, now), if Recovers(s, now) then k - 1 else k);
  }

  /** The state of a limiter that was never rate limited. */
  lemma {:induction false} SteadyState(qps: real, events: seq<Event>)
    requires qps > 0.0 && forall i :: 0 <= i < |events| ==> events[i].Attempt?
    ensures var s, g := After(qps, events).0, Grants(qps, events);
      && s.current == s.base == qps && s.recoverAfter.None? && s.cooldownUntil == ZERO_TIME
      && s.next == if |g| == 0 then ZERO_TIME else g[|g| - 1] + PacingInterval(qps)
  {
    if |events| > 0 {
      hide PacingInterval, AtLevel;
      SteadyState(qps, events[..|events| - 1]);
    }
  }

  /** Main law of pacing: without rate limiting a caller is granted exactly when one interval has passed since the last grant. */
  lemma SteadyGrants(qps: real, events: seq<Event>, i: nat)
    requires qps > 0.0 && i < |events| && forall j :: 0 <= j < |events| ==> events[j].Attempt?
    ensures var g := Grants(qps, events[..i]);
      Granted(qps, events, i) <==>
        events[i].now >= ZERO_TIME && (|g| > 0 ==> events[i].now >= g[|g| - 1] + PacingInterval(qps))
  {
    hide PacingInterval, AtLevel;
    SteadyState(qps, events[..i]);
  }

  /** A cooldown ends when some rate-limited answer said so: five seconds after it, or as much later as it asked. */
  lemma {:induction false} CooldownIsSomeEvent(qps: real, events: seq<Event>)
    requires qps > 0.0
    ensures var until := After(qps, events).0.cooldownUntil;
      until == ZERO_TIME || exists i :: 0 <= i < |events| && events[i].RateLimited? && CoolsUntil(events[i], until)
  {
    if |events| > 0 {
      hide Take, AtLevel, PacingInterval;
      var init, last := events[..|events| - 1], events[|events| - 1];
      CooldownIsSomeEvent(qps, init);
      var was := After(qps, init).0.cooldownUntil;
      if last.Attempt? {
        TakePacing(After(qps, init).0, After(qps, init).1, last.now);
      }
      if i :| 0 <= i < |init| && init[i].RateLimited? && CoolsUntil(init[i], was) {
        assert events[i] == init[i];
      }
    }
  }

  predicate CoolsUntil(e: Event, until: int)
    requires e.RateLimited?
  {
    until == e.now + if e.retryAfter > 5_000_000_000 then e.retryAfter else 5_000_000_000
  }

  // ---- Recovery ----

  /** The last instant at which the rate changed: a rate-limit event or a recovery step. */
  ghost function LastChange(qps: real, events: seq<Event>): Option<int>
    requires qps > 0.0
  {
    if |events| == 0 then None
    else
      var init, last := events[..|events| - 1], events[|events| - 1];
      if last.RateLimited? || Recovers(After(qps, init).0, last.now) then Some(last.now) else LastChange(qps, init)
  }

  /** A pending recovery is due exactly five minutes after the last change. */
  lemma {:induction false} RecoveryDue(qps: real, events: seq<Event>)
    requires qps > 0.0
    ensures var s := After(qps, events).0;
      s.recoverAfter.Some? ==> LastChange(qps, events).Some? && s.recoverAfter.value == LastChange(qps, events).value + 300_000_000_000
  {
    if |events| > 0 {
      hide Limited, PacingInterval, AtLevel, AllowedAt;
      var init, last := events[..|events| - 1], events[|events| - 1];
      RecoveryDue(qps, init);
      if last.RateLimited? {
        LimitedKeeps(After(qps, init).0, last.now, last.retryAfter);
      } else {
        LevelBelowBase(After(qps, init).0, After(qps, init).1);
      }
    }
  }

  /** Main law: the rate rises only by one doubling, only at an attempt, and only after five quiet minutes. */
  lemma RisesOnlyWhenQuiet(qps: real, events: seq<Event>)
    requires qps > 0.0 && |events| > 0
    ensures var init, last := events[..|events| - 1], events[|events| - 1];
      var before, after := After(qps, init).1, After(qps, events).1;
      && before - 1 <= after <= 4
      && (after < before ==>
            && after == before - 1 && last.Attempt?
            && LastChange(qps, init).Some? && last.now >= LastChange(qps, init).value + 300_000_000_000)
  {
    hide Take, Limited, Halved;
    RecoveryDue(qps, events[..|events| - 1]);
  }

  /** Attempts that each find their recovery due. */
  ghost predicate Spaced(s: Pace, times: seq<int>)
    requires s.current > 0.0 && s.base > 0.0
    decreases |times|
  {
    |times| == 0
    || ((s.recoverAfter.Some? ==> times[0] >= s.recoverAfter.value)
        && (LevelStays(s, times[0]); Spaced(Take(s, times[0]).pace, times[1..])))
  }

  lemma LevelStays(s: Pace, now: int)
    requires s.current > 0.0 && s.base > 0.0
    ensures Take(s, now).pace.current > 0.0 && Take(s, now).pace.base > 0.0
  {
  }

  function TakeAll(s: Pace, times: seq<int>): Pace
    requires s.current > 0.0 && s.base > 0.0
    decreases |times|
  {
    if |times| == 0 then s
    else
      LevelStays(s, times[0]);
      TakeAll(Take(s, times[0]).pace, times[1..])
  }

  /** From every reachable state four such attempts restore the base rate; one per level suffices. */
  lemma {:induction false} FourAttemptsRestore(s: Pace, k: nat, times: seq<int>)
    requires AtLevel(s, k) && s.current > 0.0 && |times| >= k && Spaced(s, times)
    ensures TakeAll(s, times).current == s.base && TakeAll(s, times).recoverAfter.None?
    decreases |times|
  {
    Levels(s.base);
    if |times| > 0 {
      TakeLevel(s, k, times[0]);
      LevelStays(s, times[0]);
      hide Take;
      var next := Take(s, times[0]).pace;
      TakeBase(s, times[0]);
      FourAttemptsRestore(next, if Recovers(s, times[0]) then k - 1 else k, times[1..]);
    }
  }

  lemma TakeBase(s: Pace, now: int)
    requires s.current > 0.0 && s.base > 0.0
    ensures Take(s, now).pace.base == s.base
  {
  }
}
