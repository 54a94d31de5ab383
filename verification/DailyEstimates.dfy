/** Daily cost estimates from cumulative month snapshots (internal/app/billing.go). */
module DailyEstimates {
  import opened Core
  import opened Clock
  import opened BillingHistory
  import opened BillingSchedule

  /** Cumulative bills of the month so far, by the day they were taken. Money is a whole number of the smallest unit. */
  type Snapshots = map<int, Detail>

  /** The n-th request for one day's snapshot; none when it fails. */
  type Client = (int, nat) -> Option<Detail>

  datatype Estimate = Estimate(day: int, cost: int, currency: string)

  ghost predicate Present(cache: Snapshots, first: int, count: nat) {
    forall day :: first <= day < first + count ==> day in cache
  }

  /** What the bills of days first..last imply, one estimate per preceding day. */
  function Estimates(cache: Snapshots, first: int, count: nat): seq<Estimate>
    requires Present(cache, first, count)
  {
    if count == 0 then []
    else
      var day := first + count - 1;
      var before := if count == 1 then 0 else cache[day - 1].total;
      Estimates(cache, first, count - 1) + [Estimate(day - 1, cache[day].total - before, cache[day].currency)]
  }

  /** Every bill present, in one supported currency. */
  ghost predicate Ready(cache: Snapshots, first: int, count: nat) {
    && (forall day :: first <= day < first + count ==> day in cache && ValidCurrency(cache[day].currency))
    && forall day :: first < day < first + count ==> cache[day - 1].currency == cache[day].currency
  }

  function FirstSnapshot(snapshotDay: int): int { MonthStartDay(MonthOf(snapshotDay)) + 1 }

  /** The number of days of the month before the snapshot. */
  function DaysBefore(snapshotDay: int): nat { DayOfMonth(snapshotDay) - 1 }

  /** The cache may only grow, by answers for days it did not hold. */
  ghost predicate Extends(before: Snapshots, after: Snapshots, asked: seq<int>, client: Client) {
    && (forall day :: day in before ==> day in after && after[day] == before[day])
    && (forall day :: day in asked ==> day !in before)
    && forall day :: day in after && day !in before ==> day in asked && exists n: nat :: client(day, n) == Some(after[day])
  }

  /** The day's bill is there, supported, and in the currency of the day before. */
  predicate Fits(cache: Snapshots, first: int, day: int) {
    && day in cache && ValidCurrency(cache[day].currency)
    && (day > first ==> day - 1 in cache && cache[day - 1].currency == cache[day].currency)
  }

  lemma ReadyStep(cache: Snapshots, first: int, count: nat)
    requires Ready(cache, first, count)
    ensures Ready(cache, first, count + 1) <==> Fits(cache, first, first + count)
  {
  }

  lemma NotReady(cache: Snapshots, first: int, day: int, count: nat)
    requires first <= day < first + count && !Fits(cache, first, day)
    ensures !Ready(cache, first, count)
  {
  }

  lemma ReadyKept(before: Snapshots, after: Snapshots, first: int, count: nat)
    requires Ready(before, first, count) && forall day :: day in before ==> day in after && after[day] == before[day]
    ensures Ready(after, first, count) && Estimates(after, first, count) == Estimates(before, first, count)
  {
    hide ValidCurrency;
    EstimatesAgree(before, after, first, count);
  }

  // ---- One collection, as a function of the upstream ----

  datatype Filled = Filled(cache: Snapshots, asked: seq<int>, ok: bool)

  /** A day's bill: asked for unless it is cached, and cached before it is checked. */
  function Lookup(client: Client, day: int, cache: Snapshots, asked: seq<int>): Filled {
    if day in cache then Filled(cache, asked, true)
    else
      var answer := client(day, |asked|);
      Filled(if answer.Some? then cache[day := answer.value] else cache, asked + [day], answer.Some?)
  }

  /** The days from date to last, up to the first one whose bill is not there or does not fit. */
  function Fill(client: Client, first: int, last: int, date: int, cache: Snapshots, asked: seq<int>): Filled
    decreases last - date
  {
    if date > last then Filled(cache, asked, true)
    else
      var next := Lookup(client, date, cache, asked);
      if Fits(next.cache, first, date) then Fill(client, first, last, date + 1, next.cache, next.asked) else next.(ok := false)
  }

  /** Every answered day is cached with its answer. */
  ghost predicate Kept(client: Client, asked: seq<int>, cache: Snapshots) {
    forall i :: 0 <= i < |asked| && client(asked[i], i).Some? ==> asked[i] in cache && cache[asked[i]] == client(asked[i], i).value
  }

  /** Exactly the missing days of a range were asked for. */
  ghost predicate AskedFor(before: Snapshots, asked: seq<int>, first: int, date: int) {
    forall day :: day in asked <==> first <= day < date && day !in before
  }

  ghost predicate Accounted(before: Snapshots, cache: Snapshots, asked: seq<int>, client: Client) {
    Extends(before, cache, asked, client) && NoDuplicates(asked) && Kept(client, asked, cache)
  }

  /** The day a collection stops at: its request failed, or its bill does not fit. */
  ghost predicate StoppedAt(stop: int, before: Snapshots, after: Snapshots, asked: seq<int>, client: Client, first: int, last: int) {
    && first <= stop <= last && Ready(after, first, stop - first) && !Fits(after, first, stop)
    && AskedFor(before, asked, first, stop + 1)
    && (stop !in after ==> |asked| > 0 && asked[|asked| - 1] == stop && client(stop, |asked| - 1).None?)
  }

  /**
   * What one collection over the days first..last guarantees. Only missing days are asked for, once each, and every answer
   * is kept; it succeeds exactly when all bills are then there in one supported currency, and otherwise stops at one day.
   */
  ghost predicate CallResult(before: Snapshots, after: Snapshots, asked: seq<int>, client: Client, first: int, last: int, ok: bool)
    requires first <= last + 1
  {
    && Accounted(before, after, asked, client)
    && (ok <==> Ready(after, first, last + 1 - first))
    && (forall day :: day in asked ==> first <= day <= last)
    && if ok then AskedFor(before, asked, first, last + 1) else exists stop :: StoppedAt(stop, before, after, asked, client, first, last)
  }

  lemma LookupStep(client: Client, before: Snapshots, cache: Snapshots, asked: seq<int>, first: int, date: int)
    requires first <= date && Accounted(before, cache, asked, client) && AskedFor(before, asked, first, date) && Ready(cache, first, date - first)
    ensures var next := Lookup(client, date, cache, asked);
      && Accounted(before, next.cache, next.asked, client) && AskedFor(before, next.asked, first, date + 1)
      && Ready(next.cache, first, date - first) && next.ok == (date in next.cache)
      && (!next.ok ==> |next.asked| > 0 && next.asked[|next.asked| - 1] == date && client(date, |next.asked| - 1).None?)
  {
    hide NoDuplicates, Ready;
    ReadyKept(cache, Lookup(client, date, cache, asked).cache, first, date - first);
    if date !in cache {
      DistinctOne(date);
      DistinctConcat(asked, [date]);
      var next := Lookup(client, date, cache, asked);
      forall i | 0 <= i < |next.asked| && client(next.asked[i], i).Some?
        ensures next.asked[i] in next.cache && next.cache[next.asked[i]] == client(next.asked[i], i).value
      {
        assert i < |asked| ==> next.asked[i] == asked[i] && asked[i] in asked;
      }
    }
  }

  lemma DistinctOne(day: int)
    ensures NoDuplicates([day])
  {
  }

  lemma {:induction false} FillMeans(client: Client, before: Snapshots, cache: Snapshots, asked: seq<int>, first: int, last: int, date: int)
    requires first <= date <= last + 1
    requires Accounted(before, cache, asked, client) && AskedFor(before, asked, first, date) && Ready(cache, first, date - first)
    ensures var r := Fill(client, first, last, date, cache, asked); CallResult(before, r.cache, r.asked, client, first, last, r.ok)
    decreases last - date
  {
    hide Accounted, Ready, Lookup, Fits;
    if date <= last {
      var next := Lookup(client, date, cache, asked);
      LookupStep(client, before, cache, asked, first, date);
      if Fits(next.cache, first, date) {
        ReadyStep(next.cache, first, date - first);
        FillMeans(client, before, next.cache, next.asked, first, last, date + 1);
      } else {
        NotReady(next.cache, first, date, last + 1 - first);
        assert StoppedAt(date, before, next.cache, next.asked, client, first, last);
      }
    }
  }

  lemma CollectMeans(client: Client, before: Snapshots, first: int, last: int)
    requires first <= last + 1
    ensures var r := Fill(client, first, last, first, before, []); CallResult(before, r.cache, r.asked, client, first, last, r.ok)
  {
    FillMeans(client, before, before, [], first, last, first);
  }

  class EstimateCache {
    var month: Option<int>
    var snapshots: Snapshots

    constructor ()
      ensures State() == INITIAL
    {
      month, snapshots := None, map[];
    }

    function State(): EstimateState
      reads this
    {
      EstimateState(month, snapshots)
    }

    /** Asks for a day's bill unless it is cached; an answer is cached before it is checked. */
    method Fetch(client: Client, day: int, earlier: seq<int>) returns (ok: bool, asked: seq<int>)
      modifies this`snapshots
      ensures Filled(snapshots, asked, ok) == Lookup(client, day, old(snapshots), earlier)
    {
      if day in snapshots {
        return true, earlier;
      }
      var answer := client(day, |earlier|);
      if answer.Some? {
        snapshots := snapshots[day := answer.value];
      }
      return answer.Some?, earlier + [day];
    }

    /** The next day's estimate, if its bill can be had and fits the day before. */
    method NextEstimate(client: Client, first: int, date: int, earlier: seq<int>) returns (estimate: Option<Estimate>, asked: seq<int>)
      requires first <= date && Ready(snapshots, first, date - first)
      modifies this`snapshots
      ensures var next := Lookup(client, date, old(snapshots), earlier); next.cache == snapshots && next.asked == asked
      ensures estimate.Some? <==> Fits(snapshots, first, date)
      ensures estimate.Some? ==>
                && Ready(snapshots, first, date - first + 1)
                && Estimates(snapshots, first, date - first + 1) == old(Estimates(snapshots, first, date - first)) + [estimate.value]
    {
      hide ValidCurrency, Ready;
      ghost var was := snapshots;
      ReadyIsPresent(was, first, date - first);
      var ok;
      ok, asked := Fetch(client, date, earlier);
      if !ok {
        return None, asked;
      }
      ReadyKept(was, snapshots, first, date - first);
      ReadyStep(snapshots, first, date - first);
      ReadyIsPresent(snapshots, first, date - first);
      var current := snapshots[date];
      if !ValidCurrency(current.currency) {
        return None, asked;
      }
      var cost := current.total;
      if date > first {
        if snapshots[date - 1].currency != current.currency {
          return None, asked;
        }
        cost := cost - snapshots[date - 1].total;
      }
      return Some(Estimate(date - 1, cost, current.currency)), asked;
    }

    /** Fills the missing days and differences the bills. */
    method CollectDailyEstimates(client: Client, snapshotDay: int) returns (result: Option<seq<Estimate>>, asked: seq<int>)
      modifies this`snapshots
      ensures FirstSnapshot(snapshotDay) <= snapshotDay + 1
      ensures Filled(snapshots, asked, result.Some?) == Fill(client, FirstSnapshot(snapshotDay), snapshotDay, FirstSnapshot(snapshotDay), old(snapshots), [])
      ensures CallResult(old(snapshots), snapshots, asked, client, FirstSnapshot(snapshotDay), snapshotDay, result.Some?)
      ensures result.Some? ==>
                && Ready(snapshots, FirstSnapshot(snapshotDay), DaysBefore(snapshotDay))
                && result.value == Estimates(snapshots, FirstSnapshot(snapshotDay), DaysBefore(snapshotDay))
    {
      hide FirstSnapshot, DaysBefore, DayOfMonth, Ready, Estimates, Fits, Present, CallResult, Lookup;
      ghost var before := snapshots;
      MonthShape(snapshotDay, snapshots);
      asked := [];
      var first, date := FirstSnapshot(snapshotDay), FirstSnapshot(snapshotDay);
      CollectMeans(client, before, first, snapshotDay);
      if DayOfMonth(snapshotDay) == 1 {
        return Some([]), asked;
      }
      var estimates: seq<Estimate> := [];
      while date <= snapshotDay
        invariant first <= date <= snapshotDay + 1
        invariant Fill(client, first, snapshotDay, date, snapshots, asked) == Fill(client, first, snapshotDay, first, before, [])
        invariant Ready(snapshots, first, date - first) && Present(snapshots, first, date - first)
        invariant estimates == Estimates(snapshots, first, date - first)
        decreases snapshotDay + 1 - date
      {
        var estimate;
        estimate, asked := NextEstimate(client, first, date, asked);
        if estimate.None? {
          return None, asked;
        }
        estimates := estimates + [estimate.value];
        date := date + 1;
        ReadyIsPresent(snapshots, first, date - first);
      }
      return Some(estimates), asked;
    }

    /** The scheduled job: fetches the day's bill, and publishes it only together with all estimates of the month. */
    method RunEstimate(client: Client, now: int) returns (published: Option<Publication>, asked: seq<int>)
      modifies this
      ensures match SelectPeriods(now).snapshotDay
        case None => State() == old(State()) && published.None? && asked == []
        case Some(day) =>
          && Ran(State(), asked, published.Some?) == RunOutcome(client, old(State()), day)
          && (published.Some? ==> IsPublication(published.value, client, day, snapshots))
    {
      hide FirstSnapshot, MonthOf, Fill, CallResult, Estimates, EstimatePeriod;
      var periods := SelectPeriods(now);
      if periods.snapshotDay.None? {
        return None, [];
      }
      var day := periods.snapshotDay.value;
      var bill := client(day, 0);
      if bill.None? {
        return None, [day];
      }
      if !ValidCurrency(bill.value.currency) {
        return None, [day];
      }
      if month != Some(MonthOf(day)) {
        month, snapshots := Some(MonthOf(day)), map[];
      }
      snapshots := snapshots[day := bill.value];
      ghost var found := snapshots;
      var daily, more := CollectDailyEstimates(Later(client), day);
      CallKeeps(found, snapshots, more, Later(client), FirstSnapshot(day), day, daily.Some?);
      if daily.None? {
        return None, [day] + more;
      }
      return Some(Publication(bill.value, EstimatePeriod(day), daily.value)), [day] + more;
    }
  }

  lemma CallKeeps(before: Snapshots, after: Snapshots, asked: seq<int>, client: Client, first: int, last: int, ok: bool)
    requires first <= last + 1 && CallResult(before, after, asked, client, first, last, ok)
    ensures forall day :: day in before ==> day in after && after[day] == before[day] && day !in asked
  {
  }

  lemma MonthShape(snapshotDay: int, cache: Snapshots)
    ensures Present(cache, FirstSnapshot(snapshotDay), 0) && (DayOfMonth(snapshotDay) == 1 ==> DaysBefore(snapshotDay) == 0)
    ensures FirstSnapshot(snapshotDay) + DaysBefore(snapshotDay) == snapshotDay + 1
    ensures Ready(cache, FirstSnapshot(snapshotDay), 0) && Estimates(cache, FirstSnapshot(snapshotDay), 0) == []
  {
  }

  lemma ReadyIsPresent(cache: Snapshots, first: int, count: nat)
    requires Ready(cache, first, count)
    ensures Present(cache, first, count)
  {
  }

  lemma {:induction false} EstimatesAgree(before: Snapshots, after: Snapshots, first: int, count: nat)
    requires forall day :: first <= day < first + count ==> day in before && day in after && after[day] == before[day]
    ensures Estimates(before, first, count) == Estimates(after, first, count)
  {
    if count > 0 {
      EstimatesAgree(before, after, first, count - 1);
    }
  }

  // ---- What the estimates mean ----

  function TotalCost(estimates: seq<Estimate>): int {
    if |estimates| == 0 then 0 else TotalCost(estimates[..|estimates| - 1]) + estimates[|estimates| - 1].cost
  }

  /** Each estimate is the difference of its day's bill and the one before; the month starts from nothing. */
  lemma {:induction false} EstimateIsDifference(cache: Snapshots, first: int, count: nat, i: nat)
    requires Ready(cache, first, count) && i < count
    ensures Present(cache, first, count) && |Estimates(cache, first, count)| == count
    ensures Estimates(cache, first, count)[i]
         == Estimate(first + i - 1, cache[first + i].total - (if i == 0 then 0 else cache[first + i - 1].total), cache[first + i].currency)
  {
    hide ValidCurrency;
    EstimatesCount(cache, first, count);
    if i < count - 1 {
      EstimateIsDifference(cache, first, count - 1, i);
    }
  }

  lemma {:induction false} EstimatesCount(cache: Snapshots, first: int, count: nat)
    requires Ready(cache, first, count)
    ensures |Estimates(cache, first, count)| == count && (count > 0 ==> |Estimates(cache, first, count - 1)| == count - 1)
  {
    if count > 0 {
      EstimatesCount(cache, first, count - 1);
    }
  }

  /** Main law: the estimates list consecutive days in order, and their costs telescope to the last cumulative bill. */
  lemma {:induction false} EstimatesTelescope(cache: Snapshots, first: int, count: nat)
    requires Ready(cache, first, count)
    ensures var e := Estimates(cache, first, count);
      && |e| == count
      && (forall i :: 0 <= i < count ==> e[i].day == first - 1 + i && e[i].currency == cache[first].currency)
      && TotalCost(e) == if count == 0 then 0 else cache[first + count - 1].total
  {
    if count > 0 {
      EstimatesTelescope(cache, first, count - 1);
      SameCurrency(cache, first, count);
      var init := Estimates(cache, first, count - 1);
      assert Estimates(cache, first, count)[..count - 1] == init;
    }
  }

  lemma {:induction false} SameCurrency(cache: Snapshots, first: int, count: nat)
    requires Ready(cache, first, count) && count > 0
    ensures cache[first + count - 1].currency == cache[first].currency
  {
    if count > 1 {
      SameCurrency(cache, first, count - 1);
    }
  }

  /** The days are exactly those of the month before the snapshot, for every prior content of the cache. */
  lemma DaysOfTheMonth(cache: Snapshots, snapshotDay: int)
    requires Ready(cache, FirstSnapshot(snapshotDay), DaysBefore(snapshotDay)) && DayOfMonth(snapshotDay) > 1
    ensures var e := Estimates(cache, FirstSnapshot(snapshotDay), DaysBefore(snapshotDay));
      && |e| == DayOfMonth(snapshotDay) - 1
      && (forall i :: 0 <= i < |e| ==> e[i].day == MonthStartDay(MonthOf(snapshotDay)) + i)
      && e[|e| - 1].day == snapshotDay - 1
      && TotalCost(e) == cache[snapshotDay].total
  {
    EstimatesTelescope(cache, FirstSnapshot(snapshotDay), DaysBefore(snapshotDay));
  }

  /** When every day is cached consistently, no further bill is requested by any later call of the month. */
  lemma ReadyAsksNothing(before: Snapshots, after: Snapshots, asked: seq<int>, client: Client, first: int, last: int)
    requires Extends(before, after, asked, client) && first <= last + 1 && Ready(before, first, last + 1 - first)
    requires forall day :: day in asked ==> first <= day <= last
    ensures forall day :: day !in asked
  {
    assert forall day :: first <= day <= last ==> day in before;
  }

  /** A day answered in one collection is never asked for by a later one, whether or not the first succeeded. */
  lemma AnsweredIsNotAskedAgain(before: Snapshots, middle: Snapshots, after: Snapshots, asked: seq<int>, again: seq<int>, client: Client,
                                later: Client, i: nat)
    requires Accounted(before, middle, asked, client) && Accounted(middle, after, again, later)
    requires i < |asked| && client(asked[i], i).Some?
    ensures asked[i] !in again && asked[i] in after && after[asked[i]] == client(asked[i], i).value
  {
    hide NoDuplicates;
    var day := asked[i];
    assert day in middle && middle[day] == client(asked[i], i).value;
  }

  // ---- Runs of the job, and when they recover ----

  datatype EstimateState = EstimateState(month: Option<int>, snapshots: Snapshots)

  const INITIAL: EstimateState := EstimateState(None, map[])

  /** The bills a run finds: those of its own month. */
  function Carried(s: EstimateState, day: int): Snapshots {
    if s.month == Some(MonthOf(day)) then s.snapshots else map[]
  }

  function Later(client: Client): Client {
    (day: int, n: nat) => client(day, n + 1)
  }

  datatype Ran = Ran(state: EstimateState, asked: seq<int>, ok: bool)

  /** One run: the new bill replaces the day's entry before the days of the month are filled. */
  function RunOutcome(client: Client, s: EstimateState, day: int): Ran {
    var bill := client(day, 0);
    if bill.None? || !ValidCurrency(bill.value.currency) then Ran(s, [day], false)
    else
      var filled := Fill(Later(client), FirstSnapshot(day), day, FirstSnapshot(day), Carried(s, day)[day := bill.value], []);
      Ran(EstimateState(Some(MonthOf(day)), filled.cache), [day] + filled.asked, filled.ok)
  }

  datatype Publication = Publication(bill: Detail, period: Span, daily: seq<Estimate>)

  /** The published bill is the new one, and the estimates are those of its month. */
  ghost predicate IsPublication(p: Publication, client: Client, day: int, cache: Snapshots) {
    && client(day, 0) == Some(p.bill) && day in cache && cache[day] == p.bill && p.period == EstimatePeriod(day)
    && Ready(cache, FirstSnapshot(day), DaysBefore(day)) && p.daily == Estimates(cache, FirstSnapshot(day), DaysBefore(day))
  }

  /** Published together, the estimates add up to the bill, in its currency. */
  lemma PublicationAddsUp(p: Publication, client: Client, day: int, cache: Snapshots)
    requires IsPublication(p, client, day, cache) && DayOfMonth(day) > 1
    ensures |p.daily| == DayOfMonth(day) - 1 && TotalCost(p.daily) == p.bill.total
    ensures forall i :: 0 <= i < |p.daily| ==> p.daily[i].currency == p.bill.currency
  {
    DaysOfTheMonth(cache, day);
    EstimatesTelescope(cache, FirstSnapshot(day), DaysBefore(day));
    SameCurrency(cache, FirstSnapshot(day), DaysBefore(day));
  }

  /** And each of them is the difference of two adjacent bills. */
  lemma PublishedDifferences(p: Publication, client: Client, day: int, cache: Snapshots, i: nat)
    requires IsPublication(p, client, day, cache) && 0 < i < |p.daily|
    ensures var date := MonthStartDay(MonthOf(day)) + 1 + i;
      date in cache && date - 1 in cache && p.daily[i].cost == cache[date].total - cache[date - 1].total
  {
    EstimatesCount(cache, FirstSnapshot(day), DaysBefore(day));
    EstimateIsDifference(cache, FirstSnapshot(day), DaysBefore(day), i);
    hide MonthOf, Estimates, ValidCurrency;
  }

  /** The cached bills of a range of days are all in one currency. */
  ghost predicate AllIn(cache: Snapshots, first: int, end: int, currency: string) {
    forall day :: first <= day < end && day in cache ==> cache[day].currency == currency
  }

  /** The bills cached for the days of the month before this one are all in one supported currency. */
  ghost predicate Recoverable(s: EstimateState, day: int) {
    exists currency :: ValidCurrency(currency) && AllIn(Carried(s, day), FirstSnapshot(day), day, currency)
  }

  /** The new bill, and every bill the month still misses, is answered in one currency. */
  ghost predicate AnswersIn(client: Client, s: EstimateState, day: int, currency: string) {
    forall d, n: nat :: FirstSnapshot(day) <= d <= day && (d == day || d !in Carried(s, day)) ==>
      client(d, n).Some? && client(d, n).value.currency == currency
  }

  lemma {:induction false} ReadyIsOneCurrency(cache: Snapshots, first: int, count: nat, currency: string)
    requires Ready(cache, first, count) && count > 0 && cache[first + count - 1].currency == currency
    ensures AllIn(cache, first, first + count, currency)
  {
    if count > 1 {
      ReadyIsOneCurrency(cache, first, count - 1, currency);
    }
  }

  /** What a run leaves and guarantees once its bill is accepted. */
  lemma RunMeans(client: Client, s: EstimateState, day: int)
    requires client(day, 0).Some? && ValidCurrency(client(day, 0).value.currency)
    ensures var r, found := RunOutcome(client, s, day), Carried(s, day)[day := client(day, 0).value];
      && FirstSnapshot(day) <= day + 1 && r.asked[0] == day && r.state.month == Some(MonthOf(day))
      && CallResult(found, r.state.snapshots, r.asked[1..], Later(client), FirstSnapshot(day), day, r.ok)
  {
    hide MonthOf, Fill, CallResult;
    CollectMeans(Later(client), Carried(s, day)[day := client(day, 0).value], FirstSnapshot(day), day);
  }

  /** A successful run finds, and leaves, all bills of the month in the currency of the new one. */
  lemma SuccessIsInOneCurrency(client: Client, s: EstimateState, day: int)
    requires RunOutcome(client, s, day).ok
    ensures client(day, 0).Some? && ValidCurrency(client(day, 0).value.currency)
    ensures AllIn(Carried(s, day), FirstSnapshot(day), day, client(day, 0).value.currency)
  {
    hide MonthOf, Fill, ValidCurrency, FirstSnapshot, Ready, Carried;
    RunMeans(client, s, day);
    var after := RunOutcome(client, s, day).state.snapshots;
    var found := Carried(s, day)[day := client(day, 0).value];
    CallKeeps(found, after, RunOutcome(client, s, day).asked[1..], Later(client), FirstSnapshot(day), day, true);
    if FirstSnapshot(day) <= day {
      assert found[day] == client(day, 0).value;
      ReadyIsOneCurrency(after, FirstSnapshot(day), day + 1 - FirstSnapshot(day), client(day, 0).value.currency);
    }
    forall d | FirstSnapshot(day) <= d < day && d in Carried(s, day)
      ensures Carried(s, day)[d].currency == client(day, 0).value.currency
    {
      assert d in found && found[d] == Carried(s, day)[d];
    }
  }

  /**
   * Main law of recovery: with an upstream that answers in one supported currency, a run succeeds exactly when every bill
   * cached for an earlier day of the month is in that currency.
   */
  lemma RecoversExactly(client: Client, s: EstimateState, day: int, currency: string)
    requires ValidCurrency(currency) && client(day, 0).Some? && client(day, 0).value.currency == currency
    requires AnswersIn(client, s, day, currency)
    ensures RunOutcome(client, s, day).ok <==> AllIn(Carried(s, day), FirstSnapshot(day), day, currency)
  {
    hide MonthOf, Fill, ValidCurrency, FirstSnapshot, Ready, Carried, NoDuplicates;
    RunMeans(client, s, day);
    var first, r, found := FirstSnapshot(day), RunOutcome(client, s, day), Carried(s, day)[day := client(day, 0).value];
    if r.ok {
      SuccessIsInOneCurrency(client, s, day);
    } else if AllIn(Carried(s, day), first, day, currency) {
      var after := r.state.snapshots;
      var stop :| StoppedAt(stop, found, after, r.asked[1..], Later(client), first, day);
      FitsAtStop(client, s, day, currency, after, r.asked[1..], stop);
    }
  }

  lemma AnswersStayIn(client: Client, s: EstimateState, day: int, currency: string, after: Snapshots, asked: seq<int>)
    requires AnswersIn(client, s, day, currency) && client(day, 0).Some? && client(day, 0).value.currency == currency
    requires Extends(Carried(s, day)[day := client(day, 0).value], after, asked, Later(client))
    requires AllIn(Carried(s, day), FirstSnapshot(day), day, currency)
    ensures AllIn(after, FirstSnapshot(day), day + 1, currency)
  {
    hide MonthOf, FirstSnapshot, Carried;
    var found := Carried(s, day)[day := client(day, 0).value];
    forall d | FirstSnapshot(day) <= d < day + 1 && d in after
      ensures after[d].currency == currency
    {
      if d !in found {
        var n: nat :| Later(client)(d, n) == Some(after[d]);
        assert client(d, n + 1).value.currency == currency;
      }
    }
  }

  lemma FitsAtStop(client: Client, s: EstimateState, day: int, currency: string, after: Snapshots, asked: seq<int>, stop: int)
    requires AnswersIn(client, s, day, currency) && client(day, 0).Some? && client(day, 0).value.currency == currency
    requires Extends(Carried(s, day)[day := client(day, 0).value], after, asked, Later(client)) && ValidCurrency(currency)
    requires AllIn(Carried(s, day), FirstSnapshot(day), day, currency)
    requires FirstSnapshot(day) <= stop <= day && Ready(after, FirstSnapshot(day), stop - FirstSnapshot(day))
    requires stop !in after ==> |asked| > 0 && client(stop, |asked|).None?
    ensures Fits(after, FirstSnapshot(day), stop)
  {
    hide MonthOf, FirstSnapshot, Carried, ValidCurrency, Extends;
    AnswersStayIn(client, s, day, currency, after, asked);
    AnsweredDay(client, s, day, currency, after, asked, stop);
    PresentBefore(after, FirstSnapshot(day), stop);
  }

  lemma AnsweredDay(client: Client, s: EstimateState, day: int, currency: string, after: Snapshots, asked: seq<int>, stop: int)
    requires AnswersIn(client, s, day, currency) && client(day, 0).Some? && FirstSnapshot(day) <= stop <= day
    requires Extends(Carried(s, day)[day := client(day, 0).value], after, asked, Later(client))
    requires stop !in after ==> |asked| > 0 && client(stop, |asked|).None?
    ensures stop in after
  {
    hide MonthOf, FirstSnapshot, Carried;
    assert stop !in Carried(s, day) ==> client(stop, |asked|).Some?;
    assert stop in Carried(s, day) ==> stop in Carried(s, day)[day := client(day, 0).value];
  }

  lemma PresentBefore(cache: Snapshots, first: int, stop: int)
    requires first <= stop && Ready(cache, first, stop - first)
    ensures first < stop ==> stop - 1 in cache
  {
  }

  /** So some upstream makes a run succeed exactly when the cached bills are in one supported currency. */
  lemma RecoverableExactly(s: EstimateState, day: int)
    ensures (exists client: Client :: RunOutcome(client, s, day).ok) <==> Recoverable(s, day)
  {
    hide RunOutcome, Carried, FirstSnapshot;
    if client: Client :| RunOutcome(client, s, day).ok {
      SuccessIsInOneCurrency(client, s, day);
    }
    if Recoverable(s, day) {
      var currency :| ValidCurrency(currency) && AllIn(Carried(s, day), FirstSnapshot(day), day, currency);
      var steady: Client := (d: int, n: nat) => Some(Detail(currency, 0));
      RecoversExactly(steady, s, day, currency);
    }
  }

  datatype Job = Job(client: Client, day: int)

  function RunAll(s: EstimateState, jobs: seq<Job>): EstimateState {
    if |jobs| == 0 then s
    else
      var last := jobs[|jobs| - 1];
      RunOutcome(last.client, RunAll(s, jobs[..|jobs| - 1]), last.day).state
  }

  /** All of them in the month of a day, and none before it. */
  predicate LaterInMonth(jobs: seq<Job>, day: int) {
    forall i :: 0 <= i < |jobs| ==> day <= jobs[i].day && MonthOf(jobs[i].day) == MonthOf(day)
  }

  /** A run touches no cached bill of its month but that of its own day, and asks for no other cached day. */
  lemma RunKeepsBills(client: Client, s: EstimateState, day: int, kept: int)
    requires kept in Carried(s, day) && kept != day
    ensures var r := RunOutcome(client, s, day);
      kept !in r.asked && kept in Carried(r.state, day) && Carried(r.state, day)[kept] == Carried(s, day)[kept]
  {
    hide MonthOf, Fill, ValidCurrency, FirstSnapshot, CallResult;
    if client(day, 0).Some? && ValidCurrency(client(day, 0).value.currency) {
      RunMeans(client, s, day);
      var r := RunOutcome(client, s, day);
      CallKeeps(Carried(s, day)[day := client(day, 0).value], r.state.snapshots, r.asked[1..], Later(client), FirstSnapshot(day), day, r.ok);
    }
  }

  lemma SameMonth(s: EstimateState, a: int, b: int)
    requires MonthOf(a) == MonthOf(b)
    ensures Carried(s, a) == Carried(s, b) && FirstSnapshot(a) == FirstSnapshot(b)
  {
  }

  /** What a later run finds or leaves in one currency was in one currency before. */
  lemma RecoverableBefore(client: Client, s: EstimateState, day: int, later: int)
    requires day <= later && MonthOf(later) == MonthOf(day)
    requires RunOutcome(client, s, later).ok || Recoverable(RunOutcome(client, s, later).state, day)
    ensures Recoverable(s, day)
  {
    hide RunOutcome, Carried, MonthOf, FirstSnapshot, ValidCurrency;
    var r := RunOutcome(client, s, later);
    SameMonth(s, day, later);
    SameMonth(r.state, day, later);
    var currency;
    if r.ok {
      SuccessIsInOneCurrency(client, s, later);
      currency := client(later, 0).value.currency;
    } else {
      currency :| ValidCurrency(currency) && AllIn(Carried(r.state, day), FirstSnapshot(day), day, currency);
      forall d | d in Carried(s, day) && d < day
        ensures d in Carried(r.state, day) && Carried(r.state, day)[d] == Carried(s, day)[d]
      {
        RunKeepsBills(client, s, later, d);
      }
    }
    assert AllIn(Carried(s, day), FirstSnapshot(day), day, currency);
  }

  lemma UnrecoverableStep(client: Client, s: EstimateState, day: int, later: int)
    requires !Recoverable(s, day) && day <= later && MonthOf(later) == MonthOf(day)
    ensures !RunOutcome(client, s, later).ok && !Recoverable(RunOutcome(client, s, later).state, day)
  {
    hide RunOutcome, Recoverable, MonthOf;
    if RunOutcome(client, s, later).ok || Recoverable(RunOutcome(client, s, later).state, day) {
      RecoverableBefore(client, s, day, later);
    }
  }

  /**
   * Main law: once the cached bills of the days before some day are not in one supported currency, every later run of the
   * month fails, whatever the upstreams answer.
   */
  lemma {:induction false} BadBillSticks(s: EstimateState, day: int, jobs: seq<Job>)
    requires !Recoverable(s, day) && LaterInMonth(jobs, day)
    ensures !Recoverable(RunAll(s, jobs), day)
    ensures |jobs| > 0 ==> !RunOutcome(jobs[|jobs| - 1].client, RunAll(s, jobs[..|jobs| - 1]), jobs[|jobs| - 1].day).ok
  {
    hide RunOutcome, Recoverable, MonthOf;
    if |jobs| > 0 {
      var init, last := jobs[..|jobs| - 1], jobs[|jobs| - 1];
      assert last == jobs[|jobs| - 1];
      BadBillSticks(s, day, init);
      UnrecoverableStep(last.client, RunAll(s, init), day, last.day);
    }
  }

  /** Answers in CNY except for one day. */
  function Mixed(day: int, currency: string): Client {
    (d: int, n: nat) => Some(Detail(if d == day then currency else "CNY", 0))
  }

  /**
   * Such a state is reached by one run on the third of any month when the second is answered in another currency, although
   * the same run would have succeeded otherwise; unsupported or not makes no difference.
   */
  lemma BadBillIsCached(month: int, currency: string)
    requires currency != "CNY"
    ensures var third := MonthStartDay(month) + 2;
      && MonthOf(third + 1) == MonthOf(third) == month
      && !RunOutcome(Mixed(third - 1, currency), INITIAL, third).ok && RunOutcome(Mixed(third - 1, "CNY"), INITIAL, third).ok
      && !Recoverable(RunOutcome(Mixed(third - 1, currency), INITIAL, third).state, third + 1)
  {
    hide RunOutcome, Recoverable, MonthOf, MonthStartDay, FirstSnapshot;
    var third := MonthStartDay(month) + 2;
    ThirdDay(month);
    SteadyRecovers(third);
    MixedRun(Mixed(third - 1, currency), third, currency, 0, 0);
    TwoCurrencies(RunOutcome(Mixed(third - 1, currency), INITIAL, third).state, third, currency);
  }

  lemma ThirdDay(month: int)
    ensures var third := MonthStartDay(month) + 2;
      MonthOf(third + 1) == MonthOf(third) == month && FirstSnapshot(third) == FirstSnapshot(third + 1) == third - 1
  {
    var third := MonthStartDay(month) + 2;
    MonthStep(month);
    hide MonthOf;
    MonthOfUnique(third, month);
    MonthOfUnique(third + 1, month);
  }

  lemma SteadyRecovers(day: int)
    ensures RunOutcome(Mixed(day - 1, "CNY"), INITIAL, day).ok
  {
    hide RunOutcome, MonthOf, FirstSnapshot;
    assert Carried(INITIAL, day) == map[];
    RecoversExactly(Mixed(day - 1, "CNY"), INITIAL, day, "CNY");
  }

  lemma TwoCurrencies(s: EstimateState, third: int, currency: string)
    requires s.month == Some(MonthOf(third + 1)) && FirstSnapshot(third + 1) == third - 1 && currency != "CNY"
    requires third - 1 in s.snapshots && s.snapshots[third - 1].currency == currency
    requires third in s.snapshots && s.snapshots[third].currency == "CNY"
    ensures !Recoverable(s, third + 1)
  {
    hide MonthOf, FirstSnapshot, ValidCurrency;
    assert Carried(s, third + 1) == s.snapshots;
  }

  lemma MixedRun(client: Client, third: int, currency: string, one: int, two: int)
    requires FirstSnapshot(third) == third - 1 && currency != "CNY"
    requires client(third - 1, 1) == Some(Detail(currency, one)) && client(third, 0) == Some(Detail("CNY", two))
    ensures var r := RunOutcome(client, INITIAL, third);
      !r.ok && r.state == EstimateState(Some(MonthOf(third)), map[third := Detail("CNY", two), third - 1 := Detail(currency, one)])
  {
    hide MonthOf, FirstSnapshot;
    var found: Snapshots := map[third := Detail("CNY", two)];
    assert Carried(INITIAL, third)[third := Detail("CNY", two)] == found;
    var next := Lookup(Later(client), third - 1, found, []);
    assert next.cache == map[third := Detail("CNY", two), third - 1 := Detail(currency, one)];
    assert Lookup(Later(client), third, next.cache, next.asked) == Filled(next.cache, next.asked, true);
    assert !Fits(next.cache, third - 1, third);
    assert Fill(Later(client), third - 1, third, third, next.cache, next.asked) == Filled(next.cache, next.asked, false);
  }

  // ---- The period an estimate covers ----

  datatype Span = Span(start: int, end: int)

  /** On the first of a month the previous month is covered, otherwise the current one so far. */
  function EstimatePeriod(snapshotDay: int): Span {
    var month := MonthOf(snapshotDay);
    Span(if DayOfMonth(snapshotDay) == 1 then MonthStartDay(month - 1) else MonthStartDay(month), snapshotDay)
  }

  /** In both cases it is the month of the last covered day, from its first day on. */
  lemma PeriodIsMonthOfLastDay(snapshotDay: int)
    ensures EstimatePeriod(snapshotDay).start == MonthStartDay(MonthOf(snapshotDay - 1)) < EstimatePeriod(snapshotDay).end == snapshotDay
  {
    var month := MonthOf(snapshotDay);
    MonthStep(month);
    MonthStep(month - 1);
    if DayOfMonth(snapshotDay) == 1 {
      MonthOfUnique(snapshotDay - 1, month - 1);
    } else {
      MonthOfUnique(snapshotDay - 1, month);
    }
  }
}
