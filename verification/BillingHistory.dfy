/** The rolling twelve-month bill history (internal/app/billing.go). */
module BillingHistory {
  import opened Core
  import opened BillingSchedule

  datatype Detail = Detail(currency: string, total: int)

  predicate ValidCurrency(currency: string) { currency == "CNY" || currency == "USD" }

  /** The n-th request for a month's bill; none when it fails. */
  type Client = (int, nat) -> Option<Detail>

  type Months = map<int, Detail>

  // ---- One collection, as a function of the client ----

  /** The cache after some fetches, whether all succeeded, and every month requested so far: request i asked for asked[i]. */
  datatype Fetched = Fetched(months: Months, ok: bool, asked: seq<int>)

  /** The i-th request was answered with a bill in a supported currency. */
  predicate Supported(client: Client, asked: seq<int>, i: nat) {
    i < |asked| && client(asked[i], i).Some? && ValidCurrency(client(asked[i], i).value.currency)
  }

  function FetchMonth(client: Client, months: Months, month: int, asked: seq<int>): Fetched {
    if month in months then Fetched(months, true, asked)
    else
      var answer := client(month, |asked|);
      if answer.Some? && ValidCurrency(answer.value.currency) then Fetched(months[month := answer.value], true, asked + [month])
      else Fetched(months, false, asked + [month])
  }

  /** The window in order, up to the first failure. */
  function FetchWindow(client: Client, months: Months, first: int, count: nat, asked: seq<int>): Fetched {
    if count == 0 then Fetched(months, true, asked)
    else
      var earlier := FetchWindow(client, months, first, count - 1, asked);
      if !earlier.ok then earlier else FetchMonth(client, earlier.months, first + count - 1, earlier.asked)
  }

  /** `last12` lists the cached months of the window in order. */
  datatype Collection = Collection(latest: Option<Detail>, last12: seq<(int, Detail)>, complete: bool)

  function Listed(months: Months, first: int, count: nat): seq<(int, Detail)> {
    if count == 0 then []
    else
      var month := first + count - 1;
      if month in months then Listed(months, first, count - 1) + [(month, months[month])] else Listed(months, first, count - 1)
  }

  function Window(months: Months, first: int, count: nat): Months {
    map m | m in months && first <= m < first + count :: months[m]
  }

  datatype Collected = Collected(months: Months, result: Collection, failed: bool, asked: seq<int>)

  function CollectHistory(client: Client, months: Months, now: int, asked: seq<int>): Collected {
    var latest := FinalizedMonth(now);
    var newest := FetchMonth(client, months, latest, asked);
    if !newest.ok then Collected(months, Collection(None, [], false), true, newest.asked)
    else
      var history := FetchWindow(client, newest.months, latest - 11, 12, newest.asked);
      Collected(
        Window(history.months, latest - 11, 12),
        Collection(Some(newest.months[latest]), Listed(history.months, latest - 11, 12), history.ok),
        !history.ok, history.asked)
  }

  // ---- The source's procedure, over the cache it mutates ----

  class FinalizedHistoryCache {
    var months: Months
    /** Every month requested so far, in order. */
    var asked: seq<int>

    constructor ()
      ensures months == map[] && asked == []
    {
      months, asked := map[], [];
    }

    method Fetch(client: Client, month: int) returns (detail: Option<Detail>)
      modifies this
      ensures var f := FetchMonth(client, old(months), month, old(asked));
        months == f.months && asked == f.asked && (detail.Some? <==> f.ok) && (f.ok ==> detail == Some(months[month]))
    {
      if month in months {
        return Some(months[month]);
      }
      var answer := client(month, |asked|);
      asked := asked + [month];
      if answer.None? {
        return None;
      }
      if !ValidCurrency(answer.value.currency) {
        return None;
      }
      months := months[month := answer.value];
      return answer;
    }

    /** Keeps the months of the window, and the latest. */
    method Rebuild(first: int, latestMonth: int, latest: Detail) returns (last12: seq<(int, Detail)>)
      requires latestMonth == first + 11 && latestMonth in months && months[latestMonth] == latest
      modifies this`months
      ensures last12 == Listed(old(months), first, 12) && months == Window(old(months), first, 12)
    {
      var keep: Months := map[];
      last12 := [];
      for i := 0 to 12
        invariant months == old(months)
        invariant last12 == Listed(months, first, i) && keep == Window(months, first, i)
      {
        if first + i in months {
          last12 := last12 + [(first + i, months[first + i])];
          keep := keep[first + i := months[first + i]];
        }
      }
      keep := keep[latestMonth := latest];
      assert keep == Window(months, first, 12);
      months := keep;
    }

    method Collect(client: Client, now: int) returns (result: Collection, failed: bool)
      modifies this
      ensures var c := CollectHistory(client, old(months), now, old(asked));
        months == c.months && asked == c.asked && result == c.result && failed == c.failed
      ensures KeepsAnswers(client, old(months), old(asked), Collected(months, result, failed, asked), FinalizedMonth(now))
    {
      hide FinalizedMonth, Listed, Window, KeepsAnswers, FetchMonth, FetchWindow;
      CallKeepsAnswers(client, months, now, asked);
      var latestMonth := FinalizedMonth(now);
      NewestFetched(client, months, latestMonth, asked);
      var latest := Fetch(client, latestMonth);
      if latest.None? {
        return Collection(None, [], false), true;
      }
      ghost var newest := FetchMonth(client, old(months), latestMonth, old(asked));
      WindowStart(client, newest.months, latestMonth - 11, newest.asked);
      var first, count := latestMonth - 11, 0;
      failed := false;
      while count < 12 && !failed
        invariant 0 <= count <= 12
        invariant var h := FetchWindow(client, newest.months, first, count, newest.asked);
          months == h.months && asked == h.asked && failed == !h.ok
        invariant failed ==> FetchWindow(client, newest.months, first, 12, newest.asked)
                             == FetchWindow(client, newest.months, first, count, newest.asked)
        decreases 12 - count, !failed
      {
        WindowStep(client, newest.months, first, count, newest.asked);
        var fetched := Fetch(client, first + count);
        failed := fetched.None?;
        count := count + 1;
        if failed {
          FailureStops(client, newest.months, first, count, 12, newest.asked);
        }
      }
      NewestSurvives(client, newest.months, first, 12, newest.asked, latestMonth);
      var last12 := Rebuild(first, latestMonth, latest.value);
      return Collection(latest, last12, !failed), failed;
    }
  }

  lemma WindowStart(client: Client, months: Months, first: int, asked: seq<int>)
    ensures FetchWindow(client, months, first, 0, asked) == Fetched(months, true, asked)
  {
  }

  lemma WindowStep(client: Client, months: Months, first: int, count: nat, asked: seq<int>)
    ensures var earlier := FetchWindow(client, months, first, count, asked);
      FetchWindow(client, months, first, count + 1, asked) ==
        if !earlier.ok then earlier else FetchMonth(client, earlier.months, first + count, earlier.asked)
  {
  }

  lemma NewestFetched(client: Client, months: Months, month: int, asked: seq<int>)
    ensures var f := FetchMonth(client, months, month, asked); if f.ok then month in f.months else f.months == months
  {
  }

  lemma {:induction false} FailureStops(client: Client, months: Months, first: int, count: nat, more: nat, asked: seq<int>)
    requires count <= more && !FetchWindow(client, months, first, count, asked).ok
    ensures FetchWindow(client, months, first, more, asked) == FetchWindow(client, months, first, count, asked)
    decreases more
  {
    if count < more {
      FailureStops(client, months, first, count, more - 1, asked);
    }
  }

  /** Fetching only adds months. */
  lemma {:induction false} NewestSurvives(client: Client, months: Months, first: int, count: nat, asked: seq<int>, month: int)
    requires month in months
    ensures var f := FetchWindow(client, months, first, count, asked).months; month in f && f[month] == months[month]
  {
    if count > 0 {
      NewestSurvives(client, months, first, count - 1, asked, month);
    }
  }

  // ---- What the client's answers become ----

  /** The requests after the first n ask for distinct months of a range that were not cached. */
  ghost predicate AsksMissing(before: Months, asked: seq<int>, n: nat, low: int, end: int) {
    && (forall i :: n <= i < |asked| ==> low <= asked[i] < end && asked[i] !in before)
    && forall i, j :: n <= i < j < |asked| ==> asked[i] != asked[j]
  }

  /** Every supported answer among them is cached, and nothing else was added. */
  ghost predicate CachesAnswers(client: Client, before: Months, months: Months, asked: seq<int>, n: nat) {
    && (forall i: nat :: n <= i && Supported(client, asked, i) ==>
          asked[i] in months && client(asked[i], i) == Some(months[asked[i]]))
    && (forall m :: m in before ==> m in months && months[m] == before[m])
    && forall m :: m in months && m !in before ==> exists i: nat :: n <= i && Supported(client, asked, i) && asked[i] == m
  }

  /** Only the last request may be one that was not answered with a supported bill, exactly when the fetch failed. */
  ghost predicate StopsAtFailure(client: Client, asked: seq<int>, n: nat, ok: bool) {
    && (forall i: nat :: n <= i < |asked| - 1 ==> Supported(client, asked, i))
    && (ok ==> forall i: nat :: n <= i < |asked| ==> Supported(client, asked, i))
    && (!ok ==> n < |asked| && !Supported(client, asked, |asked| - 1))
  }

  ghost predicate GrewBy(client: Client, before: Months, asked: seq<int>, f: Fetched, low: int, end: int) {
    && asked <= f.asked && AsksMissing(before, f.asked, |asked|, low, end)
    && CachesAnswers(client, before, f.months, f.asked, |asked|) && StopsAtFailure(client, f.asked, |asked|, f.ok)
  }

  lemma MonthGrows(client: Client, months: Months, month: int, asked: seq<int>, low: int, end: int)
    requires low <= month < end
    ensures var f := FetchMonth(client, months, month, asked); GrewBy(client, months, asked, f, low, end) && (f.ok ==> month in f.months)
  {
    var f := FetchMonth(client, months, month, asked);
    if month !in months && f.ok {
      assert Supported(client, f.asked, |asked|) && f.asked[|asked|] == month;
    }
  }

  /** Growing twice is growing once, after a first success. */
  lemma GrowTwice(client: Client, before: Months, asked: seq<int>, f: Fetched, g: Fetched, low: int, end: int)
    requires GrewBy(client, before, asked, f, low, end) && f.ok && GrewBy(client, f.months, f.asked, g, low, end)
    ensures GrewBy(client, before, asked, g, low, end)
  {
    hide ValidCurrency;
    forall i: nat | i < |f.asked|
      ensures g.asked[i] == f.asked[i] && (Supported(client, g.asked, i) <==> Supported(client, f.asked, i))
    {
    }
    MissingTwice(client, before, asked, f, g, low, end);
    AnswersTwice(client, before, asked, f, g);
  }

  lemma MissingTwice(client: Client, before: Months, asked: seq<int>, f: Fetched, g: Fetched, low: int, end: int)
    requires asked <= f.asked <= g.asked && AsksMissing(before, f.asked, |asked|, low, end) && AsksMissing(f.months, g.asked, |f.asked|, low, end)
    requires CachesAnswers(client, before, f.months, f.asked, |asked|) && StopsAtFailure(client, f.asked, |asked|, true)
    ensures AsksMissing(before, g.asked, |asked|, low, end)
  {
    hide Supported;
    assert forall i :: 0 <= i < |f.asked| ==> g.asked[i] == f.asked[i];
    forall i, j | |asked| <= i < j < |g.asked|
      ensures g.asked[i] != g.asked[j]
    {
      if i < |f.asked| <= j {
        assert Supported(client, f.asked, i);
        assert f.asked[i] in f.months;
      }
    }
  }

  lemma AnswersTwice(client: Client, before: Months, asked: seq<int>, f: Fetched, g: Fetched)
    requires asked <= f.asked <= g.asked
    requires CachesAnswers(client, before, f.months, f.asked, |asked|) && CachesAnswers(client, f.months, g.months, g.asked, |f.asked|)
    requires forall i: nat :: i < |f.asked| ==> g.asked[i] == f.asked[i] && (Supported(client, g.asked, i) <==> Supported(client, f.asked, i))
    ensures CachesAnswers(client, before, g.months, g.asked, |asked|)
  {
    hide ValidCurrency;
    forall i: nat | |asked| <= i && Supported(client, g.asked, i)
      ensures g.asked[i] in g.months && client(g.asked[i], i) == Some(g.months[g.asked[i]])
    {
      if i < |f.asked| {
        assert Supported(client, f.asked, i) && f.asked[i] in f.months;
      }
    }
    forall m | m in g.months && m !in before
      ensures exists i: nat :: |asked| <= i && Supported(client, g.asked, i) && g.asked[i] == m
    {
      if m in f.months {
        var i: nat :| |asked| <= i && Supported(client, f.asked, i) && f.asked[i] == m;
        assert Supported(client, g.asked, i) && g.asked[i] == m;
      } else {
        var i: nat :| |f.asked| <= i && Supported(client, g.asked, i) && g.asked[i] == m;
      }
    }
  }

  lemma {:induction false} WindowGrows(client: Client, months: Months, first: int, count: nat, asked: seq<int>, end: int)
    requires first + count <= end
    ensures var f := FetchWindow(client, months, first, count, asked);
      GrewBy(client, months, asked, f, first, end) && (f.ok ==> forall m :: first <= m < first + count ==> m in f.months)
  {
    hide FetchMonth, GrewBy;
    if count == 0 {
      NothingGrows(client, months, asked, first, end);
    } else {
      var earlier := FetchWindow(client, months, first, count - 1, asked);
      WindowGrows(client, months, first, count - 1, asked, end);
      if earlier.ok {
        var next := FetchMonth(client, earlier.months, first + count - 1, earlier.asked);
        MonthGrows(client, earlier.months, first + count - 1, earlier.asked, first, end);
        GrowTwice(client, months, asked, earlier, next, first, end);
        GrownKeeps(client, earlier.months, earlier.asked, next, first, end);
      }
    }
  }

  lemma NothingGrows(client: Client, months: Months, asked: seq<int>, low: int, end: int)
    ensures GrewBy(client, months, asked, Fetched(months, true, asked), low, end)
  {
  }

  lemma GrownKeeps(client: Client, before: Months, asked: seq<int>, f: Fetched, low: int, end: int)
    requires GrewBy(client, before, asked, f, low, end)
    ensures forall m :: m in before ==> m in f.months && f.months[m] == before[m]
  {
  }

  /** The listed months are the cached ones of the window, in order. */
  ghost predicate Lists(last12: seq<(int, Detail)>, months: Months, first: int, count: nat) {
    && (forall i, j :: 0 <= i < j < |last12| ==> last12[i].0 < last12[j].0)
    && (forall e :: e in last12 ==> first <= e.0 < first + count && e.0 in months && months[e.0] == e.1)
    && forall m :: m in months && first <= m < first + count ==> (m, months[m]) in last12
  }

  lemma {:induction false} ListedIs(months: Months, first: int, count: nat)
    ensures Lists(Listed(months, first, count), months, first, count)
  {
    if count > 0 {
      hide Lists;
      ListedIs(months, first, count - 1);
      ListsOneMore(Listed(months, first, count - 1), months, first, count);
    } else {
      NothingListed(months, first);
    }
  }

  lemma NothingListed(months: Months, first: int)
    ensures Lists([], months, first, 0)
  {
  }

  lemma ListsOneMore(init: seq<(int, Detail)>, months: Months, first: int, count: nat)
    requires count > 0 && Lists(init, months, first, count - 1)
    ensures var last := first + count - 1; Lists(if last in months then init + [(last, months[last])] else init, months, first, count)
  {
    var last := first + count - 1;
    var added := if last in months then [(last, months[last])] else [];
    var all := init + added;
    assert all == if last in months then init + [(last, months[last])] else init;
    forall i, j | 0 <= i < j < |all|
      ensures all[i].0 < all[j].0
    {
      assert all[i] in init;
    }
  }

  lemma ListedInWindow(last12: seq<(int, Detail)>, months: Months, first: int, count: nat)
    requires Lists(last12, months, first, count)
    ensures Lists(last12, Window(months, first, count), first, count)
  {
  }

  /**
   * What one call makes of the client's answers: it asks only for missing months of the window, each once, and up to the
   * first failure; every supported answer is cached; and the cached months of the window are listed, on failure too.
   */
  ghost predicate KeepsAnswers(client: Client, before: Months, asked: seq<int>, c: Collected, latest: int) {
    && asked <= c.asked && AsksMissing(before, c.asked, |asked|, latest - 11, latest + 1) && StopsAtFailure(client, c.asked, |asked|, !c.failed)
    && (c.result.latest.None? ==> c.failed && c.months == before && |c.asked| == |asked| + 1 && c.asked[|asked|] == latest)
    && (c.result.latest.Some? ==>
          && (forall i: nat :: |asked| <= i && Supported(client, c.asked, i) ==>
                c.asked[i] in c.months && client(c.asked[i], i) == Some(c.months[c.asked[i]]))
          && (forall m :: m in before && latest - 11 <= m <= latest ==> m in c.months && c.months[m] == before[m])
          && (forall m :: m in c.months ==>
                latest - 11 <= m <= latest && (m in before || exists i: nat :: |asked| <= i && Supported(client, c.asked, i) && c.asked[i] == m))
          && latest in c.months && c.result.latest == Some(c.months[latest])
          && Lists(c.result.last12, c.months, latest - 11, 12))
  }

  /** Main law of one call, on the client's answers. */
  lemma CallKeepsAnswers(client: Client, months: Months, now: int, asked: seq<int>)
    ensures KeepsAnswers(client, months, asked, CollectHistory(client, months, now, asked), FinalizedMonth(now))
  {
    hide FinalizedMonth, FetchMonth, FetchWindow, Listed, GrewBy, Lists, Window, KeepsAnswers;
    var latest := FinalizedMonth(now);
    var newest := FetchMonth(client, months, latest, asked);
    MonthGrows(client, months, latest, asked, latest - 11, latest + 1);
    if newest.ok {
      var history := FetchWindow(client, newest.months, latest - 11, 12, newest.asked);
      WindowGrows(client, newest.months, latest - 11, 12, newest.asked, latest + 1);
      GrowTwice(client, months, asked, newest, history, latest - 11, latest + 1);
      NewestSurvives(client, newest.months, latest - 11, 12, newest.asked, latest);
      ListedIs(history.months, latest - 11, 12);
      ListedInWindow(Listed(history.months, latest - 11, 12), history.months, latest - 11, 12);
      GrownIsKept(client, months, asked, history, latest, Collection(Some(newest.months[latest]), Listed(history.months, latest - 11, 12), history.ok));
    } else {
      FailedLatest(client, months, latest, asked);
    }
  }

  lemma FailedLatest(client: Client, months: Months, latest: int, asked: seq<int>)
    requires !FetchMonth(client, months, latest, asked).ok
    ensures KeepsAnswers(client, months, asked,
                         Collected(months, Collection(None, [], false), true, FetchMonth(client, months, latest, asked).asked), latest)
  {
  }

  lemma GrownIsKept(client: Client, before: Months, asked: seq<int>, f: Fetched, latest: int, result: Collection)
    requires GrewBy(client, before, asked, f, latest - 11, latest + 1)
    requires latest in f.months && result.latest == Some(f.months[latest]) && Lists(result.last12, Window(f.months, latest - 11, 12), latest - 11, 12)
    ensures KeepsAnswers(client, before, asked, Collected(Window(f.months, latest - 11, 12), result, !f.ok, f.asked), latest)
  {
    hide ValidCurrency, Lists;
  }

  lemma {:induction false} ListedAll(months: Months, first: int, count: nat)
    requires forall m :: first <= m < first + count ==> m in months
    ensures |Listed(months, first, count)| == count
    ensures forall i :: 0 <= i < count ==> Listed(months, first, count)[i] == (first + i, months[first + i])
  {
    if count > 0 {
      ListedAll(months, first, count - 1);
    }
  }

  /** Main law of one call: failures drop nothing in the window, and completeness means twelve consecutive months. */
  lemma CollectKeepsWindow(client: Client, months: Months, now: int, asked: seq<int>)
    ensures var c, latest := CollectHistory(client, months, now, asked), FinalizedMonth(now);
      && (forall m :: m in months && latest - 11 <= m <= latest ==> m in c.months && c.months[m] == months[m])
      && (c.result.latest.None? ==> c.months == months)
      && (c.result.latest.Some? ==> latest in c.months && c.result.latest == Some(c.months[latest]))
      && (c.result.complete ==>
            && !c.failed && |c.result.last12| == 12
            && forall i :: 0 <= i < 12 ==>
                 latest - 11 + i in c.months && c.result.last12[i] == (latest - 11 + i, c.months[latest - 11 + i]))
      && (!c.failed ==> c.result.complete)
  {
    hide FinalizedMonth, FetchMonth, FetchWindow, Listed, GrewBy, KeepsAnswers;
    var latest := FinalizedMonth(now);
    CallKeepsAnswers(client, months, now, asked);
    KeptMonths(client, months, asked, CollectHistory(client, months, now, asked), latest);
    var newest := FetchMonth(client, months, latest, asked);
    NewestFetched(client, months, latest, asked);
    if newest.ok {
      var history := FetchWindow(client, newest.months, latest - 11, 12, newest.asked);
      WindowGrows(client, newest.months, latest - 11, 12, newest.asked, latest + 1);
      if history.ok {
        ListedAll(history.months, latest - 11, 12);
      }
    }
  }

  lemma KeptMonths(client: Client, before: Months, asked: seq<int>, c: Collected, latest: int)
    requires KeepsAnswers(client, before, asked, c, latest)
    ensures forall m :: m in before && latest - 11 <= m <= latest ==> m in c.months && c.months[m] == before[m]
    ensures c.result.latest.None? ==> c.months == before
    ensures c.result.latest.Some? ==> latest in c.months && c.result.latest == Some(c.months[latest])
  {
    hide Supported;
  }

  // ---- Runs with a nondecreasing clock ----

  /** The cache and all requests after a run, and the latest month of the call that last rebuilt the cache. */
  datatype Run = Run(months: Months, asked: seq<int>, window: int)

  ghost function After(client: Client, nows: seq<int>): Run {
    if |nows| == 0 then Run(map[], [], 0)
    else
      var before := After(client, nows[..|nows| - 1]);
      Advance(before, CollectHistory(client, before.months, nows[|nows| - 1], before.asked), nows[|nows| - 1])
  }

  function Advance(before: Run, c: Collected, now: int): Run {
    Run(c.months, c.asked, if c.result.latest.Some? then FinalizedMonth(now) else before.window)
  }

  ghost predicate IsClocked(nows: seq<int>) {
    forall i :: 0 < i < |nows| ==> nows[i - 1] <= nows[i]
  }

  /** Every supported answer so far is still cached, or its month has left every later window. */
  ghost predicate AnswersKept(client: Client, r: Run, latest: int) {
    forall i: nat :: Supported(client, r.asked, i) ==>
      (r.asked[i] in r.months && client(r.asked[i], i) == Some(r.months[r.asked[i]])) || r.asked[i] < latest - 11
  }

  /** No two requests for one month were both answered with a supported bill. */
  ghost predicate AnsweredOnce(client: Client, asked: seq<int>) {
    forall i: nat, j: nat :: i < j && Supported(client, asked, i) && Supported(client, asked, j) ==> asked[i] != asked[j]
  }

  ghost predicate Consistent(client: Client, r: Run, latest: int) {
    && AnswersKept(client, r, latest) && AnsweredOnce(client, r.asked)
    && (forall m :: m in r.months ==>
          r.window - 11 <= m <= r.window && exists i: nat :: Supported(client, r.asked, i) && r.asked[i] == m)
    && (r.months != map[] ==> r.window <= latest)
  }

  lemma SamePrefix(client: Client, asked: seq<int>, longer: seq<int>)
    requires asked <= longer
    ensures forall i: nat :: i < |asked| ==> longer[i] == asked[i] && (Supported(client, longer, i) <==> Supported(client, asked, i))
  {
  }

  lemma CallIsConsistent(client: Client, before: Run, past: int, now: int)
    requires Consistent(client, before, past) && past <= FinalizedMonth(now)
    ensures Consistent(client, Advance(before, CollectHistory(client, before.months, now, before.asked), now), FinalizedMonth(now))
  {
    hide FinalizedMonth, CollectHistory, Supported, KeepsAnswers, Consistent;
    var latest, c := FinalizedMonth(now), CollectHistory(client, before.months, now, before.asked);
    CallKeepsAnswers(client, before.months, now, before.asked);
    PrefixOf(client, before.months, before.asked, c, latest);
    SamePrefix(client, before.asked, c.asked);
    StillOnce(client, before, past, c, latest);
    StillKept(client, before, past, c, latest, now);
    StillAnswered(client, before, past, c, latest, now);
    StillConsistent(client, before, past, c, latest, now);
  }

  lemma PrefixOf(client: Client, before: Months, asked: seq<int>, c: Collected, latest: int)
    requires KeepsAnswers(client, before, asked, c, latest)
    ensures asked <= c.asked
  {
  }

  /** A month asked for is neither cached nor one that left an earlier window, so it was not answered before. */
  lemma StillOnce(client: Client, before: Run, past: int, c: Collected, latest: int)
    requires Consistent(client, before, past) && past <= latest && KeepsAnswers(client, before.months, before.asked, c, latest)
    requires before.asked <= c.asked
    requires forall i: nat :: i < |before.asked| ==>
               c.asked[i] == before.asked[i] && (Supported(client, c.asked, i) <==> Supported(client, before.asked, i))
    ensures AnsweredOnce(client, c.asked)
  {
    hide Lists, StopsAtFailure;
    forall i: nat, j: nat | i < j && Supported(client, c.asked, i) && Supported(client, c.asked, j)
      ensures c.asked[i] != c.asked[j]
    {
      if i < |before.asked| <= j {
        assert Supported(client, before.asked, i);
      }
    }
  }

  lemma StillKept(client: Client, before: Run, past: int, c: Collected, latest: int, now: int)
    requires Consistent(client, before, past) && past <= latest == FinalizedMonth(now)
    requires KeepsAnswers(client, before.months, before.asked, c, latest) && before.asked <= c.asked
    requires forall i: nat :: i < |before.asked| ==>
               c.asked[i] == before.asked[i] && (Supported(client, c.asked, i) <==> Supported(client, before.asked, i))
    ensures AnswersKept(client, Advance(before, c, now), latest)
  {
    hide FinalizedMonth, Lists;
    var r := Advance(before, c, now);
    forall i: nat | Supported(client, r.asked, i)
      ensures (r.asked[i] in r.months && client(r.asked[i], i) == Some(r.months[r.asked[i]])) || r.asked[i] < latest - 11
    {
      if i < |before.asked| {
        assert Supported(client, before.asked, i);
      }
    }
  }

  lemma StillAnswered(client: Client, before: Run, past: int, c: Collected, latest: int, now: int)
    requires Consistent(client, before, past) && past <= latest == FinalizedMonth(now)
    requires KeepsAnswers(client, before.months, before.asked, c, latest) && before.asked <= c.asked
    requires forall i: nat :: i < |before.asked| ==>
               c.asked[i] == before.asked[i] && (Supported(client, c.asked, i) <==> Supported(client, before.asked, i))
    ensures var r := Advance(before, c, now);
      forall m :: m in r.months ==> r.window - 11 <= m <= r.window && exists i: nat :: Supported(client, r.asked, i) && r.asked[i] == m
  {
    hide FinalizedMonth, Lists, ValidCurrency, AsksMissing, StopsAtFailure, AnswersKept, AnsweredOnce;
    var r := Advance(before, c, now);
    forall m | m in r.months
      ensures r.window - 11 <= m <= r.window && exists i: nat :: Supported(client, r.asked, i) && r.asked[i] == m
    {
      if m in before.months {
        var i: nat :| Supported(client, before.asked, i) && before.asked[i] == m;
        SupportedIndex(client, before.asked, i);
        assert Supported(client, r.asked, i) && r.asked[i] == m;
      }
    }
  }

  lemma SupportedIndex(client: Client, asked: seq<int>, i: nat)
    requires Supported(client, asked, i)
    ensures i < |asked|
  {
  }

  lemma StillConsistent(client: Client, before: Run, past: int, c: Collected, latest: int, now: int)
    requires Consistent(client, before, past) && past <= latest == FinalizedMonth(now)
    requires KeepsAnswers(client, before.months, before.asked, c, latest)
    requires AnsweredOnce(client, c.asked) && AnswersKept(client, Advance(before, c, now), latest)
    requires var r := Advance(before, c, now);
      forall m :: m in r.months ==> r.window - 11 <= m <= r.window && exists i: nat :: Supported(client, r.asked, i) && r.asked[i] == m
    ensures Consistent(client, Advance(before, c, now), latest)
  {
    hide FinalizedMonth, Lists, Supported, AsksMissing, StopsAtFailure, AnswersKept, AnsweredOnce;
  }

  lemma {:induction false} RunIsConsistent(client: Client, nows: seq<int>)
    requires IsClocked(nows)
    ensures |nows| > 0 ==> Consistent(client, After(client, nows), FinalizedMonth(nows[|nows| - 1]))
  {
    hide Consistent, CollectHistory, FinalizedMonth;
    if |nows| > 0 {
      var init, now := nows[..|nows| - 1], nows[|nows| - 1];
      RunIsConsistent(client, init);
      if |init| == 0 {
        EmptyConsistent(client, FinalizedMonth(now));
        CallIsConsistent(client, Run(map[], [], 0), FinalizedMonth(now), now);
      } else {
        FinalizedMonotone(init[|init| - 1], now);
        CallIsConsistent(client, After(client, init), FinalizedMonth(init[|init| - 1]), now);
      }
    }
  }

  lemma EmptyConsistent(client: Client, latest: int)
    ensures Consistent(client, Run(map[], [], 0), latest)
  {
  }

  /** A set of integers spanning less than n has at most n elements. */
  lemma {:induction false} SpanBoundsSize(s: set<int>, low: int, n: nat)
    requires forall m :: m in s ==> low <= m < low + n
    ensures |s| <= n
    decreases n
  {
    if n > 0 {
      var rest := s - {low + n - 1};
      SpanBoundsSize(rest, low, n - 1);
      assert s <= rest + {low + n - 1};
      SizeWithOne(s, rest, low + n - 1);
    } else {
      assert forall m :: m !in s;
      assert s == {};
    }
  }

  lemma SizeWithOne(s: set<int>, rest: set<int>, m: int)
    requires rest == s - {m}
    ensures |s| <= |rest| + 1
  {
    if m in s {
      assert s == rest + {m};
    } else {
      assert s == rest;
    }
  }

  /** Main law: over any run no two requests for one month are both answered with a supported bill; at most twelve are cached. */
  lemma AtMostOnce(client: Client, nows: seq<int>)
    requires IsClocked(nows)
    ensures AnsweredOnce(client, After(client, nows).asked) && |After(client, nows).months| <= 12
  {
    if |nows| > 0 {
      RunIsConsistent(client, nows);
      hide After, FinalizedMonth, Supported, AnswersKept, AnsweredOnce;
      var r := After(client, nows);
      SpanBoundsSize(r.months.Keys, r.window - 11, 12);
      assert |r.months| == |r.months.Keys|;
    }
  }
}
