/** Metering queries: one bounded search per batch of fifty domains (internal/app/cdn.go). */
module Metering {
  import opened Core
  import opened UsagePoints
  import opened Usage
  import opened Isolation

  /** Cuts a list into consecutive batches, as the source does by advancing a start index. */
  method Batches<T>(values: seq<T>, size: nat) returns (r: seq<seq<T>>)
    requires size > 0
    ensures r == Chunks(values, size)
  {
    hide Chunks;
    r := [];
    var start := 0;
    NoChunks<T>(size);
    assert values[0..] == values;
    while start < |values|
      invariant 0 <= start
      invariant r + Chunks(values[Within(start, |values|)..], size) == Chunks(values, size)
      decreases |values| - start
    {
      var end := Within(start + size, |values|);
      FirstChunk(values[start..], size);
      assert values[start..][..end - start] == values[start..end] && values[start..][end - start..] == values[end..];
      r := r + [values[start..end]];
      start := start + size;
    }
    assert values[Within(start, |values|)..] == [];
  }

  lemma NoChunks<T>(size: nat)
    requires size > 0
    ensures Chunks<T>([], size) == []
  {
  }

  function Within(i: nat, limit: nat): (r: nat)
    ensures r <= i && r <= limit && (r == i || r == limit)
  {
    if i <= limit then i else limit
  }

  lemma FirstChunk<T>(values: seq<T>, size: nat)
    requires size > 0 && |values| > 0
    ensures var n := Within(size, |values|); Chunks(values, size) == [values[..n]] + Chunks(values[n..], size)
  {
    assert |values| <= size ==> values[..|values|] == values;
  }

  /** The searches of all batches; every batch starts with a fresh attempt budget. */
  function IsolateAll<T>(fetch: Fetch<T>, requests: seq<seq<string>>, calls: nat): Outcome<T> {
    if |requests| == 0 then Outcome([], [], [], 0, calls)
    else
      var earlier := IsolateAll(fetch, requests[..|requests| - 1], calls);
      Join(earlier, Isolate(fetch, ATTEMPT_LIMIT, requests[|requests| - 1], 0, earlier.calls))
  }

  lemma IsolateAllStep<T>(fetch: Fetch<T>, requests: seq<seq<string>>, b: nat, calls: nat)
    requires b < |requests|
    ensures var earlier := IsolateAll(fetch, requests[..b], calls);
      IsolateAll(fetch, requests[..b + 1], calls) == Join(earlier, Isolate(fetch, ATTEMPT_LIMIT, requests[b], 0, earlier.calls))
  {
    assert requests[..b + 1][..b] == requests[..b];
  }

  /** The whole query, over shared lists of results and failures. */
  method FetchMeteringBatches<T>(fetch: Fetch<T>, domains: seq<string>, calls: nat)
    returns (succeeded: seq<(seq<string>, T)>, failed: map<string, Error>, after: nat)
    ensures var o := IsolateAll(fetch, Chunks(domains, BATCH_SIZE), calls);
      succeeded == o.succeeded && failed == Record(map[], o.failed) && after == o.calls
  {
    hide Isolate, Record, Chunks;
    var requests := Batches(domains, BATCH_SIZE);
    var search := new Search<T>(map[], map[], calls);
    ghost var o := IsolateAll(fetch, requests[..0], calls);
    RecordOne(map[], "", IsolationBudget);
    for b := 0 to |requests|
      invariant fresh(search)
      invariant o == IsolateAll(fetch, requests[..b], calls)
      invariant search.calls == o.calls && search.succeeded == o.succeeded && search.failed == Record(map[], o.failed)
    {
      search.attempts := 0;
      IsolateAllStep(fetch, requests, b, calls);
      ghost var next := Isolate(fetch, ATTEMPT_LIMIT, requests[b], 0, search.calls);
      RecordConcat(map[], o.failed, next.failed);
      search.Collect(fetch, ATTEMPT_LIMIT, requests[b]);
      o := Join(o, next);
    }
    assert requests[..|requests|] == requests;
    return search.succeeded, search.failed, search.calls;
  }

  lemma {:induction false} RecordEmpty(entries: seq<(string, Error)>)
    ensures Record(map[], entries) == map[] <==> entries == []
  {
    if |entries| > 0 {
      RecordKeys(map[], entries, entries[0].0);
    }
  }

  /** Over all batches, too, every domain has exactly one fate and the order is kept. */
  lemma {:induction false} AllPartitioned<T>(fetch: Fetch<T>, requests: seq<seq<string>>, calls: nat)
    ensures var o := IsolateAll(fetch, requests, calls); Interleaves(Succeeded(o), Failed(o), Flatten(requests))
  {
    if |requests| > 0 {
      hide Isolate, Succeeded, Failed, Join, Interleaves;
      var earlier := IsolateAll(fetch, requests[..|requests| - 1], calls);
      var last := Isolate(fetch, ATTEMPT_LIMIT, requests[|requests| - 1], 0, earlier.calls);
      AllPartitioned(fetch, requests[..|requests| - 1], calls);
      IsolationPartitions(fetch, ATTEMPT_LIMIT, requests[|requests| - 1], 0, earlier.calls);
      JoinLists(earlier, last);
      InterleavesConcat(Succeeded(earlier), Failed(earlier), Flatten(requests[..|requests| - 1]),
                        Succeeded(last), Failed(last), requests[|requests| - 1]);
    }
  }

  /** When nothing failed the collected requests spell out exactly the input, so later index-wise merges line up. */
  lemma CompleteIsInput<T>(fetch: Fetch<T>, domains: seq<string>, calls: nat)
    requires IsolateAll(fetch, Chunks(domains, BATCH_SIZE), calls).failed == []
    ensures Succeeded(IsolateAll(fetch, Chunks(domains, BATCH_SIZE), calls)) == domains
  {
    hide IsolateAll, Succeeded, Interleaves;
    var o := IsolateAll(fetch, Chunks(domains, BATCH_SIZE), calls);
    AllPartitioned(fetch, Chunks(domains, BATCH_SIZE), calls);
    ChunksProperties(domains, BATCH_SIZE);
    InterleavesProperties(Succeeded(o), Failed(o), domains);
  }

  /** Every collected batch is a piece of a request that the upstream answered with exactly that payload. */
  lemma {:induction false} AllAnswered<T>(fetch: Fetch<T>, requests: seq<seq<string>>, calls: nat, i: nat)
    requires forall b :: 0 <= b < |requests| ==> |requests[b]| > 0
    requires i < |IsolateAll(fetch, requests, calls).succeeded|
    ensures exists b: nat :: b < |requests| && WasAnswered(fetch, requests[b], IsolateAll(fetch, requests, calls).succeeded[i])
  {
    hide Isolate, WasAnswered;
    var init := requests[..|requests| - 1];
    var earlier := IsolateAll(fetch, init, calls);
    if i < |earlier.succeeded| {
      AllAnswered(fetch, init, calls, i);
      var b: nat :| b < |init| && WasAnswered(fetch, init[b], earlier.succeeded[i]);
      assert WasAnswered(fetch, requests[b], IsolateAll(fetch, requests, calls).succeeded[i]);
    } else {
      SucceededWasAnswered(fetch, ATTEMPT_LIMIT, requests[|requests| - 1], 0, earlier.calls, i - |earlier.succeeded|);
      assert WasAnswered(fetch, requests[|requests| - 1], IsolateAll(fetch, requests, calls).succeeded[i]);
    }
  }

  /** The log of all batches accounts for all requests, every collected batch and every failure. */
  ghost predicate AllExplained<T>(fetch: Fetch<T>, log: seq<Asked>, o: Outcome<T>) {
    && (forall i :: 0 <= i < |o.succeeded| ==> AnsweredIn(fetch, log, o.succeeded[i]))
    && forall i :: 0 <= i < |o.failed| ==> FailedIn(fetch, log, o.failed[i], true)
  }

  lemma JoinLogs<T>(fetch: Fetch<T>, left: seq<Asked>, right: seq<Asked>, l: Outcome<T>, r: Outcome<T>, exhausted: bool, whole: seq<string>)
    requires AllExplained(fetch, left, l) && Explains(fetch, right, r, whole, exhausted)
    ensures AllExplained(fetch, left + right, Join(l, r))
  {
    hide AnsweredIn, FailedIn;
    var log, o := left + right, Join(l, r);
    assert [] + left + right == log && left + right + [] == log;
    forall i | 0 <= i < |o.succeeded|
      ensures AnsweredIn(fetch, log, o.succeeded[i])
    {
      if i < |l.succeeded| {
        ExplainedIn(fetch, left, [], right, l.succeeded[i]);
      } else {
        ExplainedIn(fetch, right, left, [], r.succeeded[i - |l.succeeded|]);
      }
    }
    forall i | 0 <= i < |o.failed|
      ensures FailedIn(fetch, log, o.failed[i], true)
    {
      if i < |l.failed| {
        FailureIn(fetch, left, [], right, l.failed[i], true, true);
      } else {
        FailureIn(fetch, right, left, [], r.failed[i - |l.failed|], exhausted, true);
      }
    }
  }

  lemma {:induction false} AllLogged<T>(fetch: Fetch<T>, requests: seq<seq<string>>, calls: nat) returns (log: seq<Asked>)
    requires forall b :: 0 <= b < |requests| ==> |requests[b]| > 0
    ensures var o := IsolateAll(fetch, requests, calls); IsLog(fetch, log, calls, o.calls) && AllExplained(fetch, log, o)
  {
    if |requests| == 0 {
      log := [];
    } else {
      hide Isolate, AllExplained, Explains, Join;
      var init, last := requests[..|requests| - 1], requests[|requests| - 1];
      var earlier := IsolateAll(fetch, init, calls);
      var next := Isolate(fetch, ATTEMPT_LIMIT, last, 0, earlier.calls);
      var first := AllLogged(fetch, init, calls);
      var second := SearchIsLogged(fetch, ATTEMPT_LIMIT, last, 0, earlier.calls);
      JoinCounts(earlier, next);
      LogConcat(fetch, first, second, calls, earlier.calls, next.calls);
      JoinLogs(fetch, first, second, earlier, next, next.attempts >= ATTEMPT_LIMIT, last);
      log := first + second;
    }
  }

  /** Every batch is asked for at least once. */
  lemma {:induction false} OneForEachBatch<T>(fetch: Fetch<T>, requests: seq<seq<string>>, calls: nat)
    requires CallsAtLeast(fetch, 1)
    ensures IsolateAll(fetch, requests, calls).calls >= calls + |requests|
  {
    if |requests| > 0 {
      hide Isolate, CallsAtLeast;
      var init, last := requests[..|requests| - 1], requests[|requests| - 1];
      OneForEachBatch(fetch, init, calls);
      CallsCounted(fetch, ATTEMPT_LIMIT, last, 0, IsolateAll(fetch, init, calls).calls, 1);
      FirstAttempt(fetch, last, IsolateAll(fetch, init, calls).calls);
      assert Times(|Isolate(fetch, ATTEMPT_LIMIT, last, 0, IsolateAll(fetch, init, calls).calls).succeeded|, 0) == 0;
    }
  }

  lemma FirstAttempt<T>(fetch: Fetch<T>, request: seq<string>, calls: nat)
    ensures Isolate(fetch, ATTEMPT_LIMIT, request, 0, calls).attempts >= 1
  {
    hide Isolate, Leaf, Halves, Join;
    if Halves(fetch, ATTEMPT_LIMIT, request, 0, calls) {
      var left, right := Unfold(fetch, ATTEMPT_LIMIT, request, 0, calls);
      JoinCounts(left, right);
      AttemptsGrow(fetch, ATTEMPT_LIMIT, request[..|request| / 2], 1, calls + fetch(request, calls).calls);
      AttemptsGrow(fetch, ATTEMPT_LIMIT, request[|request| / 2..], left.attempts, left.calls);
    } else {
      IsolateLeaf(fetch, ATTEMPT_LIMIT, request, 0, calls);
      LeafCounts(fetch, ATTEMPT_LIMIT, request, 0, calls);
    }
  }

  lemma {:induction false} SameSearches<T>(f: Fetch<T>, g: Fetch<T>, requests: seq<seq<string>>, calls: nat)
    requires forall c, n :: f(c, n) == g(c, n)
    ensures IsolateAll(f, requests, calls) == IsolateAll(g, requests, calls)
  {
    if |requests| > 0 {
      hide Isolate;
      var init, last := requests[..|requests| - 1], requests[|requests| - 1];
      SameSearches(f, g, init, calls);
      SameSearch(f, g, ATTEMPT_LIMIT, last, 0, IsolateAll(f, init, calls).calls);
    }
  }

  lemma PieceDomains(part: seq<string>, whole: seq<string>)
    requires Piece(part, whole) && ValidDomains(whole)
    ensures ValidDomains(part)
  {
  }

  /** Every batch has invalid domains few enough for its sixteen attempts. */
  ghost predicate Affordable(requests: seq<seq<string>>, invalid: set<string>) {
    forall b :: 0 <= b < |requests| ==> 0 < |requests[b]| && WorstCost(requests[b], invalid) <= ATTEMPT_LIMIT
  }

  /** For example at most one invalid domain in every batch of fifty. */
  lemma OneInvalidIsAffordable(domains: seq<string>, invalid: set<string>)
    requires forall b :: 0 <= b < |Chunks(domains, BATCH_SIZE)| ==> |Keep(Chunks(domains, BATCH_SIZE)[b], invalid, true)| <= 1
    ensures Affordable(Chunks(domains, BATCH_SIZE), invalid)
  {
    hide Keep, Chunks, WorstCost;
    ChunksProperties(domains, BATCH_SIZE);
    forall b | 0 <= b < |Chunks(domains, BATCH_SIZE)|
      ensures 0 < |Chunks(domains, BATCH_SIZE)[b]| && WorstCost(Chunks(domains, BATCH_SIZE)[b], invalid) <= ATTEMPT_LIMIT
    {
      assert Chunks(domains, BATCH_SIZE)[b] in Chunks(domains, BATCH_SIZE);
      OneInvalidCost(Chunks(domains, BATCH_SIZE)[b], invalid);
    }
  }

  lemma NoneInvalid(domains: seq<string>)
    ensures Keep(domains, {}, true) == [] && Keep(domains, {}, false) == domains && !HasInvalid(domains, {})
  {
    KeepNone(domains, {});
  }

  /** Exactly the valid domains are collected, and exactly the invalid ones failed and are marked. */
  ghost predicate Separated<T>(o: Outcome<T>, domains: seq<string>, invalid: set<string>) {
    Succeeded(o) == Keep(domains, invalid, false) && Failed(o) == o.invalid == Keep(domains, invalid, true)
  }

  /** Over all batches, an upstream that rejects exactly the requests naming an invalid domain loses no other one. */
  lemma {:induction false} AllSeparate<T>(fetch: Fetch<T>, requests: seq<seq<string>>, calls: nat, invalid: set<string>)
    requires forall b :: 0 <= b < |requests| ==> RejectsExactly(fetch, requests[b], invalid)
    requires Affordable(requests, invalid)
    ensures Separated(IsolateAll(fetch, requests, calls), Flatten(requests), invalid)
  {
    if |requests| > 0 {
      hide Isolate, RejectsExactly, WorstCost, Keep, Succeeded, Failed, Join;
      var init, last := requests[..|requests| - 1], requests[|requests| - 1];
      assert forall b :: 0 <= b < |init| ==> init[b] == requests[b];
      var earlier := IsolateAll(fetch, init, calls);
      var next := Isolate(fetch, ATTEMPT_LIMIT, last, 0, earlier.calls);
      AllSeparate(fetch, init, calls, invalid);
      assert RejectsExactly(fetch, requests[|requests| - 1], invalid) && WorstCost(last, invalid) <= ATTEMPT_LIMIT;
      IsolationCost(fetch, ATTEMPT_LIMIT, last, 0, earlier.calls, invalid);
      JoinSeparated(earlier, next, Flatten(init), last, invalid);
    }
  }

  lemma JoinSeparated<T>(left: Outcome<T>, right: Outcome<T>, l: seq<string>, r: seq<string>, invalid: set<string>)
    requires Separated(left, l, invalid) && Separated(right, r, invalid)
    ensures Separated(Join(left, right), l + r, invalid)
  {
    hide Succeeded, Failed, Keep;
    KeepConcat(l, r, invalid, true);
    KeepConcat(l, r, invalid, false);
    JoinLists(left, right);
  }

  /** When every request is answered at once, nothing fails and the collected requests are those made. */
  lemma {:induction false} AllSucceed<T>(fetch: Fetch<T>, requests: seq<seq<string>>, calls: nat)
    requires forall b, n :: 0 <= b < |requests| ==> fetch(requests[b], n).result.Success?
    ensures var o := IsolateAll(fetch, requests, calls); o.failed == [] && Firsts(o.succeeded) == requests
  {
    if |requests| > 0 {
      hide Isolate, Firsts, Join;
      var init, last := requests[..|requests| - 1], requests[|requests| - 1];
      assert forall b :: 0 <= b < |init| ==> init[b] == requests[b];
      var earlier := IsolateAll(fetch, init, calls);
      AllSucceed(fetch, init, calls);
      assert fetch(requests[|requests| - 1], earlier.calls).result.Success?;
      OneSucceeds(fetch, last, earlier.calls);
      JoinSucceeds(earlier, Isolate(fetch, ATTEMPT_LIMIT, last, 0, earlier.calls), init, last);
      assert init + [last] == requests;
    }
  }

  /** And each of them took one attempt. */
  lemma {:induction false} AllSucceedCalls<T>(fetch: Fetch<T>, requests: seq<seq<string>>, calls: nat)
    requires forall b, n :: 0 <= b < |requests| ==> fetch(requests[b], n).result.Success?
    requires forall c, n :: fetch(c, n).calls == 1
    ensures IsolateAll(fetch, requests, calls).calls == calls + |requests|
  {
    if |requests| > 0 {
      hide Isolate;
      var init, last := requests[..|requests| - 1], requests[|requests| - 1];
      assert forall b :: 0 <= b < |init| ==> init[b] == requests[b];
      AllSucceedCalls(fetch, init, calls);
      var now := IsolateAll(fetch, init, calls).calls;
      assert fetch(requests[|requests| - 1], now).result.Success?;
      IsolateLeaf(fetch, ATTEMPT_LIMIT, last, 0, now);
    }
  }

  lemma OneSucceeds<T>(fetch: Fetch<T>, request: seq<string>, calls: nat)
    requires fetch(request, calls).result.Success?
    ensures var o := Isolate(fetch, ATTEMPT_LIMIT, request, 0, calls); o.failed == [] && Firsts(o.succeeded) == [request]
  {
    hide Isolate;
    IsolateLeaf(fetch, ATTEMPT_LIMIT, request, 0, calls);
  }

  lemma JoinSucceeds<T>(left: Outcome<T>, right: Outcome<T>, init: seq<seq<string>>, last: seq<string>)
    requires left.failed == [] && right.failed == [] && Firsts(left.succeeded) == init && Firsts(right.succeeded) == [last]
    ensures Join(left, right).failed == [] && Firsts(Join(left, right).succeeded) == init + [last]
  {
    hide Firsts;
    FirstsConcat(left.succeeded, right.succeeded);
  }

  lemma {:induction false} ChunksAreDistinct(values: seq<string>, size: nat)
    requires size > 0 && NoDuplicates(values)
    ensures forall b :: 0 <= b < |Chunks(values, size)| ==> NoDuplicates(Chunks(values, size)[b])
  {
    if |values| > size {
      ChunksAreDistinct(values[size..], size);
    }
  }

  /** With p requests per attempt a batch makes at most 16p requests, and at most 15p when all batches succeed. */
  lemma {:induction false} AllCalls<T>(fetch: Fetch<T>, requests: seq<seq<string>>, calls: nat, perAttempt: nat)
    requires CallsBounded(fetch, perAttempt)
    requires forall b :: 0 <= b < |requests| ==> |requests[b]| > 0
    ensures var o := IsolateAll(fetch, requests, calls);
      && calls <= o.calls <= calls + Times(|requests|, 16 * perAttempt)
      && (o.failed == [] ==> o.calls <= calls + Times(|requests|, 15 * perAttempt))
  {
    if |requests| > 0 {
      hide Isolate, CallsBounded, Times;
      var init, last := requests[..|requests| - 1], requests[|requests| - 1];
      var earlier := IsolateAll(fetch, init, calls);
      AllCalls(fetch, init, calls, perAttempt);
      BatchCalls(fetch, last, earlier.calls, perAttempt);
      TimesStep(|init|, 16 * perAttempt);
      TimesStep(|init|, 15 * perAttempt);
    }
  }

  lemma BatchCalls<T>(fetch: Fetch<T>, request: seq<string>, calls: nat, perAttempt: nat)
    requires CallsBounded(fetch, perAttempt) && |request| > 0
    ensures var o := Isolate(fetch, ATTEMPT_LIMIT, request, 0, calls);
      && calls <= o.calls <= calls + 16 * perAttempt
      && (o.failed == [] ==> o.calls <= calls + 15 * perAttempt)
  {
    hide Isolate;
    var o := Isolate(fetch, ATTEMPT_LIMIT, request, 0, calls);
    CallsWithin(fetch, ATTEMPT_LIMIT, request, 0, calls, perAttempt);
    AttemptsWithin(fetch, ATTEMPT_LIMIT, request, 0, calls);
    MulMonotone(o.attempts, 16, perAttempt);
    if o.failed == [] {
      CompleteSearchAttempts(fetch, request, calls);
      MulMonotone(o.attempts, 15, perAttempt);
    }
  }

  /** The collected requests as usage batches. */
  function UsageBatches(succeeded: seq<(seq<string>, Response)>): (batches: seq<Batch>)
    ensures |batches| == |succeeded|
  {
    seq(|succeeded|, i requires 0 <= i < |succeeded| => Batch(succeeded[i].0, succeeded[i].1))
  }

  lemma {:induction false} UsageBatchDomains(succeeded: seq<(seq<string>, Response)>)
    ensures Domains(UsageBatches(succeeded)) == Flatten(Firsts(succeeded))
  {
    if |succeeded| > 0 {
      var init := succeeded[..|succeeded| - 1];
      UsageBatchDomains(init);
      assert UsageBatches(succeeded)[..|succeeded| - 1] == UsageBatches(init);
      assert Firsts(succeeded)[..|succeeded| - 1] == Firsts(init);
    }
  }
}
