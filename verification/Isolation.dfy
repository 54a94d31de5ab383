/** Bounded bisection that isolates rejected domains (internal/app/cdn.go). */
module Isolation {
  import opened Core
  import opened UsagePoints

  const ATTEMPT_LIMIT: nat := 16
  const BATCH_SIZE: nat := 50
  const INVALID_DOMAIN: int := 400032

  /** The answer to one attempt and the number of upstream requests it made. */
  datatype Attempt<+T> = Attempt(result: Result<T, Error>, calls: nat)

  /** An upstream whose answer may depend on everything asked before, through the number of requests so far. */
  type Fetch<!T> = (seq<string>, nat) -> Attempt<T>

  datatype Outcome<+T> = Outcome(
    succeeded: seq<(seq<string>, T)>, failed: seq<(string, Error)>, invalid: seq<string>, attempts: nat, calls: nat)

  function FailAll(domains: seq<string>, error: Error): seq<(string, Error)> {
    seq(|domains|, i requires 0 <= i < |domains| => (domains[i], error))
  }

  /** A rejected request for several domains is halved, budget permitting. */
  predicate Halves<T>(fetch: Fetch<T>, limit: nat, current: seq<string>, attempts: nat, calls: nat) {
    attempts < limit && |current| > 1 && fetch(current, calls).result == Failure(Api(INVALID_DOMAIN))
  }

  /** What a request that is not halved contributes. */
  function Leaf<T>(fetch: Fetch<T>, limit: nat, current: seq<string>, attempts: nat, calls: nat): Outcome<T> {
    if attempts >= limit then Outcome([], FailAll(current, IsolationBudget), [], attempts, calls)
    else
      var answer := fetch(current, calls);
      match answer.result
      case Success(payload) => Outcome([(current, payload)], [], [], attempts + 1, calls + answer.calls)
      case Failure(error) =>
        Outcome([], FailAll(current, error), if error == Api(INVALID_DOMAIN) && |current| == 1 then current else [],
                attempts + 1, calls + answer.calls)
  }

  function Join<T>(left: Outcome<T>, right: Outcome<T>): Outcome<T> {
    Outcome(left.succeeded + right.succeeded, left.failed + right.failed, left.invalid + right.invalid,
            right.attempts, right.calls)
  }

  /** The recursive search, as a function of the upstream. */
  function Isolate<T>(fetch: Fetch<T>, limit: nat, current: seq<string>, attempts: nat, calls: nat): Outcome<T>
    decreases |current|
  {
    if Halves(fetch, limit, current, attempts, calls) then
      var middle := |current| / 2;
      var left := Isolate(fetch, limit, current[..middle], attempts + 1, calls + fetch(current, calls).calls);
      Join(left, Isolate(fetch, limit, current[middle..], left.attempts, left.calls))
    else Leaf(fetch, limit, current, attempts, calls)
  }

  lemma IsolateLeaf<T>(fetch: Fetch<T>, limit: nat, current: seq<string>, attempts: nat, calls: nat)
    ensures !Halves(fetch, limit, current, attempts, calls) ==>
              Isolate(fetch, limit, current, attempts, calls) == Leaf(fetch, limit, current, attempts, calls)
  {
  }

  /** The two halves of a halved search, and what they make of the whole. */
  lemma Unfold<T>(fetch: Fetch<T>, limit: nat, current: seq<string>, attempts: nat, calls: nat)
    returns (left: Outcome<T>, right: Outcome<T>)
    requires Halves(fetch, limit, current, attempts, calls)
    ensures left == Isolate(fetch, limit, current[..|current| / 2], attempts + 1, calls + fetch(current, calls).calls)
    ensures right == Isolate(fetch, limit, current[|current| / 2..], left.attempts, left.calls)
    ensures Isolate(fetch, limit, current, attempts, calls) == Join(left, right)
    ensures current == current[..|current| / 2] + current[|current| / 2..]
  {
    left := Isolate(fetch, limit, current[..|current| / 2], attempts + 1, calls + fetch(current, calls).calls);
    right := Isolate(fetch, limit, current[|current| / 2..], left.attempts, left.calls);
  }

  function Succeeded<T>(o: Outcome<T>): seq<string> { Flatten(Firsts(o.succeeded)) }

  function Failed<T>(o: Outcome<T>): seq<string> { Firsts(o.failed) }

  lemma JoinLists<T>(left: Outcome<T>, right: Outcome<T>)
    ensures Succeeded(Join(left, right)) == Succeeded(left) + Succeeded(right)
    ensures Failed(Join(left, right)) == Failed(left) + Failed(right)
  {
    assert Firsts(left.failed + right.failed) == Firsts(left.failed) + Firsts(right.failed);
    assert Firsts(left.succeeded + right.succeeded) == Firsts(left.succeeded) + Firsts(right.succeeded);
    FlattenConcat(Firsts(left.succeeded), Firsts(right.succeeded));
  }

  lemma LeafLists<T>(fetch: Fetch<T>, limit: nat, current: seq<string>, attempts: nat, calls: nat)
    ensures var o := Leaf(fetch, limit, current, attempts, calls);
      if attempts < limit && fetch(current, calls).result.Success?
      then Succeeded(o) == current && Failed(o) == [] && o.invalid == [] && |o.succeeded| == 1
      else Succeeded(o) == [] && Failed(o) == current && o.succeeded == []
  {
    if attempts < limit && fetch(current, calls).result.Success? {
      assert Firsts(Leaf(fetch, limit, current, attempts, calls).succeeded) == [current];
      FlattenSingleton(current);
    }
  }

  // ---- The same search over mutable state ----

  /** Entries written into a map of failures, later ones replacing earlier ones. */
  function Record(failures: map<string, Error>, entries: seq<(string, Error)>): map<string, Error> {
    if |entries| == 0 then failures
    else Record(failures, entries[..|entries| - 1])[entries[|entries| - 1].0 := entries[|entries| - 1].1]
  }

  lemma {:induction false} RecordConcat(failures: map<string, Error>, first: seq<(string, Error)>, second: seq<(string, Error)>)
    ensures Record(failures, first + second) == Record(Record(failures, first), second)
    decreases |second|
  {
    if |second| == 0 {
      assert first + second == first;
    } else {
      assert (first + second)[..|first + second| - 1] == first + second[..|second| - 1];
      RecordConcat(failures, first, second[..|second| - 1]);
    }
  }

  /** After recording, exactly the recorded names and the earlier ones are failures. */
  lemma {:induction false} RecordKeys(failures: map<string, Error>, entries: seq<(string, Error)>, name: string)
    ensures name in Record(failures, entries) <==> name in failures || exists i :: 0 <= i < |entries| && entries[i].0 == name
  {
    if |entries| > 0 {
      var init := entries[..|entries| - 1];
      RecordKeys(failures, init, name);
      if i :| 0 <= i < |init| && init[i].0 == name { assert entries[i].0 == name; }
      if i :| 0 <= i < |entries| && entries[i].0 == name && i < |init| { assert init[i].0 == name; }
    }
  }

  datatype SearchState<+T> = SearchState(
    attempts: nat, calls: nat, succeeded: seq<(seq<string>, T)>, failed: map<string, Error>, bad: map<string, Error>)

  /** The state an outcome leaves behind. */
  function After<T>(s: SearchState<T>, o: Outcome<T>): SearchState<T> {
    SearchState(o.attempts, o.calls, s.succeeded + o.succeeded, Record(s.failed, o.failed),
                Record(s.bad, FailAll(o.invalid, Api(INVALID_DOMAIN))))
  }

  lemma AfterJoin<T>(s: SearchState<T>, left: Outcome<T>, right: Outcome<T>)
    ensures After(After(s, left), right) == After(s, Join(left, right))
  {
    RecordConcat(s.failed, left.failed, right.failed);
    var error := Api(INVALID_DOMAIN);
    RecordConcat(s.bad, FailAll(left.invalid, error), FailAll(right.invalid, error));
    assert FailAll(left.invalid + right.invalid, error) == FailAll(left.invalid, error) + FailAll(right.invalid, error);
  }

  lemma RecordOne(failures: map<string, Error>, domain: string, error: Error)
    ensures Record(failures, []) == failures && Record(failures, FailAll([], error)) == failures
    ensures Record(failures, FailAll([domain], error)) == failures[domain := error]
  {
    assert FailAll([domain], error)[..0] == [];
  }

  /** The state the source's recursive closure updates. */
  class Search<T> {
    var attempts: nat
    var calls: nat
    var succeeded: seq<(seq<string>, T)>
    var failed: map<string, Error>
    var bad: map<string, Error>

    function State(): SearchState<T>
      reads this
    {
      SearchState(attempts, calls, succeeded, failed, bad)
    }

    constructor (failed: map<string, Error>, bad: map<string, Error>, calls: nat)
      ensures State() == SearchState(0, calls, [], failed, bad)
    {
      this.failed, this.bad, this.calls, this.attempts, this.succeeded := failed, bad, calls, 0, [];
    }

    method FailEach(domains: seq<string>, error: Error)
      modifies this`failed
      ensures failed == Record(old(failed), FailAll(domains, error))
    {
      assert FailAll(domains, error)[..0] == [];
      for i := 0 to |domains|
        invariant failed == Record(old(failed), FailAll(domains, error)[..i])
      {
        assert FailAll(domains, error)[..i + 1][..i] == FailAll(domains, error)[..i];
        failed := failed[domains[i] := error];
      }
      assert FailAll(domains, error)[..|domains|] == FailAll(domains, error);
    }

    method Collect(fetch: Fetch<T>, limit: nat, current: seq<string>)
      modifies this
      ensures State() == After(old(State()), Isolate(fetch, limit, current, old(attempts), old(calls)))
      decreases |current|
    {
      hide After, Join, Record, FailAll, Isolate, Leaf;
      ghost var before := State();
      IsolateLeaf(fetch, limit, current, attempts, calls);
      LeafAfter(before, fetch, limit, current);
      if attempts >= limit {
        FailEach(current, IsolationBudget);
        return;
      }
      attempts := attempts + 1;
      var answer := fetch(current, calls);
      calls := calls + answer.calls;
      if answer.result.Success? {
        succeeded := succeeded + [(current, answer.result.value)];
        return;
      }
      var error := answer.result.error;
      if error == Api(INVALID_DOMAIN) && |current| > 1 {
        var middle := |current| / 2;
        ghost var left, right := Unfold(fetch, limit, current, before.attempts, before.calls);
        hide Halves;
        AfterHalves(before, attempts, calls, left, right);
        Collect(fetch, limit, current[..middle]);
        Collect(fetch, limit, current[middle..]);
        return;
      }
      FailEach(current, error);
      if error == Api(INVALID_DOMAIN) && |current| == 1 {
        bad := bad[current[0] := error];
      }
    }
  }

  /** An outcome replaces the counters and only appends to the rest, so two in a row are their join. */
  lemma AfterHalves<T>(s: SearchState<T>, attempts: nat, calls: nat, left: Outcome<T>, right: Outcome<T>)
    ensures var first := After(s.(attempts := attempts, calls := calls), left);
      first.attempts == left.attempts && first.calls == left.calls && After(first, right) == After(s, Join(left, right))
  {
    AfterJoin(s, left, right);
    assert After(s.(attempts := attempts, calls := calls), left) == After(s, left);
  }

  /** What a request that is not halved leaves behind. */
  lemma LeafAfter<T>(s: SearchState<T>, fetch: Fetch<T>, limit: nat, current: seq<string>)
    ensures var after, answer := After(s, Leaf(fetch, limit, current, s.attempts, s.calls)), fetch(current, s.calls);
      if s.attempts >= limit then after == s.(failed := Record(s.failed, FailAll(current, IsolationBudget)))
      else if answer.result.Success?
      then after == s.(attempts := s.attempts + 1, calls := s.calls + answer.calls, succeeded := s.succeeded + [(current, answer.result.value)])
      else
        var error := answer.result.error;
        after == s.(attempts := s.attempts + 1, calls := s.calls + answer.calls, failed := Record(s.failed, FailAll(current, error)),
                    bad := if error == Api(INVALID_DOMAIN) && |current| == 1 then s.bad[current[0] := error] else s.bad)
  {
    hide Record, FailAll;
    var o := Leaf(fetch, limit, current, s.attempts, s.calls);
    RecordOne(s.failed, "", IsolationBudget);
    RecordOne(s.bad, "", Api(INVALID_DOMAIN));
    if |o.invalid| > 0 {
      assert current == [current[0]];
      RecordOne(s.bad, current[0], Api(INVALID_DOMAIN));
    }
  }

  // ---- Every domain ends in exactly one of the two lists, in input order ----

  ghost predicate Interleaves<T>(left: seq<T>, right: seq<T>, whole: seq<T>)
    decreases |whole|
  {
    if |whole| == 0 then |left| == 0 && |right| == 0
    else
      || (|left| > 0 && left[0] == whole[0] && Interleaves(left[1..], right, whole[1..]))
      || (|right| > 0 && right[0] == whole[0] && Interleaves(left, right[1..], whole[1..]))
  }

  lemma {:induction false} InterleavesConcat<T>(l1: seq<T>, r1: seq<T>, w1: seq<T>, l2: seq<T>, r2: seq<T>, w2: seq<T>)
    requires Interleaves(l1, r1, w1) && Interleaves(l2, r2, w2)
    ensures Interleaves(l1 + l2, r1 + r2, w1 + w2)
    decreases |w1|
  {
    if |w1| == 0 {
      assert l1 + l2 == l2 && r1 + r2 == r2 && w1 + w2 == w2;
    } else {
      assert (w1 + w2)[1..] == w1[1..] + w2;
      if |l1| > 0 && l1[0] == w1[0] && Interleaves(l1[1..], r1, w1[1..]) {
        InterleavesConcat(l1[1..], r1, w1[1..], l2, r2, w2);
        assert (l1 + l2)[1..] == l1[1..] + l2;
      } else {
        InterleavesConcat(l1, r1[1..], w1[1..], l2, r2, w2);
        assert (r1 + r2)[1..] == r1[1..] + r2;
      }
    }
  }

  lemma {:induction false} InterleavesOneSided<T>(whole: seq<T>)
    ensures Interleaves(whole, [], whole) && Interleaves([], whole, whole)
    decreases |whole|
  {
    if |whole| > 0 {
      InterleavesOneSided(whole[1..]);
    }
  }

  /** An interleaving loses nothing, duplicates nothing, and with one side empty is the other side. */
  lemma {:induction false} InterleavesProperties<T>(left: seq<T>, right: seq<T>, whole: seq<T>)
    requires Interleaves(left, right, whole)
    ensures multiset(left) + multiset(right) == multiset(whole)
    ensures |left| + |right| == |whole|
    ensures |right| == 0 ==> left == whole
    decreases |whole|
  {
    if |whole| > 0 {
      assert whole == [whole[0]] + whole[1..];
      if |left| > 0 && left[0] == whole[0] && Interleaves(left[1..], right, whole[1..]) {
        assert left == [left[0]] + left[1..];
        InterleavesProperties(left[1..], right, whole[1..]);
      } else {
        assert right == [right[0]] + right[1..];
        InterleavesProperties(left, right[1..], whole[1..]);
      }
    }
  }

  /** Main law: for any upstream the search partitions its input and keeps its order. */
  lemma {:induction false} IsolationPartitions<T>(fetch: Fetch<T>, limit: nat, current: seq<string>, attempts: nat, calls: nat)
    ensures var o := Isolate(fetch, limit, current, attempts, calls); Interleaves(Succeeded(o), Failed(o), current)
    decreases |current|
  {
    if Halves(fetch, limit, current, attempts, calls) {
      hide Isolate, Leaf, Join, Interleaves, Succeeded, Failed;
      var left, right := Unfold(fetch, limit, current, attempts, calls);
      var (l, r) := (current[..|current| / 2], current[|current| / 2..]);
      IsolationPartitions(fetch, limit, l, attempts + 1, calls + fetch(current, calls).calls);
      IsolationPartitions(fetch, limit, r, left.attempts, left.calls);
      JoinLists(left, right);
      InterleavesConcat(Succeeded(left), Failed(left), l, Succeeded(right), Failed(right), r);
    } else {
      InterleavesOneSided(current);
      LeafLists(fetch, limit, current, attempts, calls);
    }
  }

  /** With distinct domains, no domain is both collected and failed, and none is dropped. */
  lemma ExactlyOneFate<T>(fetch: Fetch<T>, limit: nat, current: seq<string>, attempts: nat, calls: nat, domain: string)
    requires NoDuplicates(current) && domain in current
    ensures var o := Isolate(fetch, limit, current, attempts, calls);
      domain in Succeeded(o) <==> domain !in Failed(o)
  {
    hide Isolate, Succeeded, Failed;
    var o := Isolate(fetch, limit, current, attempts, calls);
    IsolationPartitions(fetch, limit, current, attempts, calls);
    InterleavesProperties(Succeeded(o), Failed(o), current);
    OccursOnce(current, domain);
    assert multiset(Succeeded(o))[domain] + multiset(Failed(o))[domain] == multiset(current)[domain] == 1;
    assert domain in Succeeded(o) <==> domain in multiset(Succeeded(o));
    assert domain in Failed(o) <==> domain in multiset(Failed(o));
  }

  lemma {:induction false} OccursOnce(xs: seq<string>, x: string)
    requires NoDuplicates(xs)
    ensures multiset(xs)[x] == if x in xs then 1 else 0
  {
    if |xs| > 0 {
      var init, last := xs[..|xs| - 1], xs[|xs| - 1];
      assert xs == init + [last];
      OccursOnce(init, x);
      LastIsFresh(xs);
    }
  }

  lemma LastIsFresh(xs: seq<string>)
    requires NoDuplicates(xs) && |xs| > 0
    ensures xs[|xs| - 1] !in xs[..|xs| - 1]
  {
  }

  // ---- Budgets ----

  ghost predicate CallsBounded<T>(fetch: Fetch<T>, perAttempt: nat) {
    forall c, n :: fetch(c, n).calls <= perAttempt
  }

  function Most(perAttempt: nat, attempts: int): int { perAttempt * attempts }

  lemma MostAdd(perAttempt: nat, a: int, b: int, c: int)
    ensures Most(perAttempt, c - a) == perAttempt + Most(perAttempt, b - (a + 1)) + Most(perAttempt, c - b)
  {
  }

  lemma MostOne(perAttempt: nat)
    ensures Most(perAttempt, 0) == 0 && Most(perAttempt, 1) == perAttempt
  {
  }

  lemma LeafCounts<T>(fetch: Fetch<T>, limit: nat, current: seq<string>, attempts: nat, calls: nat)
    ensures var o := Leaf(fetch, limit, current, attempts, calls);
      if attempts >= limit then o.attempts == attempts && o.calls == calls
      else o.attempts == attempts + 1 && o.calls == calls + fetch(current, calls).calls
  {
  }

  lemma JoinCounts<T>(left: Outcome<T>, right: Outcome<T>)
    ensures Join(left, right).attempts == right.attempts && Join(left, right).calls == right.calls
  {
  }

  lemma OneAttempt<T>(fetch: Fetch<T>, perAttempt: nat, c: seq<string>, n: nat)
    requires CallsBounded(fetch, perAttempt)
    ensures fetch(c, n).calls <= perAttempt
  {
  }

  /** Each attempt makes a bounded number of requests. */
  lemma {:induction false} CallsWithin<T>(fetch: Fetch<T>, limit: nat, current: seq<string>, attempts: nat, calls: nat, perAttempt: nat)
    requires CallsBounded(fetch, perAttempt)
    ensures var o := Isolate(fetch, limit, current, attempts, calls);
      attempts <= o.attempts && calls <= o.calls <= calls + Most(perAttempt, o.attempts - attempts)
    decreases |current|
  {
    hide CallsBounded, Most, Leaf, Isolate, Join;
    OneAttempt(fetch, perAttempt, current, calls);
    if Halves(fetch, limit, current, attempts, calls) {
      hide Halves;
      var left, right := Unfold(fetch, limit, current, attempts, calls);
      JoinCounts(left, right);
      CallsWithin(fetch, limit, current[..|current| / 2], attempts + 1, calls + fetch(current, calls).calls, perAttempt);
      CallsWithin(fetch, limit, current[|current| / 2..], left.attempts, left.calls, perAttempt);
      MostAdd(perAttempt, attempts, left.attempts, right.attempts);
    } else {
      IsolateLeaf(fetch, limit, current, attempts, calls);
      LeafCounts(fetch, limit, current, attempts, calls);
      MostOne(perAttempt);
    }
  }

  /** A search in which nothing failed is a full binary tree: it used an odd number of attempts. */
  lemma {:induction false} CompleteSearchIsOdd<T>(fetch: Fetch<T>, limit: nat, current: seq<string>, attempts: nat, calls: nat)
    requires |current| > 0 && Isolate(fetch, limit, current, attempts, calls).failed == []
    ensures var o := Isolate(fetch, limit, current, attempts, calls);
      o.attempts == attempts + 2 * |o.succeeded| - 1 && |o.succeeded| > 0 && o.invalid == []
    decreases |current|
  {
    if Halves(fetch, limit, current, attempts, calls) {
      hide Isolate, Leaf;
      var left, right := Unfold(fetch, limit, current, attempts, calls);
      CompleteSearchIsOdd(fetch, limit, current[..|current| / 2], attempts + 1, calls + fetch(current, calls).calls);
      CompleteSearchIsOdd(fetch, limit, current[|current| / 2..], left.attempts, left.calls);
    } else {
      LeafLists(fetch, limit, current, attempts, calls);
    }
  }

  /** The attempt limit is never exceeded. */
  lemma {:induction false} AttemptsWithin<T>(fetch: Fetch<T>, limit: nat, current: seq<string>, attempts: nat, calls: nat)
    requires attempts <= limit
    ensures attempts <= Isolate(fetch, limit, current, attempts, calls).attempts <= limit
    decreases |current|
  {
    hide Leaf;
    if Halves(fetch, limit, current, attempts, calls) {
      hide Isolate;
      var left, right := Unfold(fetch, limit, current, attempts, calls);
      AttemptsWithin(fetch, limit, current[..|current| / 2], attempts + 1, calls + fetch(current, calls).calls);
      AttemptsWithin(fetch, limit, current[|current| / 2..], left.attempts, left.calls);
    } else {
      LeafCounts(fetch, limit, current, attempts, calls);
    }
  }

  /** Hence a complete sixteen-attempt search stops at fifteen. */
  lemma CompleteSearchAttempts<T>(fetch: Fetch<T>, current: seq<string>, calls: nat)
    requires |current| > 0 && Isolate(fetch, ATTEMPT_LIMIT, current, 0, calls).failed == []
    ensures Isolate(fetch, ATTEMPT_LIMIT, current, 0, calls).attempts <= 15
  {
    hide Isolate;
    CompleteSearchIsOdd(fetch, ATTEMPT_LIMIT, current, 0, calls);
    AttemptsWithin(fetch, ATTEMPT_LIMIT, current, 0, calls);
  }

  lemma LeafInvalid<T>(fetch: Fetch<T>, limit: nat, current: seq<string>, attempts: nat, calls: nat, domain: string)
    requires domain in Leaf(fetch, limit, current, attempts, calls).invalid
    ensures current == [domain] && fetch(current, calls).result == Failure(Api(INVALID_DOMAIN))
    ensures (domain, Api(INVALID_DOMAIN)) in Leaf(fetch, limit, current, attempts, calls).failed
  {
    assert FailAll(current, Api(INVALID_DOMAIN))[0] == (domain, Api(INVALID_DOMAIN));
  }

  /** Only a domain rejected on its own, at some request n, is remembered as invalid. */
  lemma {:induction false} InvalidWasRejectedAlone<T>(fetch: Fetch<T>, limit: nat, current: seq<string>, attempts: nat, calls: nat, domain: string)
    returns (n: nat)
    requires domain in Isolate(fetch, limit, current, attempts, calls).invalid
    ensures domain in current && (domain, Api(INVALID_DOMAIN)) in Isolate(fetch, limit, current, attempts, calls).failed
    ensures fetch([domain], n).result == Failure(Api(INVALID_DOMAIN))
    decreases |current|
  {
    hide Isolate, Leaf;
    if Halves(fetch, limit, current, attempts, calls) {
      var left, right := Unfold(fetch, limit, current, attempts, calls);
      hide Halves;
      if domain in left.invalid {
        n := InvalidWasRejectedAlone(fetch, limit, current[..|current| / 2], attempts + 1, calls + fetch(current, calls).calls, domain);
      } else {
        n := InvalidWasRejectedAlone(fetch, limit, current[|current| / 2..], left.attempts, left.calls, domain);
      }
    } else {
      IsolateLeaf(fetch, limit, current, attempts, calls);
      LeafInvalid(fetch, limit, current, attempts, calls, domain);
      n := calls;
    }
  }

  /** A non-empty contiguous piece of a list. */
  ghost predicate Piece(part: seq<string>, whole: seq<string>) {
    exists i: nat, j: nat :: i < j <= |whole| && part == whole[i..j]
  }

  lemma WholePiece(whole: seq<string>)
    requires |whole| > 0
    ensures Piece(whole, whole)
  {
    assert whole[0..|whole|] == whole;
  }

  lemma PieceOfHalf(part: seq<string>, whole: seq<string>, m: nat)
    requires m <= |whole| && (Piece(part, whole[..m]) || Piece(part, whole[m..]))
    ensures Piece(part, whole)
  {
    if Piece(part, whole[..m]) {
      var i: nat, j: nat :| i < j <= |whole[..m]| && part == whole[..m][i..j];
      assert whole[..m][i..j] == whole[i..j];
    } else {
      var i: nat, j: nat :| i < j <= |whole[m..]| && part == whole[m..][i..j];
      assert whole[m..][i..j] == whole[m + i..m + j];
    }
  }

  /** The answer to one non-empty piece of the input. */
  ghost predicate WasAnswered<T>(fetch: Fetch<T>, whole: seq<string>, answer: (seq<string>, T)) {
    && 0 < |answer.0| <= |whole| && Piece(answer.0, whole)
    && exists n: nat :: fetch(answer.0, n).result == Success(answer.1)
  }

  lemma HalfWasAnswered<T>(fetch: Fetch<T>, whole: seq<string>, m: nat, answer: (seq<string>, T))
    requires m <= |whole| && (WasAnswered(fetch, whole[..m], answer) || WasAnswered(fetch, whole[m..], answer))
    ensures WasAnswered(fetch, whole, answer)
  {
    hide Piece;
    PieceOfHalf(answer.0, whole, m);
  }

  /** Every collected batch is a piece of the input that the upstream answered with exactly that payload. */
  lemma {:induction false} SucceededWasAnswered<T>(fetch: Fetch<T>, limit: nat, current: seq<string>, attempts: nat, calls: nat, i: nat)
    requires |current| > 0 && i < |Isolate(fetch, limit, current, attempts, calls).succeeded|
    ensures WasAnswered(fetch, current, Isolate(fetch, limit, current, attempts, calls).succeeded[i])
    decreases |current|
  {
    hide Isolate, Leaf, WasAnswered;
    if Halves(fetch, limit, current, attempts, calls) {
      var left, right := Unfold(fetch, limit, current, attempts, calls);
      hide Halves;
      if i < |left.succeeded| {
        SucceededWasAnswered(fetch, limit, current[..|current| / 2], attempts + 1, calls + fetch(current, calls).calls, i);
        HalfWasAnswered(fetch, current, |current| / 2, left.succeeded[i]);
      } else {
        SucceededWasAnswered(fetch, limit, current[|current| / 2..], left.attempts, left.calls, i - |left.succeeded|);
        HalfWasAnswered(fetch, current, |current| / 2, right.succeeded[i - |left.succeeded|]);
      }
    } else {
      IsolateLeaf(fetch, limit, current, attempts, calls);
      LeafWasAnswered(fetch, limit, current, attempts, calls, i);
    }
  }

  lemma LeafWasAnswered<T>(fetch: Fetch<T>, limit: nat, current: seq<string>, attempts: nat, calls: nat, i: nat)
    requires |current| > 0 && i < |Leaf(fetch, limit, current, attempts, calls).succeeded|
    ensures WasAnswered(fetch, current, Leaf(fetch, limit, current, attempts, calls).succeeded[i])
  {
    WholePiece(current);
  }

  // ---- The log of a search ----

  /** One attempt: what was asked, and the number of requests made before it. */
  datatype Asked = Asked(domains: seq<string>, number: nat)

  /** Attempts in order: each is numbered by all requests of those before it. */
  ghost predicate IsLog<T>(fetch: Fetch<T>, log: seq<Asked>, from: nat, to: nat) {
    if |log| == 0 then from == to
    else log[0].number == from && IsLog(fetch, log[1..], from + fetch(log[0].domains, from).calls, to)
  }

  lemma {:induction false} LogConcat<T>(fetch: Fetch<T>, first: seq<Asked>, second: seq<Asked>, a: nat, b: nat, c: nat)
    requires IsLog(fetch, first, a, b) && IsLog(fetch, second, b, c)
    ensures IsLog(fetch, first + second, a, c)
    decreases |first|
  {
    if |first| == 0 {
      assert first + second == second;
    } else {
      assert (first + second)[1..] == first[1..] + second;
      LogConcat(fetch, first[1..], second, a + fetch(first[0].domains, a).calls, b, c);
    }
  }

  ghost predicate AnsweredIn<T>(fetch: Fetch<T>, log: seq<Asked>, answer: (seq<string>, T)) {
    exists k :: 0 <= k < |log| && log[k].domains == answer.0 && fetch(log[k].domains, log[k].number).result == Success(answer.1)
  }

  /** The error is the answer to a logged request that named the domain, alone when it is 400032; or no attempt was left. */
  ghost predicate FailedIn<T>(fetch: Fetch<T>, log: seq<Asked>, failure: (string, Error), exhausted: bool) {
    || (failure.1 == IsolationBudget && exhausted)
    || exists k :: 0 <= k < |log| && failure.0 in log[k].domains && (failure.1 == Api(400032) ==> log[k].domains == [failure.0])
         && fetch(log[k].domains, log[k].number).result == Failure(failure.1)
  }

  /** Everything an outcome reports was answered in the log, and every logged request is a piece of the input. */
  ghost predicate Explains<T>(fetch: Fetch<T>, log: seq<Asked>, o: Outcome<T>, whole: seq<string>, exhausted: bool) {
    && (forall k :: 0 <= k < |log| ==> Piece(log[k].domains, whole))
    && (forall i :: 0 <= i < |o.succeeded| ==> AnsweredIn(fetch, log, o.succeeded[i]))
    && forall i :: 0 <= i < |o.failed| ==> FailedIn(fetch, log, o.failed[i], exhausted)
  }

  lemma ExplainedIn<T>(fetch: Fetch<T>, log: seq<Asked>, before: seq<Asked>, after: seq<Asked>, answer: (seq<string>, T))
    requires AnsweredIn(fetch, log, answer)
    ensures AnsweredIn(fetch, before + log + after, answer)
  {
    var k :| 0 <= k < |log| && log[k].domains == answer.0 && fetch(log[k].domains, log[k].number).result == Success(answer.1);
    assert (before + log + after)[|before| + k] == log[k];
  }

  lemma FailureIn<T>(fetch: Fetch<T>, log: seq<Asked>, before: seq<Asked>, after: seq<Asked>, failure: (string, Error), a: bool, b: bool)
    requires FailedIn(fetch, log, failure, a) && (a ==> b)
    ensures FailedIn(fetch, before + log + after, failure, b)
  {
    if !(failure.1 == IsolationBudget && a) {
      var k :| 0 <= k < |log| && failure.0 in log[k].domains && (failure.1 == Api(400032) ==> log[k].domains == [failure.0])
        && fetch(log[k].domains, log[k].number).result == Failure(failure.1);
      assert (before + log + after)[|before| + k] == log[k];
    }
  }

  lemma JoinExplained<T>(fetch: Fetch<T>, first: Asked, left: seq<Asked>, right: seq<Asked>, l: Outcome<T>, r: Outcome<T>,
                         whole: seq<string>, m: nat, a: bool, b: bool)
    requires m <= |whole| && first.domains == whole && |whole| > 0 && (a ==> b)
    requires Explains(fetch, left, l, whole[..m], a) && Explains(fetch, right, r, whole[m..], b)
    ensures Explains(fetch, [first] + left + right, Join(l, r), whole, b)
  {
    hide AnsweredIn, FailedIn, Piece;
    var log, o := [first] + left + right, Join(l, r);
    WholePiece(whole);
    forall k | 0 <= k < |log|
      ensures Piece(log[k].domains, whole)
    {
      if 0 < k {
        PieceOfHalf(log[k].domains, whole, m);
      }
    }
    forall i | 0 <= i < |o.succeeded|
      ensures AnsweredIn(fetch, log, o.succeeded[i])
    {
      if i < |l.succeeded| {
        ExplainedIn(fetch, left, [first], right, l.succeeded[i]);
      } else {
        ExplainedIn(fetch, right, [first] + left, [], r.succeeded[i - |l.succeeded|]);
        assert [first] + left + right + [] == log;
      }
    }
    forall i | 0 <= i < |o.failed|
      ensures FailedIn(fetch, log, o.failed[i], b)
    {
      if i < |l.failed| {
        FailureIn(fetch, left, [first], right, l.failed[i], a, b);
      } else {
        FailureIn(fetch, right, [first] + left, [], r.failed[i - |l.failed|], b, b);
        assert [first] + left + right + [] == log;
      }
    }
  }

  lemma LeafExplained<T>(fetch: Fetch<T>, limit: nat, current: seq<string>, attempts: nat, calls: nat) returns (log: seq<Asked>)
    requires |current| > 0 && !Halves(fetch, limit, current, attempts, calls)
    ensures var o := Leaf(fetch, limit, current, attempts, calls);
      && IsLog(fetch, log, calls, o.calls) && |log| == o.attempts - attempts
      && Explains(fetch, log, o, current, o.attempts >= limit)
  {
    var o := Leaf(fetch, limit, current, attempts, calls);
    WholePiece(current);
    if attempts >= limit {
      log := [];
    } else {
      log := [Asked(current, calls)];
      assert log[1..] == [];
      assert IsLog(fetch, [], calls + fetch(current, calls).calls, o.calls);
      assert |current| == 1 ==> current == [current[0]];
      assert log[0].domains == current && log[0].number == calls;
    }
  }

  /**
   * Main law of the log: for any upstream there is a list of attempts, numbered by the requests they made, that accounts
   * for all requests, for every collected batch and for every failure.
   */
  lemma {:induction false} SearchIsLogged<T>(fetch: Fetch<T>, limit: nat, current: seq<string>, attempts: nat, calls: nat)
    returns (log: seq<Asked>)
    requires |current| > 0
    ensures var o := Isolate(fetch, limit, current, attempts, calls);
      && IsLog(fetch, log, calls, o.calls) && |log| == o.attempts - attempts
      && Explains(fetch, log, o, current, o.attempts >= limit)
    decreases |current|
  {
    hide Isolate, Leaf, Explains, Join;
    if Halves(fetch, limit, current, attempts, calls) {
      var left, right := Unfold(fetch, limit, current, attempts, calls);
      var first := Asked(current, calls);
      var l := SearchIsLogged(fetch, limit, current[..|current| / 2], attempts + 1, calls + fetch(current, calls).calls);
      var r := SearchIsLogged(fetch, limit, current[|current| / 2..], left.attempts, left.calls);
      JoinCounts(left, right);
      log := [first] + l + r;
      FirstLogged(fetch, first, l, left.calls);
      LogConcat(fetch, [first] + l, r, calls, left.calls, right.calls);
      AttemptsGrow(fetch, limit, current[|current| / 2..], left.attempts, left.calls);
      JoinExplained(fetch, first, l, r, left, right, current, |current| / 2, left.attempts >= limit, right.attempts >= limit);
    } else {
      IsolateLeaf(fetch, limit, current, attempts, calls);
      log := LeafExplained(fetch, limit, current, attempts, calls);
    }
  }

  lemma FirstLogged<T>(fetch: Fetch<T>, first: Asked, log: seq<Asked>, to: nat)
    requires IsLog(fetch, log, first.number + fetch(first.domains, first.number).calls, to)
    ensures IsLog(fetch, [first] + log, first.number, to)
  {
    assert ([first] + log)[1..] == log;
  }

  lemma {:induction false} AttemptsGrow<T>(fetch: Fetch<T>, limit: nat, current: seq<string>, attempts: nat, calls: nat)
    ensures attempts <= Isolate(fetch, limit, current, attempts, calls).attempts
    decreases |current|
  {
    hide Isolate, Leaf;
    if Halves(fetch, limit, current, attempts, calls) {
      var left, right := Unfold(fetch, limit, current, attempts, calls);
      AttemptsGrow(fetch, limit, current[..|current| / 2], attempts + 1, calls + fetch(current, calls).calls);
      AttemptsGrow(fetch, limit, current[|current| / 2..], left.attempts, left.calls);
    } else {
      IsolateLeaf(fetch, limit, current, attempts, calls);
      LeafCounts(fetch, limit, current, attempts, calls);
    }
  }

  /** Attempts never share a request number, and the next number is behind all of them. */
  lemma {:induction false} LogNumbers<T>(fetch: Fetch<T>, log: seq<Asked>, from: nat, to: nat, i: nat)
    requires IsLog(fetch, log, from, to) && i < |log|
    ensures from <= log[i].number && log[i].number + fetch(log[i].domains, log[i].number).calls <= to
    ensures forall j :: i < j < |log| ==> log[i].number + fetch(log[i].domains, log[i].number).calls <= log[j].number
  {
    var next := from + fetch(log[0].domains, from).calls;
    if i > 0 {
      LogNumbers(fetch, log[1..], next, to, i - 1);
      forall j | i < j < |log|
        ensures log[i].number + fetch(log[i].domains, log[i].number).calls <= log[j].number
      {
        assert log[j] == log[1..][j - 1];
      }
    } else {
      LogGrows(fetch, log[1..], next, to);
      forall j | 0 < j < |log|
        ensures next <= log[j].number
      {
        LogNumbers(fetch, log[1..], next, to, j - 1);
      }
    }
  }

  lemma {:induction false} LogGrows<T>(fetch: Fetch<T>, log: seq<Asked>, from: nat, to: nat)
    requires IsLog(fetch, log, from, to)
    ensures from <= to
  {
    if |log| > 0 {
      LogGrows(fetch, log[1..], from + fetch(log[0].domains, from).calls, to);
    }
  }

  /** With one request for each attempt the attempts are numbered one by one, and there are as many as requests. */
  lemma {:induction false} UnitLog<T>(fetch: Fetch<T>, log: seq<Asked>, from: nat, to: nat)
    requires IsLog(fetch, log, from, to) && forall c, n :: fetch(c, n).calls == 1
    ensures to == from + |log| && forall k :: 0 <= k < |log| ==> log[k].number == from + k
  {
    if |log| > 0 {
      UnitLog(fetch, log[1..], from + 1, to);
      forall k | 0 <= k < |log| ensures log[k].number == from + k { assert k > 0 ==> log[k] == log[1..][k - 1]; }
    }
  }

  /** Every attempt makes at least one request, and an answered one at least so many. */
  ghost predicate CallsAtLeast<T>(fetch: Fetch<T>, answered: nat) {
    forall c, n :: fetch(c, n).calls >= 1 && (fetch(c, n).result.Success? ==> fetch(c, n).calls >= answered)
  }

  /** No request goes uncounted: each attempt counts, and each answered attempt counts in full. */
  lemma {:induction false} CallsCounted<T>(fetch: Fetch<T>, limit: nat, current: seq<string>, attempts: nat, calls: nat, answered: nat)
    requires CallsAtLeast(fetch, answered) && answered > 0
    ensures var o := Isolate(fetch, limit, current, attempts, calls);
      o.calls >= calls + (o.attempts - attempts) + Times(|o.succeeded|, answered - 1)
    decreases |current|
  {
    hide Isolate, Leaf, Times;
    TimesStep(0, answered - 1);
    if Halves(fetch, limit, current, attempts, calls) {
      var left, right := Unfold(fetch, limit, current, attempts, calls);
      CallsCounted(fetch, limit, current[..|current| / 2], attempts + 1, calls + fetch(current, calls).calls, answered);
      CallsCounted(fetch, limit, current[|current| / 2..], left.attempts, left.calls, answered);
      TimesAdd(|left.succeeded|, |right.succeeded|, answered - 1);
    } else {
      IsolateLeaf(fetch, limit, current, attempts, calls);
      LeafCounts(fetch, limit, current, attempts, calls);
      LeafLists(fetch, limit, current, attempts, calls);
    }
  }

  // ---- Logarithmic cost ----

  function CeilLog2(n: nat): nat
    requires n > 0
  {
    if n == 1 then 0 else 1 + CeilLog2((n + 1) / 2)
  }

  function Pow2(k: nat): nat { if k == 0 then 1 else 2 * Pow2(k - 1) }

  /** CeilLog2 is the least exponent whose power reaches n. */
  lemma {:induction false} CeilLog2IsLeast(n: nat)
    requires n > 0
    ensures n <= Pow2(CeilLog2(n))
    ensures n > 1 ==> Pow2(CeilLog2(n) - 1) < n
  {
    if n > 1 {
      CeilLog2IsLeast((n + 1) / 2);
    }
  }

  lemma {:induction false} CeilLog2Monotone(m: nat, n: nat)
    requires 0 < m <= n
    ensures CeilLog2(m) <= CeilLog2(n)
  {
    if m > 1 {
      CeilLog2Monotone((m + 1) / 2, (n + 1) / 2);
    }
  }

  ghost predicate HasInvalid(domains: seq<string>, invalid: set<string>) {
    exists d :: d in domains && d in invalid
  }

  /**
   * Of all requests the search could make, the non-empty contiguous pieces of its input, the upstream rejects exactly
   * those that name an invalid domain and answers every other one. Nothing is asked of any other request.
   */
  ghost predicate RejectsExactly<T>(fetch: Fetch<T>, whole: seq<string>, invalid: set<string>) {
    forall i: nat, j: nat, n: nat :: i < j <= |whole| ==> AnswersAsExpected(fetch, whole[i..j], n, invalid)
  }

  lemma PiecesReject<T>(fetch: Fetch<T>, whole: seq<string>, m: nat, invalid: set<string>)
    requires RejectsExactly(fetch, whole, invalid) && m <= |whole|
    ensures RejectsExactly(fetch, whole[..m], invalid) && RejectsExactly(fetch, whole[m..], invalid)
  {
    hide AnswersAsExpected;
    forall i: nat, j: nat, n: nat | i < j <= m
      ensures AnswersAsExpected(fetch, whole[..m][i..j], n, invalid)
    {
      assert whole[..m][i..j] == whole[i..j];
    }
    forall i: nat, j: nat, n: nat | i < j <= |whole| - m
      ensures AnswersAsExpected(fetch, whole[m..][i..j], n, invalid)
    {
      assert whole[m..][i..j] == whole[m + i..m + j];
    }
  }

  ghost predicate AnswersAsExpected<T>(fetch: Fetch<T>, c: seq<string>, n: nat, invalid: set<string>) {
    if HasInvalid(c, invalid) then fetch(c, n).result == Failure(Api(INVALID_DOMAIN)) else fetch(c, n).result.Success?
  }

  function Keep(domains: seq<string>, invalid: set<string>, wanted: bool): seq<string> {
    if |domains| == 0 then []
    else
      var last := domains[|domains| - 1];
      var kept := Keep(domains[..|domains| - 1], invalid, wanted);
      if (last in invalid) == wanted then kept + [last] else kept
  }

  lemma {:induction false} KeepConcat(left: seq<string>, right: seq<string>, invalid: set<string>, wanted: bool)
    ensures Keep(left + right, invalid, wanted) == Keep(left, invalid, wanted) + Keep(right, invalid, wanted)
    decreases |right|
  {
    if |right| == 0 {
      assert left + right == left;
    } else {
      assert (left + right)[..|left + right| - 1] == left + right[..|right| - 1];
      KeepConcat(left, right[..|right| - 1], invalid, wanted);
    }
  }

  lemma {:induction false} KeepNone(domains: seq<string>, invalid: set<string>)
    requires !HasInvalid(domains, invalid)
    ensures Keep(domains, invalid, true) == [] && Keep(domains, invalid, false) == domains
  {
    if |domains| > 0 {
      assert domains[|domains| - 1] in domains;
      forall d | d in domains[..|domains| - 1] ensures d !in invalid { assert d in domains; }
      KeepNone(domains[..|domains| - 1], invalid);
    }
  }

  lemma {:induction false} KeepMembers(domains: seq<string>, invalid: set<string>, wanted: bool, d: string)
    ensures d in Keep(domains, invalid, wanted) <==> d in domains && (d in invalid) == wanted
  {
    if |domains| > 0 {
      assert domains == domains[..|domains| - 1] + [domains[|domains| - 1]];
      KeepMembers(domains[..|domains| - 1], invalid, wanted, d);
    }
  }

  lemma {:induction false} KeepDistinct(domains: seq<string>, invalid: set<string>, wanted: bool)
    requires NoDuplicates(domains)
    ensures NoDuplicates(Keep(domains, invalid, wanted))
  {
    if |domains| > 0 {
      var init := domains[..|domains| - 1];
      KeepDistinct(init, invalid, wanted);
      KeepMembers(init, invalid, wanted, domains[|domains| - 1]);
      LastIsFresh(domains);
    }
  }

  lemma {:induction false} KeepMember(domains: seq<string>, invalid: set<string>, d: string)
    requires d in domains && d in invalid
    ensures |Keep(domains, invalid, true)| > 0
  {
    if d in domains[..|domains| - 1] {
      KeepMember(domains[..|domains| - 1], invalid, d);
    }
  }

  function CostBound(k: nat, levels: nat): nat { if k == 0 then 1 else 1 + 2 * (k * levels) }

  lemma CostSplit(k1: nat, k2: nat, l1: nat, l2: nat, levels: nat)
    requires k1 + k2 > 0 && l1 <= levels && l2 <= levels
    ensures 1 + CostBound(k1, l1) + CostBound(k2, l2) <= CostBound(k1 + k2, levels + 1)
  {
    MulMonotone(l1, levels, k1);
    MulMonotone(l2, levels, k2);
    Distribute(k1, k2, levels);
  }

  /** The worst number of attempts for these domains: 1 + 2k*ceil(log2 n) with k invalid ones among n. */
  function WorstCost(domains: seq<string>, invalid: set<string>): nat
    requires |domains| > 0
  {
    CostBound(|Keep(domains, invalid, true)|, CeilLog2(|domains|))
  }

  lemma HalvesCost(current: seq<string>, invalid: set<string>)
    requires |current| > 1 && HasInvalid(current, invalid)
    ensures var (l, r) := (current[..|current| / 2], current[|current| / 2..]);
      1 + WorstCost(l, invalid) + WorstCost(r, invalid) <= WorstCost(current, invalid)
  {
    var (l, r) := (current[..|current| / 2], current[|current| / 2..]);
    var d :| d in current && d in invalid;
    KeepMember(current, invalid, d);
    assert l + r == current;
    KeepConcat(l, r, invalid, true);
    hide Keep, CostBound;
    CeilLog2Monotone(|l|, (|current| + 1) / 2);
    CostSplit(|Keep(l, invalid, true)|, |Keep(r, invalid, true)|, CeilLog2(|l|), CeilLog2(|r|), CeilLog2((|current| + 1) / 2));
  }

  /** Exactly the valid domains are collected and exactly the invalid ones are marked, within so many attempts. */
  ghost predicate Separates<T>(o: Outcome<T>, current: seq<string>, invalid: set<string>, most: nat) {
    && o.attempts <= most
    && Succeeded(o) == Keep(current, invalid, false)
    && Failed(o) == o.invalid == Keep(current, invalid, true)
  }

  lemma JoinSeparates<T>(left: Outcome<T>, right: Outcome<T>, l: seq<string>, r: seq<string>, invalid: set<string>, most: nat, later: nat)
    requires Separates(left, l, invalid, most) && Separates(right, r, invalid, later)
    ensures Separates(Join(left, right), l + r, invalid, later)
  {
    hide Succeeded, Failed, Keep;
    KeepConcat(l, r, invalid, true);
    KeepConcat(l, r, invalid, false);
    JoinLists(left, right);
  }

  lemma LeafSeparates<T>(fetch: Fetch<T>, limit: nat, current: seq<string>, attempts: nat, calls: nat, invalid: set<string>)
    requires AnswersAsExpected(fetch, current, calls, invalid) && |current| > 0 && attempts < limit
    requires HasInvalid(current, invalid) ==> |current| == 1
    ensures Separates(Leaf(fetch, limit, current, attempts, calls), current, invalid, attempts + 1)
  {
    LeafLists(fetch, limit, current, attempts, calls);
    if HasInvalid(current, invalid) {
      assert current[..0] == [];
      assert current == [current[0]];
    } else {
      KeepNone(current, invalid);
    }
  }

  /**
   * Main law: k invalid domains among n cost at most 1 + 2k*ceil(log2 n) attempts, and within that budget the
   * search collects exactly the valid domains and marks exactly the invalid ones.
   */
  lemma {:induction false} IsolationCost<T>(fetch: Fetch<T>, limit: nat, current: seq<string>, attempts: nat, calls: nat, invalid: set<string>)
    requires RejectsExactly(fetch, current, invalid) && |current| > 0 && attempts + WorstCost(current, invalid) <= limit
    ensures Separates(Isolate(fetch, limit, current, attempts, calls), current, invalid, attempts + WorstCost(current, invalid))
    decreases |current|
  {
    hide HasInvalid, Keep, Succeeded, Failed, Leaf, Join, WorstCost, CostBound, RejectsExactly, CeilLog2, Isolate, Separates;
    Expected(fetch, current, calls, invalid);
    if HasInvalid(current, invalid) && |current| > 1 {
      var left, right := Unfold(fetch, limit, current, attempts, calls);
      var (l, r) := (current[..|current| / 2], current[|current| / 2..]);
      hide Halves, AnswersAsExpected;
      PiecesReject(fetch, current, |current| / 2, invalid);
      HalvesCost(current, invalid);
      IsolationCost(fetch, limit, l, attempts + 1, calls + fetch(current, calls).calls, invalid);
      SeparatesWithin(left, l, invalid, attempts + 1 + WorstCost(l, invalid));
      IsolationCost(fetch, limit, r, left.attempts, left.calls, invalid);
      JoinSeparates(left, right, l, r, invalid, attempts + 1 + WorstCost(l, invalid), left.attempts + WorstCost(r, invalid));
      SeparatesWeaken(Join(left, right), current, invalid, left.attempts + WorstCost(r, invalid), attempts + WorstCost(current, invalid));
    } else {
      IsolateLeaf(fetch, limit, current, attempts, calls);
      LeafSeparates(fetch, limit, current, attempts, calls, invalid);
      SeparatesWeaken(Leaf(fetch, limit, current, attempts, calls), current, invalid, attempts + 1, attempts + WorstCost(current, invalid));
    }
  }

  lemma Expected<T>(fetch: Fetch<T>, current: seq<string>, calls: nat, invalid: set<string>)
    requires RejectsExactly(fetch, current, invalid) && |current| > 0
    ensures AnswersAsExpected(fetch, current, calls, invalid) && WorstCost(current, invalid) >= 1
  {
    hide AnswersAsExpected, Keep, CeilLog2;
    assert current[0..|current|] == current;
  }

  lemma SeparatesWithin<T>(o: Outcome<T>, current: seq<string>, invalid: set<string>, most: nat)
    requires Separates(o, current, invalid, most)
    ensures o.attempts <= most
  {
  }

  /** In a batch of at most fifty domains a single invalid one costs at most thirteen attempts. */
  lemma OneInvalidCost(current: seq<string>, invalid: set<string>)
    requires 0 < |current| <= BATCH_SIZE && |Keep(current, invalid, true)| <= 1
    ensures WorstCost(current, invalid) <= 13
  {
    hide Keep;
    CeilLog2Monotone(|current|, BATCH_SIZE);
    assert CeilLog2(4) == 2 && CeilLog2(13) == 2 + CeilLog2(4) && CeilLog2(BATCH_SIZE) == 2 + CeilLog2(13);
  }

  /** So it never exhausts the sixteen attempts: the others are collected and it alone is marked. */
  lemma SingleInvalidDomain<T>(fetch: Fetch<T>, current: seq<string>, calls: nat, invalid: set<string>)
    requires RejectsExactly(fetch, current, invalid) && 0 < |current| <= BATCH_SIZE && |Keep(current, invalid, true)| <= 1
    ensures Separates(Isolate(fetch, ATTEMPT_LIMIT, current, 0, calls), current, invalid, 13)
  {
    hide Isolate, RejectsExactly, Keep, Separates, WorstCost;
    OneInvalidCost(current, invalid);
    IsolationCost(fetch, ATTEMPT_LIMIT, current, 0, calls, invalid);
    SeparatesWeaken(Isolate(fetch, ATTEMPT_LIMIT, current, 0, calls), current, invalid, WorstCost(current, invalid), 13);
  }

  lemma SeparatesWeaken<T>(o: Outcome<T>, current: seq<string>, invalid: set<string>, most: nat, more: nat)
    requires Separates(o, current, invalid, most) && most <= more
    ensures Separates(o, current, invalid, more)
  {
    hide Succeeded, Failed, Keep;
  }

  /** A search depends on nothing but the answers it is given. */
  lemma {:induction false} SameSearch<T>(f: Fetch<T>, g: Fetch<T>, limit: nat, current: seq<string>, attempts: nat, calls: nat)
    requires forall c, n :: f(c, n) == g(c, n)
    ensures Isolate(f, limit, current, attempts, calls) == Isolate(g, limit, current, attempts, calls)
    decreases |current|
  {
    hide Isolate, Leaf;
    assert f(current, calls) == g(current, calls);
    if Halves(f, limit, current, attempts, calls) {
      var left, right := Unfold(f, limit, current, attempts, calls);
      var other, last := Unfold(g, limit, current, attempts, calls);
      SameSearch(f, g, limit, current[..|current| / 2], attempts + 1, calls + f(current, calls).calls);
      SameSearch(f, g, limit, current[|current| / 2..], left.attempts, left.calls);
    } else {
      IsolateLeaf(f, limit, current, attempts, calls);
      IsolateLeaf(g, limit, current, attempts, calls);
      SameLeaf(f, g, limit, current, attempts, calls);
    }
  }

  lemma SameLeaf<T>(f: Fetch<T>, g: Fetch<T>, limit: nat, current: seq<string>, attempts: nat, calls: nat)
    requires f(current, calls) == g(current, calls)
    ensures Leaf(f, limit, current, attempts, calls) == Leaf(g, limit, current, attempts, calls)
  {
  }

  // ---- Both sides of the budget ----

  /** Every request the search could make is answered 400032. */
  ghost predicate RejectsAll<T>(fetch: Fetch<T>, whole: seq<string>) {
    forall i: nat, j: nat, n: nat :: i < j <= |whole| ==> fetch(whole[i..j], n).result == Failure(Api(400032))
  }

  lemma HalvesRejected<T>(fetch: Fetch<T>, whole: seq<string>, m: nat)
    requires RejectsAll(fetch, whole) && m <= |whole|
    ensures RejectsAll(fetch, whole[..m]) && RejectsAll(fetch, whole[m..])
  {
    forall i: nat, j: nat, n: nat | i < j <= m
      ensures fetch(whole[..m][i..j], n).result == Failure(Api(400032))
    {
      assert whole[..m][i..j] == whole[i..j];
    }
    forall i: nat, j: nat, n: nat | i < j <= |whole| - m
      ensures fetch(whole[m..][i..j], n).result == Failure(Api(400032))
    {
      assert whole[m..][i..j] == whole[m + i..m + j];
    }
  }

  /** When everything is rejected a search of n domains makes exactly 2n - 1 attempts, or as many as are left. */
  lemma {:induction false} AllRejectedCost<T>(fetch: Fetch<T>, limit: nat, current: seq<string>, attempts: nat, calls: nat)
    requires RejectsAll(fetch, current) && |current| > 0 && attempts <= limit
    ensures var o := Isolate(fetch, limit, current, attempts, calls);
      && o.succeeded == [] && Failed(o) == current
      && o.attempts == if attempts + 2 * |current| - 1 <= limit then attempts + 2 * |current| - 1 else limit
    decreases |current|
  {
    hide Isolate, Leaf, Failed;
    WholeRejected(fetch, current, calls);
    if Halves(fetch, limit, current, attempts, calls) {
      var left, right := Unfold(fetch, limit, current, attempts, calls);
      HalvesRejected(fetch, current, |current| / 2);
      AllRejectedCost(fetch, limit, current[..|current| / 2], attempts + 1, calls + fetch(current, calls).calls);
      AllRejectedCost(fetch, limit, current[|current| / 2..], left.attempts, left.calls);
      JoinLists(left, right);
    } else {
      IsolateLeaf(fetch, limit, current, attempts, calls);
      LeafCounts(fetch, limit, current, attempts, calls);
      LeafLists(fetch, limit, current, attempts, calls);
    }
  }

  lemma WholeRejected<T>(fetch: Fetch<T>, current: seq<string>, n: nat)
    requires RejectsAll(fetch, current) && |current| > 0
    ensures fetch(current, n).result == Failure(Api(400032))
  {
    assert current[0..|current|] == current;
  }

  /** A batch gets sixteen attempts, no more and no fewer: nine invalid domains use them all, eight are told apart in fifteen. */
  lemma SixteenAttempts<T>(fetch: Fetch<T>, current: seq<string>, calls: nat)
    requires RejectsAll(fetch, current) && |current| > 0
    ensures var attempts := Isolate(fetch, ATTEMPT_LIMIT, current, 0, calls).attempts;
      (|current| >= 9 ==> attempts == 16) && (|current| <= 8 ==> attempts == 2 * |current| - 1)
  {
    AllRejectedCost(fetch, ATTEMPT_LIMIT, current, 0, calls);
  }

  /** Any other error ends the search after one attempt, and every domain fails with it. */
  lemma OtherErrorsEnd<T>(fetch: Fetch<T>, limit: nat, current: seq<string>, attempts: nat, calls: nat)
    requires attempts < limit && fetch(current, calls).result.Failure? && fetch(current, calls).result.error != Api(400032)
    ensures var o := Isolate(fetch, limit, current, attempts, calls);
      && o.attempts == attempts + 1 && o.succeeded == [] && o.invalid == [] && Failed(o) == current
      && forall i :: 0 <= i < |o.failed| ==> o.failed[i].1 == fetch(current, calls).result.error
  {
    LeafLists(fetch, limit, current, attempts, calls);
  }

  /** Two invalid domains among eight, three among four, or one among fifty are always told apart. */
  lemma StillSeparated<T>(fetch: Fetch<T>, current: seq<string>, calls: nat, invalid: set<string>)
    requires RejectsExactly(fetch, current, invalid) && |current| > 0
    requires var k := |Keep(current, invalid, true)|;
      (k <= 1 && |current| <= 50) || (k <= 2 && |current| <= 8) || (k <= 3 && |current| <= 4)
    ensures Separates(Isolate(fetch, ATTEMPT_LIMIT, current, 0, calls), current, invalid, 16)
  {
    hide Isolate, RejectsExactly, Keep, Separates, CeilLog2;
    FewInvalidCost(|Keep(current, invalid, true)|, |current|);
    IsolationCost(fetch, ATTEMPT_LIMIT, current, 0, calls, invalid);
    SeparatesWeaken(Isolate(fetch, ATTEMPT_LIMIT, current, 0, calls), current, invalid, WorstCost(current, invalid), 16);
  }

  lemma FewInvalidCost(k: nat, n: nat)
    requires 0 < n && ((k <= 1 && n <= 50) || (k <= 2 && n <= 8) || (k <= 3 && n <= 4))
    ensures CostBound(k, CeilLog2(n)) <= 16
  {
    CeilLog2Monotone(n, if k <= 1 then 50 else if k <= 2 then 8 else 4);
    assert CeilLog2(4) == 2 && CeilLog2(8) == 1 + CeilLog2(4);
    assert CeilLog2(13) == 2 + CeilLog2(4) && CeilLog2(50) == 2 + CeilLog2(13);
    SmallProduct(k, CeilLog2(n));
  }

  lemma SmallProduct(k: nat, levels: nat)
    requires (k <= 1 && levels <= 6) || (k <= 2 && levels <= 3) || (k <= 3 && levels <= 2)
    ensures 1 + 2 * (k * levels) <= 16
  {
    assert k == 0 || k == 1 || k == 2 || k == 3;
  }
}
