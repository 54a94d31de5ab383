/** Paginated bucket discovery (internal/qiniu/kodo/discovery.go). */
module Buckets {
  import opened Core

  const PAGE_SIZE: nat := 100
  const MAX_BUCKETS: nat := 200

  datatype Entry = Entry(name: string, region: string, private: Option<bool>)
  datatype Page = Page(truncated: Option<bool>, entries: Option<seq<Entry>>, next: string)
  datatype Bucket = Bucket(name: string, region: string, private: bool)

  /** The answer to the n-th request, which carries a marker; none when the request fails. */
  type Upstream = (string, nat) -> Option<Page>

  /** The identifier and marker checks, whatever they accept. */
  datatype Checks = Checks(identifier: string -> bool, marker: string -> bool)

  // ---- The pages a listing walks ----

  function MarkerAt(up: Upstream, n: nat): string {
    if n == 0 then ""
    else
      var page := up(MarkerAt(up, n - 1), n - 1);
      if page.Some? then page.value.next else ""
  }

  /** The continuation markers of the first n pages. */
  function Used(up: Upstream, n: nat): set<string> { set i | 1 <= i <= n :: MarkerAt(up, i) }

  function PageAt(up: Upstream, n: nat): Option<Page> { up(MarkerAt(up, n), n) }

  function EntriesAt(up: Upstream, n: nat): seq<Entry> {
    if PageAt(up, n).Some? && PageAt(up, n).value.entries.Some? then PageAt(up, n).value.entries.value else []
  }

  /** Everything on the first n pages. */
  function Collected(up: Upstream, n: nat): seq<Entry> {
    if n == 0 then [] else Collected(up, n - 1) + EntriesAt(up, n - 1)
  }

  predicate EntryOk(checks: Checks, e: Entry) { checks.identifier(e.name) && checks.identifier(e.region) && e.private.Some? }

  ghost predicate DistinctNames(entries: seq<Entry>) {
    forall i, j :: 0 <= i < j < |entries| ==> entries[i].name != entries[j].name
  }

  ghost predicate AllOk(checks: Checks, entries: seq<Entry>) {
    forall i :: 0 <= i < |entries| ==> EntryOk(checks, entries[i])
  }

  ghost predicate PageOk(up: Upstream, checks: Checks, n: nat) {
    && PageAt(up, n).Some? && PageAt(up, n).value.truncated.Some? && PageAt(up, n).value.entries.Some?
    && |EntriesAt(up, n)| <= PAGE_SIZE && |Collected(up, n + 1)| <= MAX_BUCKETS
    && AllOk(checks, EntriesAt(up, n)) && DistinctNames(Collected(up, n + 1))
  }

  predicate Truncated(up: Upstream, n: nat) { PageAt(up, n).Some? && PageAt(up, n).value.truncated == Some(true) }

  /** A further page may be asked for: this one brought something new, and its marker was never used. */
  ghost predicate Continues(up: Upstream, checks: Checks, n: nat) {
    && Truncated(up, n) && |EntriesAt(up, n)| > 0 && checks.marker(MarkerAt(up, n + 1))
    && MarkerAt(up, n + 1) != MarkerAt(up, n) && MarkerAt(up, n + 1) !in Used(up, n)
    && |Collected(up, n + 1)| < MAX_BUCKETS
  }

  /** The first n pages are a complete, well-formed listing. */
  ghost predicate IsListing(up: Upstream, checks: Checks, n: nat) {
    && n > 0 && !Truncated(up, n - 1)
    && (forall i :: 0 <= i < n ==> PageOk(up, checks, i))
    && forall i :: 0 <= i < n - 1 ==> Continues(up, checks, i)
  }

  // ---- Sorting ----

  predicate Below(a: string, b: string) {
    |a| == 0 || (|b| > 0 && (a[0] < b[0] || (a[0] == b[0] && Below(a[1..], b[1..]))))
  }

  predicate BucketBelow(a: Bucket, b: Bucket) {
    if a.name == b.name then Below(a.region, b.region) else Below(a.name, b.name)
  }

  ghost predicate Sorted(buckets: seq<Bucket>) {
    forall i, j :: 0 <= i < j < |buckets| ==> BucketBelow(buckets[i], buckets[j])
  }

  lemma {:induction false} BelowTotal(a: string, b: string)
    ensures Below(a, b) || Below(b, a)
    ensures Below(a, b) && Below(b, a) ==> a == b
    decreases |a|
  {
    if |a| > 0 && |b| > 0 && a[0] == b[0] {
      BelowTotal(a[1..], b[1..]);
      assert a == [a[0]] + a[1..] && b == [b[0]] + b[1..];
    }
  }

  lemma {:induction false} BelowTransitive(a: string, b: string, c: string)
    requires Below(a, b) && Below(b, c)
    ensures Below(a, c)
    decreases |a|
  {
    if |a| > 0 && a[0] == b[0] == c[0] {
      BelowTransitive(a[1..], b[1..], c[1..]);
    }
  }

  /** The order is that of the first differing character, a prefix coming first. */
  lemma {:induction false} BelowMeans(a: string, b: string)
    ensures Below(a, b) <==> a <= b || exists k: nat :: k < |a| && k < |b| && a[..k] == b[..k] && a[k] < b[k]
    decreases |a|
  {
    if |a| > 0 && |b| > 0 {
      var x, y := a[1..], b[1..];
      BelowMeans(x, y);
      assert a == [a[0]] + x && b == [b[0]] + y;
      if a[0] == b[0] {
        if k: nat :| k < |x| && k < |y| && x[..k] == y[..k] && x[k] < y[k] {
          assert a[..k + 1] == [a[0]] + x[..k] && b[..k + 1] == [b[0]] + y[..k];
        }
        if k: nat :| k < |a| && k < |b| && a[..k] == b[..k] && a[k] < b[k] {
          assert x[..k - 1] == a[..k][1..] && y[..k - 1] == b[..k][1..];
        }
      } else {
        forall k: nat | 0 < k <= |a| && k <= |b|
          ensures a[..k] != b[..k]
        {
          FirstDiffers(a, b, k);
        }
        assert a[..0] == b[..0];
      }
    }
  }

  lemma FirstDiffers(a: string, b: string, k: nat)
    requires 0 < k <= |a| && k <= |b| && a[0] != b[0]
    ensures a[..k] != b[..k]
  {
    assert a[..k][0] == a[0] && b[..k][0] == b[0];
  }

  lemma BucketBelowTotal(a: Bucket, b: Bucket)
    ensures BucketBelow(a, b) || BucketBelow(b, a)
  {
    BelowTotal(a.name, b.name);
    BelowTotal(a.region, b.region);
  }

  lemma BucketBelowTransitive(a: Bucket, b: Bucket, c: Bucket)
    requires BucketBelow(a, b) && BucketBelow(b, c)
    ensures BucketBelow(a, c)
  {
    BelowTotal(a.name, b.name);
    if a.name == b.name == c.name {
      BelowTransitive(a.region, b.region, c.region);
    } else {
      BelowTransitiveOrEqual(a.name, b.name, c.name);
      BelowTotal(b.name, c.name);
    }
  }

  lemma BelowTransitiveOrEqual(a: string, b: string, c: string)
    requires (a == b || Below(a, b)) && (b == c || Below(b, c))
    ensures a == c || Below(a, c)
  {
    if a != b && b != c {
      BelowTransitive(a, b, c);
    }
  }

  function Insert(sorted: seq<Bucket>, b: Bucket): (r: seq<Bucket>)
    ensures |r| == |sorted| + 1
  {
    if |sorted| == 0 then [b]
    else if BucketBelow(b, sorted[0]) then [b] + sorted
    else [sorted[0]] + Insert(sorted[1..], b)
  }

  lemma {:induction false} InsertKeepsOrder(sorted: seq<Bucket>, b: Bucket)
    requires Sorted(sorted)
    ensures Sorted(Insert(sorted, b)) && multiset(Insert(sorted, b)) == multiset(sorted) + multiset{b}
    decreases |sorted|
  {
    hide BucketBelow;
    if |sorted| > 0 {
      BucketBelowTotal(b, sorted[0]);
      if BucketBelow(b, sorted[0]) {
        forall j | 0 <= j < |sorted| ensures BucketBelow(b, sorted[j]) {
          if j > 0 { BucketBelowTransitive(b, sorted[0], sorted[j]); }
        }
      } else {
        var rest := Insert(sorted[1..], b);
        assert sorted == [sorted[0]] + sorted[1..];
        InsertKeepsOrder(sorted[1..], b);
        forall j | 0 <= j < |rest| ensures BucketBelow(sorted[0], rest[j]) {
          assert rest[j] in multiset(rest);
          if rest[j] != b {
            assert rest[j] in sorted[1..];
          }
        }
      }
    }
  }

  method SortBuckets(buckets: seq<Bucket>) returns (sorted: seq<Bucket>)
    ensures Sorted(sorted) && multiset(sorted) == multiset(buckets)
  {
    sorted := [];
    for i := 0 to |buckets|
      invariant Sorted(sorted) && multiset(sorted) == multiset(buckets[..i])
    {
      InsertKeepsOrder(sorted, buckets[i]);
      assert buckets[..i + 1] == buckets[..i] + [buckets[i]];
      sorted := Insert(sorted, buckets[i]);
    }
    assert buckets[..|buckets|] == buckets;
  }

  // ---- The loop over pages ----

  function BucketOf(e: Entry): Bucket { Bucket(e.name, e.region, e.private == Some(true)) }

  function BucketsOf(entries: seq<Entry>): (buckets: seq<Bucket>)
    ensures |buckets| == |entries|
  {
    seq(|entries|, i requires 0 <= i < |entries| => BucketOf(entries[i]))
  }

  datatype Error = RequestFailed | UnexpectedResponse

  /** Accepts one page's entries unless one is malformed or repeats a name. */
  method AcceptPage(checks: Checks, known: seq<Entry>, entries: seq<Entry>, seen: set<string>) returns (ok: bool, names: set<string>)
    requires DistinctNames(known) && forall n :: n in seen <==> exists i :: 0 <= i < |known| && known[i].name == n
    ensures ok <==> AllOk(checks, entries) && DistinctNames(known + entries)
    ensures ok ==> forall n :: n in names <==> exists i :: 0 <= i < |known + entries| && (known + entries)[i].name == n
  {
    names := seen;
    assert known + entries[..0] == known;
    for k := 0 to |entries|
      invariant AllOk(checks, entries[..k]) && DistinctNames(known + entries[..k])
      invariant forall n :: n in names <==> exists i :: 0 <= i < |known + entries[..k]| && (known + entries[..k])[i].name == n
    {
      var e, before := entries[k], known + entries[..k];
      assert known + entries[..k + 1] == before + [e];
      if !checks.identifier(e.name) || !checks.identifier(e.region) || e.private.None? {
        return false, names;
      }
      if e.name in names {
        var i :| 0 <= i < |before| && before[i].name == e.name;
        RepeatedName(known + entries, i, |known| + k);
        return false, names;
      }
      NamesStep(before, e, names);
      names := names + {e.name};
    }
    assert entries[..|entries|] == entries;
    return true, names;
  }

  lemma RepeatedName(entries: seq<Entry>, i: nat, j: nat)
    requires i < j < |entries| && entries[i].name == entries[j].name
    ensures !DistinctNames(entries)
  {
  }

  lemma NamesStep(before: seq<Entry>, e: Entry, names: set<string>)
    requires forall n :: n in names <==> exists i :: 0 <= i < |before| && before[i].name == n
    ensures forall n :: n in names + {e.name} <==> exists i :: 0 <= i < |before + [e]| && (before + [e])[i].name == n
    ensures e.name !in names && DistinctNames(before) ==> DistinctNames(before + [e])
  {
    var after := before + [e];
    assert after[|before|].name == e.name;
    forall n | n in names
      ensures exists i :: 0 <= i < |after| && after[i].name == n
    {
      var i :| 0 <= i < |before| && before[i].name == n;
      assert after[i].name == n;
    }
  }

  /** A page that is refused, or truncated without allowing a next one, rules out every listing. */
  lemma NoListing(up: Upstream, checks: Checks, k: nat, n: nat)
    requires forall i :: 0 <= i < k ==> Continues(up, checks, i)
    requires !PageOk(up, checks, k) || (Truncated(up, k) && !Continues(up, checks, k))
    ensures !IsListing(up, checks, n)
  {
    hide PageOk;
    if 0 < n <= k {
      assert Continues(up, checks, n - 1);
    }
  }

  /** The state between two pages. */
  ghost predicate Between(up: Upstream, checks: Checks, k: nat) {
    && (forall i :: 0 <= i < k ==> PageOk(up, checks, i) && Continues(up, checks, i))
    && k <= |Collected(up, k)| && |Collected(up, k)| < MAX_BUCKETS && DistinctNames(Collected(up, k))
  }

  predicate Shows(b: Bucket, e: Entry) { b.name == e.name && b.region == e.region && e.private.Some? && e.private.value == b.private }

  /** The inventory has one bucket for each entry, with its name, region and visibility, in ascending order of names. */
  ghost predicate IsInventory(buckets: seq<Bucket>, entries: seq<Entry>) {
    && |buckets| == |entries|
    && (forall e :: e in entries ==> IsShown(buckets, e))
    && (forall b :: b in buckets ==> IsListed(entries, b))
    && forall i, j :: 0 <= i < j < |buckets| ==> NamedBefore(buckets[i], buckets[j])
  }

  ghost predicate IsShown(buckets: seq<Bucket>, e: Entry) { exists b :: b in buckets && Shows(b, e) }

  ghost predicate IsListed(entries: seq<Entry>, b: Bucket) { exists e :: e in entries && Shows(b, e) }

  predicate NamedBefore(a: Bucket, b: Bucket) { a.name != b.name && Below(a.name, b.name) }

  lemma {:induction false} ListingEntries(up: Upstream, checks: Checks, n: nat)
    requires forall i :: 0 <= i < n ==> PageOk(up, checks, i)
    ensures AllOk(checks, Collected(up, n)) && DistinctNames(Collected(up, n))
  {
    if n > 0 {
      assert PageOk(up, checks, n - 1);
      hide PageAt, EntriesAt, EntryOk;
      ListingEntries(up, checks, n - 1);
    }
  }

  lemma SortedIsInventory(checks: Checks, buckets: seq<Bucket>, entries: seq<Entry>)
    requires AllOk(checks, entries) && DistinctNames(entries) && Sorted(buckets) && multiset(buckets) == multiset(BucketsOf(entries))
    ensures IsInventory(buckets, entries)
  {
    SameSize(buckets, BucketsOf(entries));
    hide BucketBelow, Below;
    forall e | e in entries
      ensures IsShown(buckets, e)
    {
      EntryIsShown(checks, buckets, entries, e);
      assert BucketOf(e) in buckets && Shows(BucketOf(e), e);
    }
    forall b | b in buckets
      ensures IsListed(entries, b)
    {
      var e := BucketShows(checks, buckets, entries, b);
    }
    forall i, j | 0 <= i < j < |buckets|
      ensures NamedBefore(buckets[i], buckets[j])
    {
      DistinctBuckets(buckets, entries, i, j);
      assert BucketBelow(buckets[i], buckets[j]);
      NamesBelow(buckets[i], buckets[j]);
    }
  }

  lemma NamesBelow(a: Bucket, b: Bucket)
    requires BucketBelow(a, b) && a.name != b.name
    ensures Below(a.name, b.name)
  {
  }

  lemma EntryIsShown(checks: Checks, buckets: seq<Bucket>, entries: seq<Entry>, e: Entry)
    requires AllOk(checks, entries) && multiset(buckets) == multiset(BucketsOf(entries)) && e in entries
    ensures BucketOf(e) in buckets && Shows(BucketOf(e), e)
  {
    var i :| 0 <= i < |entries| && entries[i] == e;
    assert BucketsOf(entries)[i] in multiset(buckets) && EntryOk(checks, entries[i]);
  }

  lemma BucketShows(checks: Checks, buckets: seq<Bucket>, entries: seq<Entry>, b: Bucket) returns (e: Entry)
    requires AllOk(checks, entries) && multiset(buckets) == multiset(BucketsOf(entries)) && b in buckets
    ensures e in entries && Shows(b, e)
  {
    assert b in multiset(BucketsOf(entries));
    var i :| 0 <= i < |entries| && BucketsOf(entries)[i] == b;
    e := entries[i];
    assert EntryOk(checks, entries[i]);
  }

  lemma SameSize(a: seq<Bucket>, b: seq<Bucket>)
    requires multiset(a) == multiset(b)
    ensures |a| == |b|
  {
    assert |multiset(a)| == |a| && |multiset(b)| == |b|;
  }

  /** Distinct entries give buckets whose names are distinct in any order. */
  lemma DistinctBuckets(buckets: seq<Bucket>, entries: seq<Entry>, i: nat, j: nat)
    requires DistinctNames(entries) && multiset(buckets) == multiset(BucketsOf(entries)) && i < j < |buckets|
    ensures buckets[i].name != buckets[j].name
  {
    var all := BucketsOf(entries);
    assert buckets[i] in multiset(all) && buckets[j] in multiset(all);
    var k :| 0 <= k < |all| && all[k] == buckets[i];
    var l :| 0 <= l < |all| && all[l] == buckets[j];
    if buckets[i] == buckets[j] {
      Twice(buckets, i, j);
      OnceOnly(entries, k);
    }
  }

  lemma Twice(buckets: seq<Bucket>, i: nat, j: nat)
    requires i < j < |buckets| && buckets[i] == buckets[j]
    ensures multiset(buckets)[buckets[i]] >= 2
  {
    assert buckets == buckets[..j] + [buckets[j]] + buckets[j + 1..];
    assert buckets[i] in buckets[..j];
  }

  lemma OnceOnly(entries: seq<Entry>, k: nat)
    requires DistinctNames(entries) && k < |entries|
    ensures multiset(BucketsOf(entries))[BucketOf(entries[k])] == 1
  {
    var all, b := BucketsOf(entries), BucketOf(entries[k]);
    assert all == all[..k] + [b] + all[k + 1..];
    assert forall i :: 0 <= i < |all| && i != k ==> all[i].name != b.name;
    assert b !in all[..k] && b !in all[k + 1..];
  }

  /**
   * For every upstream the loop ends after at most two hundred requests. It succeeds exactly when some number of pages
   * is a well-formed listing, and then returns a sorted permutation of everything on them; otherwise nothing.
   */
  method ListBuckets(up: Upstream, checks: Checks) returns (r: Result<seq<Bucket>, Error>, requests: nat)
    ensures requests <= MAX_BUCKETS
    ensures r.Success? ==>
              && IsListing(up, checks, requests) && Sorted(r.value)
              && multiset(r.value) == multiset(BucketsOf(Collected(up, requests)))
              && IsInventory(r.value, Collected(up, requests))
    ensures r.Failure? ==> forall n :: !IsListing(up, checks, n)
  {
    hide PageOk, DistinctNames, Collected, Sorted, Used, IsInventory, AllOk;
    var buckets: seq<Entry>, seen: set<string>, seenMarkers: set<string>, marker := [], {}, {}, "";
    requests := 0;
    Start(up, checks);
    while true
      invariant Between(up, checks, requests) && buckets == Collected(up, requests) && marker == MarkerAt(up, requests)
      invariant forall n :: n in seen <==> exists i :: 0 <= i < |buckets| && buckets[i].name == n
      invariant seenMarkers == Used(up, requests)
      decreases MAX_BUCKETS - |buckets|
    {
      PageCases(up, checks, requests);
      ghost var k := requests;
      var answer := up(marker, requests);
      requests := requests + 1;
      if answer.None? {
        Refused(up, checks, k);
        return Failure(RequestFailed), requests;
      }
      var page := answer.value;
      if page.truncated.None? || page.entries.None? || |page.entries.value| > PAGE_SIZE
         || |buckets| + |page.entries.value| > MAX_BUCKETS {
        Refused(up, checks, k);
        return Failure(UnexpectedResponse), requests;
      }
      var ok, names := AcceptPage(checks, buckets, page.entries.value, seen);
      if !ok {
        Refused(up, checks, k);
        return Failure(UnexpectedResponse), requests;
      }
      buckets, seen := buckets + page.entries.value, names;
      if !page.truncated.value {
        var sorted := SortBuckets(BucketsOf(buckets));
        ListingEntries(up, checks, requests);
        SortedIsInventory(checks, sorted, buckets);
        return Success(sorted), requests;
      }
      if |page.entries.value| == 0 || !checks.marker(page.next) || page.next == marker || page.next in seenMarkers
         || |buckets| == MAX_BUCKETS {
        Refused(up, checks, k);
        return Failure(UnexpectedResponse), requests;
      }
      marker := page.next;
      Accepted(up, checks, k);
      MarkersStep(up, k, seenMarkers);
      seenMarkers := seenMarkers + {marker};
    }
  }

  lemma Start(up: Upstream, checks: Checks)
    ensures Used(up, 0) == {}
    ensures Between(up, checks, 0) && Collected(up, 0) == []
  {
  }

  lemma MarkersStep(up: Upstream, k: nat, seen: set<string>)
    requires seen == Used(up, k)
    ensures seen + {MarkerAt(up, k + 1)} == Used(up, k + 1)
  {
    hide MarkerAt;
  }

  /** The source's tests on page k, one by one. */
  lemma PageCases(up: Upstream, checks: Checks, k: nat)
    requires Between(up, checks, k)
    ensures var answer := up(MarkerAt(up, k), k);
      && PageAt(up, k) == answer
      && (answer.Some? ==> MarkerAt(up, k + 1) == answer.value.next)
      && (answer.Some? && answer.value.entries.Some? ==>
            EntriesAt(up, k) == answer.value.entries.value && Collected(up, k + 1) == Collected(up, k) + answer.value.entries.value)
      && DistinctNames(Collected(up, k))
      && (PageOk(up, checks, k) <==>
            && answer.Some? && answer.value.truncated.Some? && answer.value.entries.Some?
            && |EntriesAt(up, k)| <= PAGE_SIZE && |Collected(up, k + 1)| <= MAX_BUCKETS
            && AllOk(checks, EntriesAt(up, k)) && DistinctNames(Collected(up, k + 1)))
  {
    hide DistinctNames, AllOk;
  }

  lemma Refused(up: Upstream, checks: Checks, k: nat)
    requires Between(up, checks, k)
    requires !PageOk(up, checks, k) || (Truncated(up, k) && !Continues(up, checks, k))
    ensures forall n :: !IsListing(up, checks, n)
  {
    hide PageOk, Continues, IsListing;
    forall n: nat ensures !IsListing(up, checks, n) { NoListing(up, checks, k, n); }
  }

  lemma Accepted(up: Upstream, checks: Checks, k: nat)
    requires Between(up, checks, k) && PageOk(up, checks, k) && Continues(up, checks, k)
    ensures Between(up, checks, k + 1) && |Collected(up, k + 1)| > |Collected(up, k)|
  {
    hide AllOk, DistinctNames;
  }

  /** A complete listing is unique, so the buckets returned are determined by the upstream. */
  lemma ListingIsUnique(up: Upstream, checks: Checks, a: nat, b: nat)
    requires IsListing(up, checks, a) && IsListing(up, checks, b)
    ensures a == b
  {
    hide PageOk;
    if a < b {
      TruncatedBefore(up, checks, b, a - 1);
    } else if b < a {
      TruncatedBefore(up, checks, a, b - 1);
    }
  }

  lemma TruncatedBefore(up: Upstream, checks: Checks, n: nat, k: nat)
    requires IsListing(up, checks, n) && k < n - 1
    ensures Truncated(up, k)
  {
    hide PageOk;
    assert Continues(up, checks, k);
  }

  /** Up to a hundred well-formed buckets on a single page are a complete listing. */
  lemma OnePage(up: Upstream, checks: Checks, page: Page)
    requires up("", 0) == Some(page) && page.truncated == Some(false) && page.entries.Some?
    requires |page.entries.value| <= 100 && AllOk(checks, page.entries.value) && DistinctNames(page.entries.value)
    ensures IsListing(up, checks, 1) && Collected(up, 1) == page.entries.value
  {
    assert MarkerAt(up, 0) == "";
    assert Collected(up, 0) == [];
  }

  /** So are up to two hundred on two pages. */
  lemma TwoPages(up: Upstream, checks: Checks, one: Page, two: Page)
    requires up("", 0) == Some(one) && one.truncated == Some(true) && one.entries.Some? && 0 < |one.entries.value| <= 100
    requires checks.marker(one.next) && one.next != ""
    requires up(one.next, 1) == Some(two) && two.truncated == Some(false) && two.entries.Some? && |two.entries.value| <= 100
    requires AllOk(checks, one.entries.value + two.entries.value) && DistinctNames(one.entries.value + two.entries.value)
    ensures IsListing(up, checks, 2) && Collected(up, 2) == one.entries.value + two.entries.value
  {
    hide AllOk, DistinctNames;
    var first, both := one.entries.value, one.entries.value + two.entries.value;
    assert MarkerAt(up, 0) == "" && MarkerAt(up, 1) == one.next;
    assert Collected(up, 0) == [] && Collected(up, 1) == first && Collected(up, 2) == both;
    PartsOk(checks, first, two.entries.value);
    assert Used(up, 0) == {};
    hide Used, Collected, MarkerAt;
    assert PageOk(up, checks, 0) && PageOk(up, checks, 1);
    assert Continues(up, checks, 0);
  }

  lemma PartsOk(checks: Checks, first: seq<Entry>, second: seq<Entry>)
    requires AllOk(checks, first + second) && DistinctNames(first + second)
    ensures AllOk(checks, first) && AllOk(checks, second) && DistinctNames(first)
  {
    var both := first + second;
    assert forall i :: 0 <= i < |first| ==> first[i] == both[i];
    assert forall i :: 0 <= i < |second| ==> second[i] == both[|first| + i];
  }
}
