/** What the usage table and its aggregates say about the responses themselves, value by value (internal/qiniu/cdn/usage.go). */
module UsageReports {
  import opened Core
  import opened Clock
  import opened UsagePoints
  import opened Usage
  import opened UsageTable

  /** The two series of a domain; both are empty for a domain the response omits. */
  function China(r: Response, d: string): seq<real> { if d in r.data then r.data[d].china else [] }
  function Oversea(r: Response, d: string): seq<real> { if d in r.data then r.data[d].oversea else [] }

  /** An empty series stands for zeros. */
  function ValueOr0(values: seq<real>, k: nat): real { if k < |values| then values[k] else 0.0 }

  /** Both regions at the response's k-th point. */
  function Both(r: Response, d: string, k: nat): real { ValueOr0(China(r, d), k) + ValueOr0(Oversea(r, d), k) }

  predicate InPeriod(r: Response, k: nat, start: int, end: int) { k < |r.times| && start <= r.times[k] < end }

  /** The values of a series at those of its instants that lie in a period, in order. */
  function Reported(values: seq<real>, times: seq<int>, start: int, end: int): seq<real> {
    if |times| == 0 then []
    else
      var k := |times| - 1;
      var earlier := Reported(values, times[..k], start, end);
      if start <= times[k] < end then earlier + [ValueOr0(values, k)] else earlier
  }

  // ---- Every cell of the table ----

  /** A cell carries the values its response has for that instant. */
  predicate Carries(c: Cell, r: Response, d: string, k: nat) {
    c.domain == d && c.china == ValueOr0(China(r, d), k) && c.oversea == ValueOr0(Oversea(r, d), k)
  }

  lemma CellCarries(batches: seq<Batch>, g: Granularity, start: int, end: int, b: nat, j: nat, p: nat) returns (k: nat)
    requires ValidBatches(batches, g, start, end) && b < |batches| && j < |batches[b].domains| && p < |GridPoints(g, start, end)|
    ensures k < |batches[b].response.times| && batches[b].response.times[k] == GridPoints(g, start, end)[p]
    ensures k == IndexIn(batches[b].response.times, g, GridPoints(g, start, end)[p])
    ensures Position(batches, b, j) < |Rows(batches, g, start, end)[p]|
    ensures Carries(Rows(batches, g, start, end)[p][Position(batches, b, j)], batches[b].response, batches[b].domains[j], k)
  {
    hide Aligned, Covers, GridPoints, IndexIn, Row, NoDuplicates;
    PointOfPeriod(batches[b], g, start, end, p);
    k := IndexIn(batches[b].response.times, g, GridPoints(g, start, end)[p]);
    CellPosition(batches, g, GridPoints(g, start, end)[p], b, j);
  }

  /** A batch's first index of the period. */
  function FirstIndex(b: Batch, g: Granularity, start: int): int {
    if |b.response.times| == 0 then 0 else IndexIn(b.response.times, g, start)
  }

  lemma StartIndex(b: Batch, g: Granularity, start: int, end: int)
    requires ValidPeriod(g, start, end) && ValidBatch(b, g, start, end)
    ensures var times, a, n := b.response.times, FirstIndex(b, g, start), |GridPoints(g, start, end)|;
      && IsGrid(times, g) && 0 <= a < a + n <= |times| && start == times[0] + a * Step(g) && end == start + n * Step(g)
  {
    hide Aligned, ValidDomains, NoDuplicates;
    var times, points := b.response.times, GridPoints(g, start, end);
    AlignedDifference(g, start, end);
    var n := |points|;
    StartIsAPoint(times, g, start, end);
    GridPoint(times, g, FirstIndex(b, g, start));
    Between(times[0], Step(g), FirstIndex(b, g, start), |times|, n);
    Room(times[0], Step(g), FirstIndex(b, g, start), n, |times|);
  }

  lemma Room(t0: int, step: int, a: int, n: int, len: int)
    requires step > 0 && t0 + a * step + n * step <= t0 + len * step
    ensures a + n <= len
  {
    Distribute(a, n, step);
    if len < a + n { MulMonotone(len + 1, a + n, step); Distribute(len, 1, step); }
  }

  /** The response's instants inside the period are those from that index on, one for each bucket. */
  lemma PeriodIndex(b: Batch, g: Granularity, start: int, end: int, k: nat)
    requires ValidPeriod(g, start, end) && ValidBatch(b, g, start, end)
    ensures var a, n := FirstIndex(b, g, start), |GridPoints(g, start, end)|;
      && (InPeriod(b.response, k, start, end) <==> a <= k < a + n)
      && (a <= k < a + n ==> b.response.times[k] == GridPoints(g, start, end)[k - a])
  {
    hide Aligned, ValidDomains, NoDuplicates, Covers, IsGrid, FirstIndex;
    var times, a, n := b.response.times, FirstIndex(b, g, start), |GridPoints(g, start, end)|;
    StartIndex(b, g, start, end);
    if k < |times| {
      GridPoint(times, g, k);
      hide Step;
      PointInPeriod(times[0], Step(g), a, n, k, times[k], start, end);
    }
  }

  lemma PointInPeriod(t0: int, step: int, a: int, n: int, k: int, t: int, start: int, end: int)
    requires step > 0 && t == t0 + k * step && start == t0 + a * step && end == start + n * step
    ensures start <= t < end <==> a <= k < a + n
    ensures t == start + (k - a) * step
  {
    Between(t0, step, a, k, n);
    Distribute(a, k - a, step);
  }

  lemma BucketIndex(b: Batch, g: Granularity, start: int, end: int, p: nat)
    requires ValidPeriod(g, start, end) && ValidBatch(b, g, start, end) && p < |GridPoints(g, start, end)|
    ensures IndexIn(b.response.times, g, GridPoints(g, start, end)[p]) == FirstIndex(b, g, start) + p
  {
    hide Aligned, ValidDomains, NoDuplicates, Covers, IsGrid, FirstIndex;
    StartIndex(b, g, start, end);
    SameIndex(b.response.times[0], Step(g), FirstIndex(b, g, start), p);
  }

  lemma Between(t0: int, step: int, a: int, k: int, n: int)
    requires step > 0
    ensures t0 + a * step <= t0 + k * step < t0 + a * step + n * step <==> a <= k < a + n
  {
    Distribute(a, n, step);
    if a <= k { MulMonotone(a, k, step); } else { MulMonotone(k + 1, a, step); Distribute(k, 1, step); }
    if k < a + n { MulMonotone(k + 1, a + n, step); Distribute(k, 1, step); } else { MulMonotone(a + n, k, step); }
  }

  lemma SameIndex(t0: int, step: int, a: int, p: int)
    requires step > 0
    ensures (t0 + a * step + p * step - t0) / step == a + p
  {
    Distribute(a, p, step);
    QuotientIs(a * step + p * step, step, a + p);
  }

  // ---- Columns are series ----

  /** The part of a series from index a on, at most n values, that lies below index m. */
  function Part(values: seq<real>, a: nat, n: nat, m: nat): seq<real> {
    seq(if m <= a then 0 else if m < a + n then m - a else n, p requires p >= 0 => ValueOr0(values, a + p))
  }

  lemma {:induction false} ReportedPart(values: seq<real>, times: seq<int>, start: int, end: int, a: nat, n: nat, m: nat)
    requires m <= |times| && forall k: nat :: k < |times| ==> (start <= times[k] < end <==> a <= k < a + n)
    ensures Reported(values, times[..m], start, end) == Part(values, a, n, m)
    decreases m
  {
    if m > 0 {
      assert times[..m][..m - 1] == times[..m - 1];
      ReportedPart(values, times, start, end, a, n, m - 1);
      assert Part(values, a, n, m) == Part(values, a, n, m - 1) + if a <= m - 1 < a + n then [ValueOr0(values, m - 1)] else [];
    }
  }

  lemma ReportedIs(values: seq<real>, b: Batch, g: Granularity, start: int, end: int)
    requires ValidPeriod(g, start, end) && ValidBatch(b, g, start, end)
    ensures var a, n := FirstIndex(b, g, start), |GridPoints(g, start, end)|;
      0 <= a && Reported(values, b.response.times, start, end) == seq(n, p requires 0 <= p < n => ValueOr0(values, a + p))
  {
    hide Aligned, ValidDomains, NoDuplicates, Covers, IsGrid, FirstIndex, GridPoints;
    var times, a, n := b.response.times, FirstIndex(b, g, start), |GridPoints(g, start, end)|;
    StartIndex(b, g, start, end);
    forall k: nat | k < |times|
      ensures start <= times[k] < end <==> a <= k < a + n
    {
      PeriodIndex(b, g, start, end, k);
    }
    assert times[..|times|] == times;
    ReportedPart(values, times, start, end, a, n, |times|);
  }

  /** A column of the table is the series as reported for the period, region by region. */
  lemma ColumnsAreReported(batches: seq<Batch>, g: Granularity, start: int, end: int, b: nat, j: nat)
    requires ValidBatches(batches, g, start, end) && b < |batches| && j < |batches[b].domains|
    ensures var rows, i, r, d := Rows(batches, g, start, end), Position(batches, b, j), batches[b].response, batches[b].domains[j];
      && ChinaColumn(rows, i) == Reported(China(r, d), r.times, start, end)
      && OverseaColumn(rows, i) == Reported(Oversea(r, d), r.times, start, end)
  {
    hide Aligned, Covers, GridPoints, IndexIn, Row, NoDuplicates, FirstIndex, China, Oversea, ValueOr0;
    var rows, i, r, d := Rows(batches, g, start, end), Position(batches, b, j), batches[b].response, batches[b].domains[j];
    assert ValidBatch(batches[b], g, start, end);
    ReportedIs(China(r, d), batches[b], g, start, end);
    ReportedIs(Oversea(r, d), batches[b], g, start, end);
    forall p: nat | p < |rows|
      ensures ChinaColumn(rows, i)[p] == ValueOr0(China(r, d), FirstIndex(batches[b], g, start) + p)
      ensures OverseaColumn(rows, i)[p] == ValueOr0(Oversea(r, d), FirstIndex(batches[b], g, start) + p)
    {
      var k := CellCarries(batches, g, start, end, b, j, p);
      BucketIndex(batches[b], g, start, end, p);
    }
  }

  // ---- What the aggregates report ----

  /** Both regional totals of a domain, in its own response's values. */
  ghost predicate ReportsTraffic(u: DomainTraffic, r: Response, d: string, start: int, end: int) {
    && u.domain == d && u.china == Sum(Reported(China(r, d), r.times, start, end))
    && u.oversea == Sum(Reported(Oversea(r, d), r.times, start, end))
    && u.bytes == u.china + u.oversea && (u.active <==> u.bytes > 0.0)
  }

  /** The peak is the largest value of the period, and is dated by the first instant that reports it. */
  ghost predicate ReportsPeak(u: DomainBandwidth, r: Response, d: string, start: int, end: int) {
    && u.domain == d
    && (forall k: nat :: InPeriod(r, k, start, end) ==> Both(r, d, k) <= u.peak)
    && (forall k: nat :: InPeriod(r, k, start, end) && r.times[k] < u.peakAt ==> Both(r, d, k) < u.peak)
    && (exists k: nat :: InPeriod(r, k, start, end) && r.times[k] == u.peakAt && Both(r, d, k) == u.peak)
    && (u.active <==> exists k: nat :: InPeriod(r, k, start, end) && Both(r, d, k) > 0.0)
  }

  /** One bucket for each of the response's instants that lie in the period. */
  ghost predicate CountsBuckets(count: nat, batches: seq<Batch>, start: int, end: int) {
    forall b :: 0 <= b < |batches| ==> |Reported([], batches[b].response.times, start, end)| == count
  }

  ghost predicate AllReportTraffic(t: TrafficAggregate, batches: seq<Batch>, start: int, end: int) {
    && t.periodStart == start && t.periodEnd == end && |t.domains| == |Domains(batches)|
    && CountsBuckets(t.bucketCount, batches, start, end) && t.accountBytes == Sum(DomainBytes(t.domains))
    && forall b: nat, j: nat :: b < |batches| && j < |batches[b].domains| && Position(batches, b, j) < |t.domains| ==>
         ReportsTraffic(t.domains[Position(batches, b, j)], batches[b].response, batches[b].domains[j], start, end)
  }

  ghost predicate AllReportPeaks(u: BandwidthAggregate, batches: seq<Batch>, start: int, end: int) {
    && u.periodStart == start && u.periodEnd == end && |u.domains| == |Domains(batches)|
    && CountsBuckets(u.bucketCount, batches, start, end)
    && forall b: nat, j: nat :: b < |batches| && j < |batches[b].domains| && Position(batches, b, j) < |u.domains| ==>
         ReportsPeak(u.domains[Position(batches, b, j)], batches[b].response, batches[b].domains[j], start, end)
  }

  lemma BucketsCounted(batches: seq<Batch>, g: Granularity, start: int, end: int)
    requires ValidBatches(batches, g, start, end)
    ensures CountsBuckets(|Rows(batches, g, start, end)|, batches, start, end)
  {
    hide Aligned, ValidDomains, ValidResponse, NoDuplicates, Covers, GridPoints, Row, FirstIndex;
    forall b | 0 <= b < |batches|
      ensures |Reported([], batches[b].response.times, start, end)| == |Rows(batches, g, start, end)|
    {
      assert ValidBatch(batches[b], g, start, end);
      ReportedIs([], batches[b], g, start, end);
    }
  }

  /** Main law: every traffic total is the sum of what the response reports for the period. */
  lemma TrafficReports(batches: seq<Batch>, g: Granularity, start: int, end: int)
    requires ValidBatches(batches, g, start, end)
    ensures AllReportTraffic(TrafficUsage(Domains(batches), start, end, Rows(batches, g, start, end)), batches, start, end)
  {
    assert start <= end;
    BucketsCounted(batches, g, start, end);
    hide ValidBatches, Rows, ReportsTraffic, DomainTotal, Sum, Position, CountsBuckets;
    forall b: nat, j: nat | b < |batches| && j < |batches[b].domains| && Position(batches, b, j) < |Domains(batches)|
      ensures ReportsTraffic(TrafficUsage(Domains(batches), start, end, Rows(batches, g, start, end)).domains[Position(batches, b, j)],
                             batches[b].response, batches[b].domains[j], start, end)
    {
      DomainTotalReports(batches, g, start, end, b, j);
      CellPosition(batches, g, start, b, j);
    }
  }

  lemma DomainTotalReports(batches: seq<Batch>, g: Granularity, start: int, end: int, b: nat, j: nat)
    requires ValidBatches(batches, g, start, end) && b < |batches| && j < |batches[b].domains|
    ensures ReportsTraffic(DomainTotal(batches[b].domains[j], Rows(batches, g, start, end), Position(batches, b, j)),
                           batches[b].response, batches[b].domains[j], start, end)
  {
    hide Rows, Reported, China, Oversea, Sum, Position, ChinaColumn, OverseaColumn;
    ColumnsAreReported(batches, g, start, end, b, j);
  }

  /** The k-th response point of the period is the table's bucket k - a, and its value is the column's. */
  lemma ColumnValue(batches: seq<Batch>, start: int, end: int, b: nat, j: nat, p: nat)
    requires ValidBatches(batches, FiveMinutes, start, end) && b < |batches| && j < |batches[b].domains|
    requires p < |GridPoints(FiveMinutes, start, end)|
    ensures var rows, i, r := Rows(batches, FiveMinutes, start, end), Position(batches, b, j), batches[b].response;
      var k := FirstIndex(batches[b], FiveMinutes, start) + p;
      && 0 <= k < |r.times| && r.times[k] == start + p * FIVE_MINUTES && InPeriod(r, k, start, end)
      && Column(rows, i)[p] == Both(r, batches[b].domains[j], k)
  {
    hide Aligned, Covers, IndexIn, Row, NoDuplicates, FirstIndex, China, Oversea, ValueOr0, ValidResponse;
    assert ValidBatch(batches[b], FiveMinutes, start, end);
    var k := CellCarries(batches, FiveMinutes, start, end, b, j, p);
    BucketIndex(batches[b], FiveMinutes, start, end, p);
    StartIndex(batches[b], FiveMinutes, start, end);
    PeriodIndex(batches[b], FiveMinutes, start, end, k);
  }

  lemma DomainPeakReports(batches: seq<Batch>, start: int, end: int, b: nat, j: nat)
    requires ValidBatches(batches, FiveMinutes, start, end) && b < |batches| && j < |batches[b].domains|
    ensures var column := Column(Rows(batches, FiveMinutes, start, end), Position(batches, b, j));
      ReportsPeak(DomainPeak(batches[b].domains[j], start, column), batches[b].response, batches[b].domains[j], start, end)
  {
    hide Aligned, Covers, IndexIn, Rows, Row, NoDuplicates, FirstIndex, Both, ValidResponse, EarliestMax, InPeriod;
    var column, r, d := Column(Rows(batches, FiveMinutes, start, end), Position(batches, b, j)), batches[b].response, batches[b].domains[j];
    var a, n := FirstIndex(batches[b], FiveMinutes, start), |GridPoints(FiveMinutes, start, end)|;
    assert ValidBatch(batches[b], FiveMinutes, start, end);
    StartIndex(batches[b], FiveMinutes, start, end);
    RowsLength(batches, start, end);
    forall p: nat | p < n
      ensures BucketOf(column, r, d, start, end, a, p)
    {
      ColumnValue(batches, start, end, b, j, p);
    }
    forall k: nat | InPeriod(r, k, start, end)
      ensures a <= k < a + n
    {
      PeriodIndex(batches[b], FiveMinutes, start, end, k);
    }
    PeakOfSeries(column, r, d, start, end, a, n);
  }

  lemma RowsLength(batches: seq<Batch>, start: int, end: int)
    requires start <= end
    ensures |Rows(batches, FiveMinutes, start, end)| == |GridPoints(FiveMinutes, start, end)|
  {
  }

  /** Bucket p of a column is the response's point a + p. */
  ghost predicate BucketOf(column: seq<real>, r: Response, d: string, start: int, end: int, a: nat, p: nat) {
    && p < |column| && InPeriod(r, a + p, start, end) && r.times[a + p] == start + p * FIVE_MINUTES
    && column[p] == Both(r, d, a + p)
  }

  lemma PeakOfSeries(column: seq<real>, r: Response, d: string, start: int, end: int, a: nat, n: nat)
    requires |column| == n > 0
    requires forall p: nat :: p < n ==> BucketOf(column, r, d, start, end, a, p)
    requires forall k: nat :: InPeriod(r, k, start, end) ==> a <= k < a + n
    ensures ReportsPeak(DomainPeak(d, start, column), r, d, start, end)
  {
    hide Both, EarliestMax;
    var u, m := DomainPeak(d, start, column), EarliestMax(column);
    forall k: nat | InPeriod(r, k, start, end)
      ensures Both(r, d, k) <= u.peak && k < |r.times| && (r.times[k] < u.peakAt ==> Both(r, d, k) < u.peak)
    {
      assert BucketOf(column, r, d, start, end, a, k - a);
    }
    assert BucketOf(column, r, d, start, end, a, m);
    if p: nat :| p < |column| && column[p] > 0.0 {
      assert BucketOf(column, r, d, start, end, a, p);
    }
    if k: nat :| InPeriod(r, k, start, end) && Both(r, d, k) > 0.0 {
      assert BucketOf(column, r, d, start, end, a, k - a);
    }
  }

  /** Main law: every domain's peak is its largest reported value of the period, dated by the first bucket that reports it. */
  lemma PeaksReport(batches: seq<Batch>, start: int, end: int)
    requires ValidBatches(batches, FiveMinutes, start, end)
    ensures AllReportPeaks(BandwidthUsage(Domains(batches), start, end, Rows(batches, FiveMinutes, start, end)), batches, start, end)
  {
    assert start <= end;
    BucketsCounted(batches, FiveMinutes, start, end);
    hide ValidBatches, Rows, ReportsPeak, DomainPeak, Position, Column, CountsBuckets;
    forall b: nat, j: nat | b < |batches| && j < |batches[b].domains| && Position(batches, b, j) < |Domains(batches)|
      ensures ReportsPeak(BandwidthUsage(Domains(batches), start, end, Rows(batches, FiveMinutes, start, end)).domains[Position(batches, b, j)],
                          batches[b].response, batches[b].domains[j], start, end)
    {
      DomainPeakReports(batches, start, end, b, j);
      CellPosition(batches, FiveMinutes, start, b, j);
    }
  }

  /** The account value of a bucket is the sum over all domains of what their responses report for it. */
  lemma AccountReports(batches: seq<Batch>, start: int, end: int, p: nat, values: seq<real>)
    requires ValidBatches(batches, FiveMinutes, start, end) && p < |Rows(batches, FiveMinutes, start, end)|
    requires |values| == |Domains(batches)|
    requires forall b: nat, j: nat, k: nat ::
               && b < |batches| && j < |batches[b].domains| && k < |batches[b].response.times|
               && batches[b].response.times[k] == start + p * FIVE_MINUTES && Position(batches, b, j) < |values| ==>
                 values[Position(batches, b, j)] == Both(batches[b].response, batches[b].domains[j], k)
    ensures var usage := BandwidthUsage(Domains(batches), start, end, Rows(batches, FiveMinutes, start, end));
      && Sum(values) <= usage.accountPeak && (start + p * FIVE_MINUTES < usage.accountPeakAt ==> Sum(values) < usage.accountPeak)
      && (usage.accountPeakAt == start + p * FIVE_MINUTES ==> usage.accountPeak == Sum(values))
  {
    hide Aligned, Covers, IndexIn, Row, NoDuplicates, FirstIndex, Both, ValidResponse, Sum, EarliestMax, Position;
    var row := Rows(batches, FiveMinutes, start, end)[p];
    RowsLength(batches, start, end);
    forall i: nat | i < |values|
      ensures values[i] == RowValues(row)[i]
    {
      var b, j := PositionExists(batches, i);
      ColumnValue(batches, start, end, b, j, p);
    }
    assert RowValues(row) == values;
    AccountPeakIs(Domains(batches), start, end, Rows(batches, FiveMinutes, start, end), p);
  }

  lemma AccountPeakIs(domains: seq<string>, start: int, end: int, rows: seq<seq<Cell>>, p: nat)
    requires p < |rows|
    ensures var usage, total := BandwidthUsage(domains, start, end, rows), RowTotal(rows[p]);
      && total <= usage.accountPeak && (start + p * FIVE_MINUTES < usage.accountPeakAt ==> total < usage.accountPeak)
      && (usage.accountPeakAt == start + p * FIVE_MINUTES ==> usage.accountPeak == total)
  {
    hide EarliestMax, RowTotal;
    var totals := Totals(rows);
    assert totals[p] == RowTotal(rows[p]);
    assert EarliestMax(totals) < |totals|;
  }

  /** On an axis that is the period itself a column is the whole series. */
  lemma {:induction false} WholeAxis(values: seq<real>, times: seq<int>, start: int, end: int)
    requires forall k :: 0 <= k < |times| ==> start <= times[k] < end
    requires |values| == 0 || |values| == |times|
    ensures |values| == |times| ==> Reported(values, times, start, end) == values
    ensures |values| == 0 ==> Sum(Reported(values, times, start, end)) == 0.0
  {
    ReportedPart(values, times, start, end, 0, |times|, |times|);
    assert times[..|times|] == times;
    if |values| == 0 {
      SumZeros(Reported(values, times, start, end));
    }
  }

  /** So the totals of such a response are those of its whole series. */
  lemma WholeAxisTraffic(u: DomainTraffic, r: Response, d: string, start: int, end: int)
    requires ReportsTraffic(u, r, d, start, end) && forall k :: 0 <= k < |r.times| ==> start <= r.times[k] < end
    requires d in r.data && |r.data[d].china| == |r.times| == |r.data[d].oversea|
    ensures u.china == Sum(r.data[d].china) && u.oversea == Sum(r.data[d].oversea)
  {
    WholeAxis(r.data[d].china, r.times, start, end);
    WholeAxis(r.data[d].oversea, r.times, start, end);
  }
}
