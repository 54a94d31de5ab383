/** The two aggregators, proved against the usage table (internal/qiniu/cdn/usage.go). */
module UsageAggregation {
  import opened Core
  import opened Clock
  import opened UsagePoints
  import opened Usage
  import UsageReports

  function AddUsageValue(left: real, right: real): Result<real, Error> {
    if left + right > MAX_FINITE then Failure(Overflow) else Success(left + right)
  }

  // ---- Bandwidth peaks ----

  /** The update one bucket makes to one domain's running peak. */
  function Observe(usage: DomainBandwidth, first: bool, value: real, at: int): DomainBandwidth {
    var moved := if first || value > usage.peak then usage.(peak := value, peakAt := at) else usage;
    if value > 0.0 then moved.(active := true) else moved
  }

  /** Scanning buckets in order computes the earliest maximum. */
  lemma ObserveExtendsPeak(domain: string, start: int, values: seq<real>, value: real, usage: DomainBandwidth)
    requires if |values| == 0 then usage.domain == domain && !usage.active
             else usage == DomainPeak(domain, start, values)
    ensures Observe(usage, |values| == 0, value, start + |values| * FIVE_MINUTES)
         == DomainPeak(domain, start, values + [value])
  {
    var longer := values + [value];
    assert longer[..|values|] == values;
    assert (exists j :: 0 <= j < |longer| && longer[j] > 0.0)
      <==> (value > 0.0 || exists j :: 0 <= j < |values| && values[j] > 0.0) by {
      if value > 0.0 { assert longer[|values|] > 0.0; }
      if j :| 0 <= j < |values| && values[j] > 0.0 { assert longer[j] > 0.0; }
    }
  }

  lemma IndexInPeriod(range: Range, b: Batch, g: Granularity, start: int, end: int, point: nat)
    requires IsGrid(b.response.times, g) && RangeOf(range, b, g, start, end) && point < |GridPoints(g, start, end)|
    ensures IndexIn(b.response.times, g, GridPoints(g, start, end)[point]) == range.startIndex + point
  {
    hide Step, IsGrid;
    var step, t0 := Step(g), b.response.times[0];
    assert GridPoints(g, start, end)[point] == start + point * step;
    hide GridPoints;
    QuotientShift(start - t0, point, step);
    assert start + point * step - t0 == start - t0 + point * step;
  }

  lemma QuotientShift(x: int, k: int, d: int)
    requires d > 0
    ensures (x + k * d) / d == x / d + k
  {
    Distribute(x / d, k, d);
    QuotientIs(x + k * d, d, x / d + k);
  }

  /** What one domain of a batch contributes to a bucket. */
  function Contribution(batch: Batch, responsePoint: nat, j: nat): real
    requires j < |batch.domains|
  {
    Bandwidth(CellAt(batch.response, batch.domains[j], responsePoint))
  }

  /** The values of one batch, placed at their flattened positions. */
  ghost predicate BatchValues(values: seq<real>, index: nat, batch: Batch, responsePoint: nat) {
    && index + |batch.domains| <= |values|
    && forall j :: 0 <= j < |batch.domains| ==> values[index + j] == Contribution(batch, responsePoint, j)
  }

  lemma ContributionAt(batches: seq<Batch>, g: Granularity, t: int, b: nat, j: nat, responsePoint: nat)
    requires b < |batches| && j < |batches[b].domains|
    requires |batches[b].response.times| > 0 && IndexIn(batches[b].response.times, g, t) == responsePoint
    ensures Position(batches, b, 0) + j < |Row(batches, g, t)|
    ensures RowValues(Row(batches, g, t))[Position(batches, b, 0) + j] == Contribution(batches[b], responsePoint, j)
  {
    hide IndexIn, CellAt, Domains;
    CellPosition(batches, g, t, b, j);
  }

  lemma BatchValuesOf(batches: seq<Batch>, g: Granularity, start: int, end: int, b: nat, range: Range, point: nat)
    requires ValidBatches(batches, g, start, end) && b < |batches| && RangeOf(range, batches[b], g, start, end)
    requires point < |GridPoints(g, start, end)|
    ensures BatchValues(RowValues(Row(batches, g, GridPoints(g, start, end)[point])), Position(batches, b, 0),
                        batches[b], range.startIndex + point)
  {
    hide Aligned, Covers, GridPoints, IndexIn, Row, RowValues, Position, Contribution;
    var t, responsePoint := GridPoints(g, start, end)[point], range.startIndex + point;
    IndexInPeriod(range, batches[b], g, start, end, point);
    PositionStep(batches, b);
    forall j: nat | j < |batches[b].domains|
      ensures Position(batches, b, 0) + j < |Row(batches, g, t)|
      ensures RowValues(Row(batches, g, t))[Position(batches, b, 0) + j] == Contribution(batches[b], responsePoint, j)
    {
      ContributionAt(batches, g, t, b, j, responsePoint);
    }
  }

  lemma AllBatchValues(batches: seq<Batch>, g: Granularity, start: int, end: int, v: Validated, point: nat)
    requires ValidBatches(batches, g, start, end) && IsValidated(v, batches, g, start, end) && point < |v.starts|
    ensures var values := RowValues(Rows(batches, g, start, end)[point]);
      && |values| == |v.domains| && NonNegative(values)
      && forall b :: 0 <= b < |batches| ==>
           BatchValues(values, Position(batches, b, 0), batches[b], v.ranges[b].startIndex + point)
  {
    hide Aligned, Covers, GridPoints, IndexIn;
    RowNonNegative(batches, g, start, end, v.starts[point]);
    forall b | 0 <= b < |batches|
      ensures BatchValues(RowValues(Row(batches, g, v.starts[point])), Position(batches, b, 0), batches[b],
                          v.ranges[b].startIndex + point)
    {
      BatchValuesOf(batches, g, start, end, b, v.ranges[b], point);
    }
  }

  /** One batch of one bucket: updates its domains in place and adds them to the account value. */
  method ScanBatch(batch: Batch, responsePoint: nat, first: bool, at: int, index: nat,
                   current: seq<DomainBandwidth>, account: real, ghost values: seq<real>)
    returns (r: Result<(seq<DomainBandwidth>, real), Error>)
    requires |values| == |current| && NonNegative(values) && BatchValues(values, index, batch, responsePoint)
    requires account == Sum(values[..index]) <= MAX_FINITE
    ensures r.Success? <==> Sum(values[..index + |batch.domains|]) <= MAX_FINITE
    ensures r.Success? ==>
              && |r.value.0| == |current|
              && r.value.1 == Sum(values[..index + |batch.domains|])
              && forall i :: 0 <= i < |current| ==>
                   r.value.0[i] == if index <= i < index + |batch.domains| then Observe(current[i], first, values[i], at) else current[i]
    ensures r.Failure? ==> r.error == Overflow
  {
    hide Sum;
    var domains, total, k := current, account, index;
    for j := 0 to |batch.domains|
      invariant k == index + j
      invariant |domains| == |current| && total == Sum(values[..k]) <= MAX_FINITE
      invariant forall i :: 0 <= i < |current| ==>
                  domains[i] == if index <= i < k then Observe(current[i], first, values[i], at) else current[i]
    {
      var domain, bandwidth := batch.domains[j], 0.0;
      assert values[k] == Contribution(batch, responsePoint, j);
      PartialSum(values, k, index + |batch.domains|);
      if domain in batch.response.data {
        var series := batch.response.data[domain];
        var both := AddUsageValue(OptionalSeriesValue(series.china, responsePoint),
                                  OptionalSeriesValue(series.oversea, responsePoint));
        if both.Failure? {
          return Failure(both.error);
        }
        bandwidth := both.value;
      }
      assert bandwidth == values[k];
      domains := domains[k := Observe(domains[k], first, bandwidth, at)];
      var sum := AddUsageValue(total, bandwidth);
      if sum.Failure? {
        return Failure(sum.error);
      }
      assert sum.value == Sum(values[..k + 1]);
      total := sum.value;
      k := k + 1;
      assert total == Sum(values[..k]);
    }
    return Success((domains, total));
  }

  lemma PartialSum(values: seq<real>, k: nat, n: nat)
    requires NonNegative(values) && k < n <= |values|
    ensures Sum(values[..k + 1]) == Sum(values[..k]) + values[k] <= Sum(values[..n])
    ensures values[k] <= Sum(values[..n])
  {
    assert values[..k + 1] == values[..k] + [values[k]];
    SumAppend(values[..k], values[k]);
    SumPrefix(values[..n], k + 1);
    assert values[..n][..k + 1] == values[..k + 1];
    SumTerm(values[..n], k);
  }

  lemma PositionEnds(batches: seq<Batch>, values: seq<real>)
    ensures Position(batches, 0, 0) == 0 && Position(batches, |batches|, 0) == |Domains(batches)|
    ensures Sum(values[..0]) == 0.0 && values[..|values|] == values
  {
    assert batches[..|batches|] == batches;
  }

  /** One bucket across every batch. */
  method ScanPoint(batches: seq<Batch>, ranges: seq<Range>, point: nat, at: int, current: seq<DomainBandwidth>,
                   ghost values: seq<real>)
    returns (r: Result<(seq<DomainBandwidth>, real), Error>)
    requires |ranges| == |batches| && |current| == |values| == |Domains(batches)| && NonNegative(values)
    requires forall b :: 0 <= b < |batches| ==>
               BatchValues(values, Position(batches, b, 0), batches[b], ranges[b].startIndex + point)
    ensures r.Success? <==> Sum(values) <= MAX_FINITE
    ensures r.Success? ==>
              && |r.value.0| == |current| && r.value.1 == Sum(values)
              && forall i :: 0 <= i < |current| ==> r.value.0[i] == Observe(current[i], point == 0, values[i], at)
    ensures r.Failure? ==> r.error == Overflow
  {
    hide Sum, Position, Observe;
    var domains, account, index := current, 0.0, 0;
    PositionEnds(batches, values);
    for b := 0 to |batches|
      invariant index == Position(batches, b, 0) <= |current|
      invariant |domains| == |current| && account == Sum(values[..index]) <= MAX_FINITE
      invariant forall i :: 0 <= i < |current| ==>
                  domains[i] == if i < index then Observe(current[i], point == 0, values[i], at) else current[i]
    {
      PositionStep(batches, b);
      var scanned := ScanBatch(batches[b], ranges[b].startIndex + point, point == 0, at, index, domains, account, values);
      if scanned.Failure? {
        SumPrefix(values, index + |batches[b].domains|);
        return Failure(scanned.error);
      }
      domains, account := scanned.value.0, scanned.value.1;
      index := index + |batches[b].domains|;
    }
    return Success((domains, account));
  }

  lemma ColumnPrefix(rows: seq<seq<Cell>>, point: nat, i: nat)
    requires point < |rows|
    ensures Column(rows[..point + 1], i) == Column(rows[..point], i) + [BandwidthOf(rows[point], i)]
    ensures Totals(rows[..point + 1]) == Totals(rows[..point]) + [RowTotal(rows[point])]
  {
  }

  ghost predicate PeakSoFar(usage: DomainBandwidth, domain: string, start: int, values: seq<real>) {
    if |values| == 0 then usage.domain == domain && !usage.active else usage == DomainPeak(domain, start, values)
  }

  /** The running peaks after the first `point` buckets. */
  ghost predicate PeaksSoFar(usages: seq<DomainBandwidth>, account: DomainBandwidth, domains: seq<string>, start: int,
                             rows: seq<seq<Cell>>, point: nat)
    requires point <= |rows|
  {
    && |usages| == |domains|
    && (forall i :: 0 <= i < |usages| ==> PeakSoFar(usages[i], domains[i], start, Column(rows[..point], i)))
    && PeakSoFar(account, "", start, Totals(rows[..point]))
    && forall p :: 0 <= p < point ==> RowTotal(rows[p]) <= MAX_FINITE
  }

  lemma PeaksStart(usages: seq<DomainBandwidth>, account: DomainBandwidth, domains: seq<string>, start: int, rows: seq<seq<Cell>>)
    requires |usages| == |domains| && account.domain == "" && !account.active
    requires forall i :: 0 <= i < |usages| ==> usages[i].domain == domains[i] && !usages[i].active
    ensures PeaksSoFar(usages, account, domains, start, rows, 0)
  {
  }

  lemma PeaksStep(before: seq<DomainBandwidth>, account: DomainBandwidth, after: seq<DomainBandwidth>, domains: seq<string>,
                  start: int, rows: seq<seq<Cell>>, point: nat)
    requires point < |rows| && |rows[point]| == |domains| == |after|
    requires PeaksSoFar(before, account, domains, start, rows, point)
    requires RowTotal(rows[point]) <= MAX_FINITE
    requires forall i :: 0 <= i < |after| ==>
               after[i] == Observe(before[i], point == 0, RowValues(rows[point])[i], start + point * FIVE_MINUTES)
    ensures PeaksSoFar(after, Observe(account, point == 0, RowTotal(rows[point]), start + point * FIVE_MINUTES),
                       domains, start, rows, point + 1)
  {
    hide Sum, EarliestMax;
    forall i | 0 <= i < |after|
      ensures PeakSoFar(after[i], domains[i], start, Column(rows[..point + 1], i))
    {
      ColumnPrefix(rows, point, i);
      ObserveExtendsPeak(domains[i], start, Column(rows[..point], i), RowValues(rows[point])[i], before[i]);
    }
    ColumnPrefix(rows, point, 0);
    ObserveExtendsPeak("", start, Totals(rows[..point]), RowTotal(rows[point]), account);
  }

  lemma PeaksDone(usages: seq<DomainBandwidth>, account: DomainBandwidth, domains: seq<string>, start: int, end: int,
                  rows: seq<seq<Cell>>)
    requires |rows| > 0 && PeaksSoFar(usages, account, domains, start, rows, |rows|)
    ensures BandwidthAggregate(start, end, |rows|, usages, account.peak, account.peakAt)
         == BandwidthUsage(domains, start, end, rows)
  {
    hide Sum, EarliestMax;
    assert rows[..|rows|] == rows;
  }

  lemma TableShape(batches: seq<Batch>, start: int, end: int, v: Validated)
    requires ValidBatches(batches, FiveMinutes, start, end) && IsValidated(v, batches, FiveMinutes, start, end)
    ensures start <= end && v.domains == Domains(batches) && |v.ranges| == |batches|
    ensures |Rows(batches, FiveMinutes, start, end)| == |v.starts| > 0
    ensures forall p :: 0 <= p < |v.starts| ==> v.starts[p] == start + p * FIVE_MINUTES
  {
    AlignedStep(FiveMinutes, start, end);
  }

  /** Five-minute domain and account peaks; it fails on invalid batches or when an account value overflows. */
  method AggregateBandwidthUsage(batches: seq<Batch>, g: Granularity, start: int, end: int)
    returns (r: Result<BandwidthAggregate, Error>)
    ensures r.Success? <==>
              && g == FiveMinutes && ValidBatches(batches, g, start, end)
              && BandwidthFinite(Rows(batches, g, start, end))
    ensures r.Success? ==> r.value == BandwidthUsage(Domains(batches), start, end, Rows(batches, g, start, end))
    ensures r.Success? ==> UsageReports.AllReportPeaks(r.value, batches, start, end)
    ensures g == FiveMinutes && ValidBatches(batches, g, start, end) && r.Failure? ==> r.error == Overflow
  {
    hide ValidBatches, IsValidated, Rows, Sum, EarliestMax, Column, Totals, DomainPeak, BandwidthUsage, UsageReports.AllReportPeaks;
    if g != FiveMinutes {
      return Failure(InvalidInput);
    }
    var validation := ValidateUsageBatches(batches, g, start, end);
    if validation.Failure? {
      return Failure(validation.error);
    }
    var v := validation.value;
    TableShape(batches, start, end, v);
    ghost var rows := Rows(batches, g, start, end);
    var firstPoint := v.starts[0];
    var domains := seq(|v.domains|, i requires 0 <= i < |v.domains| => DomainBandwidth(v.domains[i], 0.0, firstPoint, false));
    var account := DomainBandwidth("", 0.0, firstPoint, false);
    PeaksStart(domains, account, v.domains, start, rows);
    for point := 0 to |v.starts|
      invariant PeaksSoFar(domains, account, v.domains, start, rows, point)
    {
      var at := v.starts[point];
      AllBatchValues(batches, g, start, end, v, point);
      var scanned := ScanPoint(batches, v.ranges, point, at, domains, RowValues(rows[point]));
      if scanned.Failure? {
        return Failure(scanned.error);
      }
      PeaksStep(domains, account, scanned.value.0, v.domains, start, rows, point);
      domains := scanned.value.0;
      account := Observe(account, point == 0, scanned.value.1, at);
    }
    PeaksDone(domains, account, v.domains, start, end, rows);
    UsageReports.PeaksReport(batches, start, end);
    return Success(BandwidthAggregate(start, end, |v.starts|, domains, account.peak, account.peakAt));
  }
}
