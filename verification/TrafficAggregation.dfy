/** The traffic aggregator, proved against the usage table (internal/qiniu/cdn/usage.go). */
module TrafficAggregation {
  import opened Core
  import opened UsagePoints
  import opened Usage
  import opened UsageAggregation
  import UsageReports

  /** One domain's regional values over the selected range of its response. */
  ghost predicate SeriesValues(china: seq<real>, oversea: seq<real>, response: Response, domain: string, range: Range) {
    && range.startIndex <= range.endIndex
    && |china| == |oversea| == range.endIndex - range.startIndex
    && NonNegative(china) && NonNegative(oversea)
    && forall p :: 0 <= p < |china| ==> SeriesPoint(china, oversea, response, domain, range.startIndex, p)
  }

  ghost predicate SeriesPoint(china: seq<real>, oversea: seq<real>, response: Response, domain: string, first: nat, p: nat)
    requires p < |china| == |oversea|
  {
    china[p] == CellAt(response, domain, first + p).china && oversea[p] == CellAt(response, domain, first + p).oversea
  }

  lemma SeriesAreColumns(batches: seq<Batch>, g: Granularity, start: int, end: int, v: Validated, b: nat, j: nat)
    requires ValidBatches(batches, g, start, end) && IsValidated(v, batches, g, start, end)
    requires b < |batches| && j < |batches[b].domains|
    ensures var rows, i := Rows(batches, g, start, end), Position(batches, b, 0) + j;
      SeriesValues(ChinaColumn(rows, i), OverseaColumn(rows, i), batches[b].response, batches[b].domains[j], v.ranges[b])
  {
    hide Aligned, Covers, GridPoints, IndexIn, Row;
    var rows, i := Rows(batches, g, start, end), Position(batches, b, 0) + j;
    var range := v.ranges[b];
    assert RangeOf(range, batches[b], g, start, end);
    assert ValidBatch(batches[b], g, start, end);
    forall p: nat | p < |rows|
      ensures SeriesPoint(ChinaColumn(rows, i), OverseaColumn(rows, i), batches[b].response, batches[b].domains[j],
                          range.startIndex, p)
      ensures ChinaOf(rows[p], i) >= 0.0 && OverseaOf(rows[p], i) >= 0.0
    {
      CellPosition(batches, g, v.starts[p], b, j);
      IndexInPeriod(range, batches[b], g, start, end, p);
      RowNonNegative(batches, g, start, end, v.starts[p]);
    }
  }

  /** Sums one domain's buckets; with non-negative values it overflows exactly when the domain total does. */
  method SumSeries(response: Response, domain: string, range: Range, ghost china: seq<real>, ghost oversea: seq<real>)
    returns (r: Result<DomainTraffic, Error>)
    requires SeriesValues(china, oversea, response, domain, range)
    ensures r.Success? <==> Sum(china) + Sum(oversea) <= MAX_FINITE
    ensures r.Success? ==> r.value == DomainTraffic(domain, Sum(china), Sum(oversea), Sum(china) + Sum(oversea),
                                                    Sum(china) + Sum(oversea) > 0.0)
    ensures r.Failure? ==> r.error == Overflow
  {
    hide Sum;
    var chinaBytes, overseaBytes := 0.0, 0.0;
    SumBounds(china);
    SumBounds(oversea);
    if domain in response.data {
      var series := response.data[domain];
      for point := range.startIndex to range.endIndex
        invariant chinaBytes == Sum(china[..point - range.startIndex])
        invariant overseaBytes == Sum(oversea[..point - range.startIndex])
      {
        ghost var p := point - range.startIndex;
        assert SeriesPoint(china, oversea, response, domain, range.startIndex, p);
        PartialSum(china, p, |china|);
        PartialSum(oversea, p, |oversea|);
        var added := AddUsageValue(chinaBytes, OptionalSeriesValue(series.china, point));
        if added.Failure? {
          return Failure(added.error);
        }
        chinaBytes := added.value;
        assert chinaBytes == Sum(china[..p + 1]);
        added := AddUsageValue(overseaBytes, OptionalSeriesValue(series.oversea, point));
        if added.Failure? {
          return Failure(added.error);
        }
        overseaBytes := added.value;
        assert overseaBytes == Sum(oversea[..p + 1]);
      }
    } else {
      AbsentIsZero(response, domain, range, china, oversea);
    }
    var both := AddUsageValue(chinaBytes, overseaBytes);
    if both.Failure? {
      return Failure(both.error);
    }
    return Success(DomainTraffic(domain, chinaBytes, overseaBytes, both.value, both.value > 0.0));
  }

  lemma SumBounds(xs: seq<real>)
    requires NonNegative(xs)
    ensures Sum(xs[..0]) == 0.0 <= Sum(xs) && xs[..|xs|] == xs
  {
    SumPrefix(xs, 0);
  }

  lemma AbsentIsZero(response: Response, domain: string, range: Range, china: seq<real>, oversea: seq<real>)
    requires SeriesValues(china, oversea, response, domain, range) && domain !in response.data
    ensures Sum(china) == 0.0 && Sum(oversea) == 0.0
  {
    forall p | 0 <= p < |china|
      ensures china[p] == 0.0 && oversea[p] == 0.0
    {
      assert SeriesPoint(china, oversea, response, domain, range.startIndex, p);
    }
    SumZeros(china);
    SumZeros(oversea);
  }

  lemma UsageNonNegative(batches: seq<Batch>, g: Granularity, start: int, end: int, v: Validated)
    requires ValidBatches(batches, g, start, end) && IsValidated(v, batches, g, start, end)
    ensures NonNegative(DomainBytes(TrafficUsage(v.domains, start, end, Rows(batches, g, start, end)).domains))
  {
    hide Aligned, Covers, GridPoints, IndexIn, Row, Sum, Rows;
    var rows := Rows(batches, g, start, end);
    forall i | 0 <= i < |v.domains|
      ensures DomainTotal(v.domains[i], rows, i).bytes >= 0.0
    {
      var b, j := PositionExists(batches, i);
      SeriesAreColumns(batches, g, start, end, v, b, j);
      SumBounds(ChinaColumn(rows, i));
      SumBounds(OverseaColumn(rows, i));
    }
  }

  /** Sums every bucket of every domain; it fails on invalid batches or when the account total overflows. */
  method AggregateTrafficUsage(batches: seq<Batch>, g: Granularity, start: int, end: int)
    returns (r: Result<TrafficAggregate, Error>)
    ensures r.Success? <==>
              && ValidBatches(batches, g, start, end)
              && TrafficUsage(Domains(batches), start, end, Rows(batches, g, start, end)).accountBytes <= MAX_FINITE
    ensures r.Success? ==> r.value == TrafficUsage(Domains(batches), start, end, Rows(batches, g, start, end))
    ensures r.Success? ==> UsageReports.AllReportTraffic(r.value, batches, start, end)
    ensures ValidBatches(batches, g, start, end) && r.Failure? ==> r.error == Overflow
  {
    hide Sum, ValidBatches, Rows, IsValidated, DomainTotal, NoDuplicates, UsageReports.AllReportTraffic;
    var validation := ValidateUsageBatches(batches, g, start, end);
    if validation.Failure? {
      return Failure(validation.error);
    }
    var v := validation.value;
    ghost var rows, usage := TrafficTable(batches, g, start, end, v);
    ghost var bytes := DomainBytes(usage.domains);
    var domains: seq<DomainTraffic>, account, index := [], 0.0, 0;
    PositionEnds(batches, bytes);
    for b := 0 to |batches|
      invariant index == Position(batches, b, 0) <= |bytes|
      invariant domains == usage.domains[..index]
      invariant account == Sum(bytes[..index]) <= MAX_FINITE
    {
      PositionStep(batches, b);
      for j := 0 to |batches[b].domains|
        invariant index == Position(batches, b, 0) + j <= |bytes|
        invariant domains == usage.domains[..index]
        invariant account == Sum(bytes[..index]) <= MAX_FINITE
      {
        TrafficEntry(batches, g, start, end, v, b, j);
        PartialSum(bytes, index, |bytes|);
        var summed := SumSeries(batches[b].response, batches[b].domains[j], v.ranges[b],
                                ChinaColumn(rows, index), OverseaColumn(rows, index));
        if summed.Failure? {
          return Failure(summed.error);
        }
        assert summed.value == usage.domains[index];
        var total := AddUsageValue(account, summed.value.bytes);
        if total.Failure? {
          return Failure(total.error);
        }
        account := total.value;
        assert account == Sum(bytes[..index + 1]);
        domains := domains + [summed.value];
        index := index + 1;
      }
    }
    UsageReports.TrafficReports(batches, g, start, end);
    return Success(TrafficAggregate(start, end, |v.starts|, domains, account));
  }

  lemma TrafficTable(batches: seq<Batch>, g: Granularity, start: int, end: int, v: Validated)
    returns (rows: seq<seq<Cell>>, usage: TrafficAggregate)
    requires ValidBatches(batches, g, start, end) && IsValidated(v, batches, g, start, end)
    ensures start <= end && v.domains == Domains(batches) && |v.ranges| == |batches|
    ensures rows == Rows(batches, g, start, end) && |rows| == |v.starts|
    ensures usage == TrafficUsage(v.domains, start, end, rows)
    ensures NonNegative(DomainBytes(usage.domains))
  {
    rows := Rows(batches, g, start, end);
    usage := TrafficUsage(v.domains, start, end, rows);
    UsageNonNegative(batches, g, start, end, v);
  }

  lemma TrafficEntry(batches: seq<Batch>, g: Granularity, start: int, end: int, v: Validated, b: nat, j: nat)
    requires ValidBatches(batches, g, start, end) && IsValidated(v, batches, g, start, end)
    requires b < |batches| && j < |batches[b].domains|
    ensures var rows, i := Rows(batches, g, start, end), Position(batches, b, 0) + j;
      && i < |v.domains|
      && SeriesValues(ChinaColumn(rows, i), OverseaColumn(rows, i), batches[b].response, batches[b].domains[j], v.ranges[b])
      && TrafficUsage(v.domains, start, end, rows).domains[i] ==
           DomainTraffic(batches[b].domains[j], Sum(ChinaColumn(rows, i)), Sum(OverseaColumn(rows, i)),
                         Sum(ChinaColumn(rows, i)) + Sum(OverseaColumn(rows, i)),
                         Sum(ChinaColumn(rows, i)) + Sum(OverseaColumn(rows, i)) > 0.0)
  {
    hide Aligned, Covers, GridPoints, IndexIn, Row, Sum, Rows;
    SeriesAreColumns(batches, g, start, end, v, b, j);
    CellPosition(batches, g, start, b, j);
  }
}
