/** Merging the aggregates of adjacent periods (internal/app/cdn.go). */
module CdnMerge {
  import opened Core
  import opened Clock
  import opened UsagePoints
  import opened Usage
  import opened UsageTable

  // ---- Bandwidth ----

  function LaterPeakWins(prior: DomainBandwidth, current: DomainBandwidth): DomainBandwidth {
    (if current.peak > prior.peak then current else prior).(active := prior.active || current.active)
  }

  predicate SameBandwidthDomains(prior: BandwidthAggregate, current: BandwidthAggregate) {
    |prior.domains| == |current.domains|
    && forall i :: 0 <= i < |prior.domains| ==> prior.domains[i].domain == current.domains[i].domain
  }

  function MergedBandwidth(prior: BandwidthAggregate, current: BandwidthAggregate): Result<BandwidthAggregate, Error> {
    if prior.bucketCount == 0 then Success(current.(periodStart := prior.periodStart))
    else if current.bucketCount == 0 then Success(prior)
    else if !SameBandwidthDomains(prior, current) then Failure(SeriesMisaligned)
    else
      var keepPrior := prior.accountPeak >= current.accountPeak;
      Success(BandwidthAggregate(
        prior.periodStart, current.periodEnd, prior.bucketCount + current.bucketCount,
        seq(|prior.domains|, i requires 0 <= i < |prior.domains| => LaterPeakWins(prior.domains[i], current.domains[i])),
        if keepPrior then prior.accountPeak else current.accountPeak,
        if keepPrior then prior.accountPeakAt else current.accountPeakAt))
  }

  method MergeCdnBandwidthUsage(prior: BandwidthAggregate, current: BandwidthAggregate)
    returns (r: Result<BandwidthAggregate, Error>)
    ensures r == MergedBandwidth(prior, current)
  {
    if prior.bucketCount == 0 {
      return Success(current.(periodStart := prior.periodStart));
    }
    if current.bucketCount == 0 {
      return Success(prior);
    }
    if |prior.domains| != |current.domains| {
      return Failure(SeriesMisaligned);
    }
    var domains: seq<DomainBandwidth> := [];
    for index := 0 to |prior.domains|
      invariant |domains| == index
      invariant forall i :: 0 <= i < index ==>
                  && prior.domains[i].domain == current.domains[i].domain
                  && domains[i] == LaterPeakWins(prior.domains[i], current.domains[i])
    {
      if prior.domains[index].domain != current.domains[index].domain {
        return Failure(SeriesMisaligned);
      }
      var selected := prior.domains[index];
      if current.domains[index].peak > selected.peak {
        selected := current.domains[index];
      }
      selected := selected.(active := prior.domains[index].active || current.domains[index].active);
      domains := domains + [selected];
    }
    var result := BandwidthAggregate(prior.periodStart, current.periodEnd, prior.bucketCount + current.bucketCount, domains, 0.0, 0);
    if prior.accountPeak >= current.accountPeak {
      result := result.(accountPeak := prior.accountPeak, accountPeakAt := prior.accountPeakAt);
    } else {
      result := result.(accountPeak := current.accountPeak, accountPeakAt := current.accountPeakAt);
    }
    assert domains == MergedBandwidth(prior, current).value.domains;
    return Success(result);
  }

  /** Earliest wins: merging two peaks is taking the peak of the concatenated buckets. */
  lemma PeakConcat(domain: string, start: int, left: seq<real>, right: seq<real>)
    requires |left| > 0 && |right| > 0
    ensures DomainPeak(domain, start, left + right) ==
              LaterPeakWins(DomainPeak(domain, start, left), DomainPeak(domain, start + |left| * FIVE_MINUTES, right))
  {
    hide EarliestMax;
    EarliestMaxConcat(left, right);
    AnyPositiveConcat(left, right);
    var l, r := EarliestMax(left), EarliestMax(right);
    assert (left + right)[l] == left[l] && (left + right)[|left| + r] == right[r];
  }

  lemma AnyPositiveConcat(left: seq<real>, right: seq<real>)
    ensures var whole := left + right;
      (exists j :: 0 <= j < |whole| && whole[j] > 0.0) <==>
        ((exists j :: 0 <= j < |left| && left[j] > 0.0) || (exists j :: 0 <= j < |right| && right[j] > 0.0))
  {
    var whole := left + right;
    if j :| 0 <= j < |left| && left[j] > 0.0 { assert whole[j] > 0.0; }
    if j :| 0 <= j < |right| && right[j] > 0.0 { assert whole[|left| + j] > 0.0; }
  }

  /** Main law: the merge of two adjacent aggregates is the aggregate of the concatenated buckets. */
  lemma MergeIsConcatenation(domains: seq<string>, a: int, b: int, c: int, top: seq<seq<Cell>>, bottom: seq<seq<Cell>>)
    requires b == a + |top| * FIVE_MINUTES && c == b + |bottom| * FIVE_MINUTES
    ensures MergedBandwidth(BandwidthUsage(domains, a, b, top), BandwidthUsage(domains, b, c, bottom))
         == Success(BandwidthUsage(domains, a, c, top + bottom))
  {
    hide DomainPeak;
    if |top| == 0 {
      assert top + bottom == bottom;
    } else if |bottom| == 0 {
      assert top + bottom == top;
    } else {
      var prior, current := BandwidthUsage(domains, a, b, top), BandwidthUsage(domains, b, c, bottom);
      NamesOf(domains, a, b, top);
      NamesOf(domains, b, c, bottom);
      forall i: nat | i < |domains|
        ensures LaterPeakWins(prior.domains[i], current.domains[i]) == DomainPeak(domains[i], a, Column(top + bottom, i))
      {
        ColumnConcat(top, bottom, i);
        PeakConcat(domains[i], a, Column(top, i), Column(bottom, i));
      }
      ColumnConcat(top, bottom, 0);
      PeakConcat("", a, Totals(top), Totals(bottom));
      assert BandwidthUsage(domains, a, c, top + bottom).domains == MergedBandwidth(prior, current).value.domains;
    }
  }

  lemma NamesOf(domains: seq<string>, start: int, end: int, rows: seq<seq<Cell>>)
    ensures var usage := BandwidthUsage(domains, start, end, rows);
      |usage.domains| == |domains| && forall i :: 0 <= i < |domains| ==> usage.domains[i].domain == domains[i]
  {
  }

  /** Splitting a period on the grid is invisible, earliest-wins ties included. */
  lemma SplitIsInvisible(batches: seq<Batch>, a: int, b: int, c: int)
    requires ValidBatches(batches, FiveMinutes, a, c) && a < b < c && Aligned(FiveMinutes, b)
    ensures var domains := Domains(batches);
      MergedBandwidth(BandwidthUsage(domains, a, b, Rows(batches, FiveMinutes, a, b)),
                      BandwidthUsage(domains, b, c, Rows(batches, FiveMinutes, b, c)))
      == Success(BandwidthUsage(domains, a, c, Rows(batches, FiveMinutes, a, c)))
  {
    RowsSplit(batches, FiveMinutes, a, b, c);
    RowsSpan(a, b);
    RowsSpan(b, c);
    MergeIsConcatenation(Domains(batches), a, b, c, Rows(batches, FiveMinutes, a, b), Rows(batches, FiveMinutes, b, c));
  }

  /** The number of five-minute buckets spans the period exactly. */
  lemma RowsSpan(start: int, end: int)
    requires start <= end && Aligned(FiveMinutes, start) && Aligned(FiveMinutes, end)
    ensures end == start + |GridPoints(FiveMinutes, start, end)| * FIVE_MINUTES
  {
    AlignedDifference(FiveMinutes, start, end);
  }

  // ---- Traffic ----

  function AddedTraffic(prior: DomainTraffic, today: DomainTraffic): DomainTraffic {
    var china, oversea := prior.china + today.china, prior.oversea + today.oversea;
    DomainTraffic(today.domain, china, oversea, china + oversea, china + oversea > 0.0)
  }

  predicate SameTrafficDomains(prior: TrafficAggregate, today: TrafficAggregate) {
    |prior.domains| == |today.domains|
    && forall i :: 0 <= i < |prior.domains| ==> prior.domains[i].domain == today.domains[i].domain
  }

  function MergedTraffic(prior: TrafficAggregate, today: TrafficAggregate): TrafficAggregate
    requires SameTrafficDomains(prior, today)
  {
    var domains := seq(|today.domains|, i requires 0 <= i < |today.domains| => AddedTraffic(prior.domains[i], today.domains[i]));
    TrafficAggregate(prior.periodStart, today.periodEnd, prior.bucketCount + today.bucketCount, domains, Sum(DomainBytes(domains)))
  }

  ghost predicate NonNegativeTraffic(t: TrafficAggregate) {
    forall i :: 0 <= i < |t.domains| ==> t.domains[i].china >= 0.0 && t.domains[i].oversea >= 0.0
  }

  function AddFiniteCdnUsage(left: real, right: real): Result<real, Error> {
    if left + right > MAX_FINITE then Failure(Overflow) else Success(left + right)
  }

  /** Adds two traffic aggregates; non-negative inputs overflow exactly when the merged account total does. */
  method MergeCdnTrafficUsage(prior: TrafficAggregate, today: TrafficAggregate) returns (r: Result<TrafficAggregate, Error>)
    ensures r.Success? ==> SameTrafficDomains(prior, today) && r.value == MergedTraffic(prior, today)
    ensures !SameTrafficDomains(prior, today) && NonNegativeTraffic(prior) && NonNegativeTraffic(today) ==> r.Failure?
    ensures SameTrafficDomains(prior, today) && NonNegativeTraffic(prior) && NonNegativeTraffic(today) ==>
              r == if MergedTraffic(prior, today).accountBytes <= MAX_FINITE
                   then Success(MergedTraffic(prior, today)) else Failure(Overflow)
  {
    hide Sum;
    if |prior.domains| != |today.domains| {
      return Failure(SeriesMisaligned);
    }
    var domains: seq<DomainTraffic>, account := [], 0.0;
    BytesOf(domains);
    for index := 0 to |today.domains|
      invariant |domains| == index
      invariant forall i :: 0 <= i < index ==>
                  && prior.domains[i].domain == today.domains[i].domain
                  && domains[i] == AddedTraffic(prior.domains[i], today.domains[i])
      invariant account == Sum(DomainBytes(domains)) <= MAX_FINITE
    {
      if prior.domains[index].domain != today.domains[index].domain {
        return Failure(SeriesMisaligned);
      }
      ghost var added := AddedTraffic(prior.domains[index], today.domains[index]);
      BytesAppend(domains, added);
      PrefixOverflow(prior, today, domains + [added]);
      var china := AddFiniteCdnUsage(prior.domains[index].china, today.domains[index].china);
      if china.Failure? {
        return Failure(china.error);
      }
      var oversea := AddFiniteCdnUsage(prior.domains[index].oversea, today.domains[index].oversea);
      if oversea.Failure? {
        return Failure(oversea.error);
      }
      var bytes := AddFiniteCdnUsage(china.value, oversea.value);
      if bytes.Failure? {
        return Failure(bytes.error);
      }
      domains := domains + [DomainTraffic(today.domains[index].domain, china.value, oversea.value, bytes.value, bytes.value > 0.0)];
      var total := AddFiniteCdnUsage(account, bytes.value);
      if total.Failure? {
        return Failure(total.error);
      }
      account := total.value;
    }
    var result := TrafficAggregate(prior.periodStart, today.periodEnd, prior.bucketCount + today.bucketCount, domains, account);
    assert domains == MergedTraffic(prior, today).domains;
    return Success(result);
  }

  lemma BytesOf(domains: seq<DomainTraffic>)
    ensures |domains| == 0 ==> Sum(DomainBytes(domains)) == 0.0
  {
  }

  lemma BytesAppend(domains: seq<DomainTraffic>, added: DomainTraffic)
    ensures Sum(DomainBytes(domains + [added])) == Sum(DomainBytes(domains)) + added.bytes
  {
    assert DomainBytes(domains + [added]) == DomainBytes(domains) + [added.bytes];
    SumAppend(DomainBytes(domains), added.bytes);
  }

  /** With non-negative inputs every partial result is bounded by the merged account total. */
  lemma PrefixOverflow(prior: TrafficAggregate, today: TrafficAggregate, domains: seq<DomainTraffic>)
    requires 0 < |domains| <= |today.domains| == |prior.domains|
    requires forall i :: 0 <= i < |domains| ==> domains[i] == AddedTraffic(prior.domains[i], today.domains[i])
    ensures SameTrafficDomains(prior, today) && NonNegativeTraffic(prior) && NonNegativeTraffic(today) ==>
              && Sum(DomainBytes(domains)) <= MergedTraffic(prior, today).accountBytes
              && domains[|domains| - 1].bytes <= MergedTraffic(prior, today).accountBytes
              && domains[|domains| - 1].china >= 0.0 && domains[|domains| - 1].oversea >= 0.0
  {
    hide Sum;
    if SameTrafficDomains(prior, today) && NonNegativeTraffic(prior) && NonNegativeTraffic(today) {
      var all := DomainBytes(MergedTraffic(prior, today).domains);
      assert all[..|domains|] == DomainBytes(domains);
      SumPrefix(all, |domains|);
      SumTerm(all, |domains| - 1);
    }
  }

  lemma DomainTotalConcat(domain: string, top: seq<seq<Cell>>, bottom: seq<seq<Cell>>, i: nat)
    ensures AddedTraffic(DomainTotal(domain, top, i), DomainTotal(domain, bottom, i)) == DomainTotal(domain, top + bottom, i)
  {
    ColumnConcat(top, bottom, i);
    SumConcat(ChinaColumn(top, i), ChinaColumn(bottom, i));
    SumConcat(OverseaColumn(top, i), OverseaColumn(bottom, i));
  }

  /** Main law: merging traffic is aggregating the concatenated buckets. */
  lemma TrafficMergeIsConcatenation(domains: seq<string>, a: int, b: int, c: int, top: seq<seq<Cell>>, bottom: seq<seq<Cell>>)
    ensures var prior, today := TrafficUsage(domains, a, b, top), TrafficUsage(domains, b, c, bottom);
      SameTrafficDomains(prior, today) && MergedTraffic(prior, today) == TrafficUsage(domains, a, c, top + bottom)
  {
    hide Sum, DomainTotal;
    var prior, today := TrafficUsage(domains, a, b, top), TrafficUsage(domains, b, c, bottom);
    forall i: nat | i < |domains|
      ensures prior.domains[i].domain == today.domains[i].domain == domains[i]
      ensures AddedTraffic(prior.domains[i], today.domains[i]) == TrafficUsage(domains, a, c, top + bottom).domains[i]
    {
      DomainTotalConcat(domains[i], top, bottom, i);
      DomainTotalName(domains[i], top, i);
      DomainTotalName(domains[i], bottom, i);
    }
    assert MergedTraffic(prior, today).domains == TrafficUsage(domains, a, c, top + bottom).domains;
  }

  lemma DomainTotalName(domain: string, rows: seq<seq<Cell>>, i: nat)
    ensures DomainTotal(domain, rows, i).domain == domain
  {
  }

  // ---- Conservation: summing by domain equals summing by bucket ----

  lemma {:induction false} AccountIsBucketSum(domains: seq<string>, start: int, end: int, rows: seq<seq<Cell>>)
    requires forall p :: 0 <= p < |rows| ==> |rows[p]| == |domains|
    ensures TrafficUsage(domains, start, end, rows).accountBytes == Sum(Totals(rows))
  {
    if |rows| == 0 {
      ZeroAccount(domains, start, end, rows);
    } else {
      var init, last := rows[..|rows| - 1], rows[|rows| - 1];
      assert rows == init + [last];
      AccountIsBucketSum(domains, start, end, init);
      ColumnConcat(init, [last], 0);
      assert Totals([last]) == [RowTotal(last)];
      SumAppend(Totals(init), RowTotal(last));
      AccountStep(domains, start, end, init, last);
    }
  }

  lemma ZeroAccount(domains: seq<string>, start: int, end: int, rows: seq<seq<Cell>>)
    requires |rows| == 0
    ensures TrafficUsage(domains, start, end, rows).accountBytes == 0.0
  {
    SumZeros(DomainBytes(TrafficUsage(domains, start, end, rows).domains));
  }

  lemma AccountStep(domains: seq<string>, start: int, end: int, init: seq<seq<Cell>>, last: seq<Cell>)
    requires |last| == |domains|
    ensures TrafficUsage(domains, start, end, init + [last]).accountBytes
         == TrafficUsage(domains, start, end, init).accountBytes + RowTotal(last)
  {
    hide Sum;
    var before := DomainBytes(TrafficUsage(domains, start, end, init).domains);
    var after := DomainBytes(TrafficUsage(domains, start, end, init + [last]).domains);
    forall i: nat | i < |domains|
      ensures after[i] == before[i] + RowValues(last)[i]
    {
      ColumnConcat(init, [last], i);
      assert ChinaColumn([last], i) == [last[i].china];
      assert OverseaColumn([last], i) == [last[i].oversea];
      SumAppend(ChinaColumn(init, i), last[i].china);
      SumAppend(OverseaColumn(init, i), last[i].oversea);
    }
    SumPointwise(before, RowValues(last), after);
  }
}
