/** The whole-account usage snapshot: hour, today, month to date and the days of the month (internal/app/cdn.go). */
module UsageSnapshot {
  import opened Core
  import opened Clock
  import opened UsagePoints
  import opened Usage
  import opened UsageAggregation
  import opened TrafficAggregation
  import opened CdnMerge
  import opened MonitoringRound
  import opened UsageReports

  datatype Period = LastCompleteHour | Today | CurrentMonth
  datatype PeriodSnapshot = PeriodSnapshot(
    period: Period, traffic: TrafficAggregate, bandwidth: BandwidthAggregate, hasBandwidth: bool, complete: bool)
  datatype DailyTraffic = DailyTraffic(day: int, bytes: real)
  datatype Snapshot = Snapshot(periods: seq<PeriodSnapshot>, dailyTraffic: seq<DailyTraffic>)

  /** What the month part of a snapshot is built from, and which parts are wanted. */
  datatype Month = Month(
    prior: seq<Batch>, priorBandwidth: BandwidthAggregate, complete: bool, includeTraffic: bool, includeBandwidth: bool)

  const NO_BANDWIDTH: BandwidthAggregate := BandwidthAggregate(ZERO_TIME, ZERO_TIME, 0, [], 0.0, ZERO_TIME)

  function ZeroTraffic(domains: seq<string>, at: int): TrafficAggregate {
    TrafficAggregate(at, at, 0, seq(|domains|, i requires 0 <= i < |domains| => DomainTraffic(domains[i], 0.0, 0.0, 0.0, false)), 0.0)
  }

  // ---- The meaning of each part ----

  function TrafficOf(batches: seq<Batch>, g: Granularity, start: int, end: int): TrafficAggregate
    requires start <= end
  {
    TrafficUsage(Domains(batches), start, end, Rows(batches, g, start, end))
  }

  function BandwidthOver(batches: seq<Batch>, start: int, end: int): BandwidthAggregate
    requires start <= end
  {
    BandwidthUsage(Domains(batches), start, end, Rows(batches, FiveMinutes, start, end))
  }

  function HourEnd(dataEnd: int): int { Truncate(dataEnd, HOUR) }
  function HourStart(dataEnd: int): int { HourEnd(dataEnd) - HOUR }

  function TodayTraffic(round: UsageRound, today: int, dataEnd: int): TrafficAggregate {
    if today < dataEnd then TrafficOf(round.traffic, FiveMinutes, today, dataEnd) else ZeroTraffic(Domains(round.traffic), today)
  }

  function TodayBandwidth(round: UsageRound, today: int, dataEnd: int): BandwidthAggregate {
    if today < dataEnd then BandwidthOver(round.bandwidth, today, dataEnd) else NO_BANDWIDTH
  }

  datatype Current = Current(traffic: TrafficAggregate, bandwidth: BandwidthAggregate)

  function HourUsage(round: UsageRound, dataEnd: int): Current {
    Current(TrafficOf(round.traffic, FiveMinutes, HourStart(dataEnd), HourEnd(dataEnd)),
            BandwidthOver(round.bandwidth, HourStart(dataEnd), HourEnd(dataEnd)))
  }

  ghost predicate IsMonthTraffic(m: TrafficAggregate, prior: seq<Batch>, todayTraffic: TrafficAggregate, today: int) {
    if MonthStart(today) < today
    then
      var priorTraffic := TrafficOf(prior, Day, MonthStart(today), today);
      SameTrafficDomains(priorTraffic, todayTraffic) && m == MergedTraffic(priorTraffic, todayTraffic)
    else m == todayTraffic
  }

  ghost predicate IsMonthBandwidth(b: BandwidthAggregate, month: Month, todayBandwidth: BandwidthAggregate, hasToday: bool) {
    if !month.includeBandwidth then b == todayBandwidth
    else if hasToday then MergedBandwidth(month.priorBandwidth, todayBandwidth) == Success(b)
    else b == month.priorBandwidth
  }

  /** The completed days of the month, one entry each, and today. */
  function DailyOf(prior: seq<Batch>, todayBytes: real, start: int, today: int): seq<DailyTraffic>
    decreases today - start
  {
    if start >= today then [DailyTraffic(DayNumber(today), todayBytes)]
    else
      var first := DailyTraffic(DayNumber(start), TrafficOf(prior, Day, start, start + DAY).accountBytes);
      [first] + DailyOf(prior, todayBytes, start + DAY, today)
  }

  ghost predicate IsMonth(p: PeriodSnapshot, round: UsageRound, month: Month, today: int, dataEnd: int) {
    && p.period == CurrentMonth && p.complete == month.complete
    && IsMonthTraffic(p.traffic, month.prior, TodayTraffic(round, today, dataEnd), today)
    && IsMonthBandwidth(p.bandwidth, month, TodayBandwidth(round, today, dataEnd), today < dataEnd)
    && p.hasBandwidth == (month.includeBandwidth && p.bandwidth.bucketCount > 0)
  }

  ghost predicate IsSnapshot(s: Snapshot, round: UsageRound, month: Month, today: int, dataEnd: int) {
    var hour, traffic, bandwidth := HourUsage(round, dataEnd), TodayTraffic(round, today, dataEnd), TodayBandwidth(round, today, dataEnd);
    && |s.periods| == (if month.includeTraffic then 3 else 2)
    && s.periods[0] == PeriodSnapshot(LastCompleteHour, hour.traffic, hour.bandwidth, true, month.complete)
    && s.periods[1] == PeriodSnapshot(Today, traffic, bandwidth, today < dataEnd, month.complete)
    && (month.includeTraffic ==> IsMonth(s.periods[2], round, month, today, dataEnd))
    && s.dailyTraffic ==
         (if month.complete && month.includeTraffic then DailyOf(month.prior, traffic.accountBytes, MonthStart(today), today) else [])
  }

  ghost predicate HourCovered(round: UsageRound, dataEnd: int) {
    && ValidBatches(round.traffic, FiveMinutes, HourStart(dataEnd), HourEnd(dataEnd))
    && ValidBatches(round.bandwidth, FiveMinutes, HourStart(dataEnd), HourEnd(dataEnd))
  }

  ghost predicate TodayCovered(round: UsageRound, today: int, dataEnd: int) {
    today < dataEnd ==>
      ValidBatches(round.traffic, FiveMinutes, today, dataEnd) && ValidBatches(round.bandwidth, FiveMinutes, today, dataEnd)
  }

  ghost predicate MonthCovered(round: UsageRound, month: Month, today: int, dataEnd: int) {
    && (month.includeTraffic && MonthStart(today) < today ==>
          ValidBatches(month.prior, Day, MonthStart(today), today) && Domains(month.prior) == Domains(round.traffic))
    && (month.includeTraffic && month.complete ==> DaysValid(month.prior, MonthStart(today), today))
    && (month.includeBandwidth && today < dataEnd ==>
          MergedBandwidth(month.priorBandwidth, TodayBandwidth(round, today, dataEnd)).Success?)
  }

  /** Coverage and alignment of everything the snapshot aggregates; overflow is the only other way to fail. */
  ghost predicate Covered(round: UsageRound, month: Month, today: int, dataEnd: int) {
    HourCovered(round, dataEnd) && TodayCovered(round, today, dataEnd) && MonthCovered(round, month, today, dataEnd)
  }

  ghost predicate DaysValid(prior: seq<Batch>, start: int, today: int)
    decreases today - start
  {
    start < today ==> ValidBatches(prior, Day, start, start + DAY) && DaysValid(prior, start + DAY, today)
  }

  // ---- No overflow ----

  ghost predicate BothFinite(round: UsageRound, start: int, end: int)
    requires start <= end
  {
    TrafficOf(round.traffic, FiveMinutes, start, end).accountBytes <= MAX_FINITE && BandwidthFinite(Rows(round.bandwidth, FiveMinutes, start, end))
  }

  ghost predicate MonthFinite(prior: seq<Batch>, todayTraffic: TrafficAggregate, today: int) {
    MonthStart(today) < today ==>
      var completed := TrafficOf(prior, Day, MonthStart(today), today);
      && completed.accountBytes <= MAX_FINITE
      && (SameTrafficDomains(completed, todayTraffic) ==> MergedTraffic(completed, todayTraffic).accountBytes <= MAX_FINITE)
  }

  ghost predicate DaysFinite(prior: seq<Batch>, start: int, today: int)
    decreases today - start
  {
    start < today ==> TrafficOf(prior, Day, start, start + DAY).accountBytes <= MAX_FINITE && DaysFinite(prior, start + DAY, today)
  }

  /** No account total of anything the snapshot aggregates exceeds the largest finite number. */
  ghost predicate AllFinite(round: UsageRound, month: Month, today: int, dataEnd: int) {
    && BothFinite(round, HourStart(dataEnd), HourEnd(dataEnd)) && (today < dataEnd ==> BothFinite(round, today, dataEnd))
    && (month.includeTraffic ==> MonthFinite(month.prior, TodayTraffic(round, today, dataEnd), today))
    && (month.includeTraffic && month.complete ==> DaysFinite(month.prior, MonthStart(today), today))
  }

  // ---- The same in the responses' own values ----

  /** The latest complete clock hour before the data end: flow responses summed, bandwidth responses at their peaks. */
  ghost predicate HourReports(p: PeriodSnapshot, round: UsageRound, dataEnd: int) {
    var end := dataEnd - dataEnd % 3_600_000_000_000;
    && p.period == LastCompleteHour && p.hasBandwidth
    && AllReportTraffic(p.traffic, round.traffic, end - 3_600_000_000_000, end)
    && AllReportPeaks(p.bandwidth, round.bandwidth, end - 3_600_000_000_000, end)
  }

  /** Today up to the data end; every domain at zero while today has no data. */
  ghost predicate TodayReports(p: PeriodSnapshot, round: UsageRound, today: int, dataEnd: int) {
    && p.period == Today && p.hasBandwidth == (today < dataEnd)
    && if today < dataEnd
       then AllReportTraffic(p.traffic, round.traffic, today, dataEnd) && AllReportPeaks(p.bandwidth, round.bandwidth, today, dataEnd)
       else p.traffic.accountBytes == 0.0 && forall i :: 0 <= i < |p.traffic.domains| ==> p.traffic.domains[i].bytes == 0.0
  }

  /** Month to date: the day responses of the completed days, plus today. */
  ghost predicate MonthReports(p: PeriodSnapshot, current: TrafficAggregate, prior: seq<Batch>, today: int) {
    && p.period == CurrentMonth
    && if MonthStart(today) < today
       then exists completed: TrafficAggregate :: AllReportTraffic(completed, prior, MonthStart(today), today) && AddsUp(p.traffic, completed, current)
       else p.traffic == current
  }

  predicate AddsUp(sum: TrafficAggregate, a: TrafficAggregate, b: TrafficAggregate) {
    && |sum.domains| == |a.domains| == |b.domains|
    && forall i :: 0 <= i < |sum.domains| ==>
         && sum.domains[i].domain == a.domains[i].domain == b.domains[i].domain
         && sum.domains[i].china == a.domains[i].china + b.domains[i].china
         && sum.domains[i].oversea == a.domains[i].oversea + b.domains[i].oversea
  }

  /** One day's bytes: what the day responses report for that day alone, over all domains. */
  ghost predicate DayReports(bytes: real, prior: seq<Batch>, day: int) {
    exists t: TrafficAggregate :: AllReportTraffic(t, prior, day, day + DAY) && bytes == t.accountBytes
  }

  /** One entry for every day from the first of the month on, the last one for today. */
  ghost predicate DaysReport(days: seq<DailyTraffic>, prior: seq<Batch>, todayBytes: real, start: int, today: int) {
    && |days| == DayNumber(today) - DayNumber(start) + 1 && |days| > 0
    && (forall i :: 0 <= i < |days| ==> days[i].day == DayNumber(start) + i)
    && (forall i :: 0 <= i < |days| - 1 ==> DayReports(days[i].bytes, prior, start + i * DAY))
    && days[|days| - 1].bytes == todayBytes
  }

  /** The bandwidth of the month so far: what the cache holds for the completed days, merged with today once it has data. */
  ghost predicate MonthBandwidthReports(p: PeriodSnapshot, current: PeriodSnapshot, month: Month, hasToday: bool) {
    && (p.hasBandwidth <==> month.includeBandwidth && p.bandwidth.bucketCount > 0)
    && (month.includeBandwidth && !hasToday ==> p.bandwidth == month.priorBandwidth)
    && (month.includeBandwidth && hasToday ==> MergedBandwidth(month.priorBandwidth, current.bandwidth) == Success(p.bandwidth))
  }

  /** Everything a snapshot says, without naming the functions that compute it. */
  ghost predicate SnapshotReports(s: Snapshot, round: UsageRound, month: Month, today: int, dataEnd: int) {
    && |s.periods| == (if month.includeTraffic then 3 else 2)
    && (forall i :: 0 <= i < |s.periods| ==> s.periods[i].complete == month.complete)
    && HourReports(s.periods[0], round, dataEnd) && TodayReports(s.periods[1], round, today, dataEnd)
    && (month.includeTraffic ==>
          MonthReports(s.periods[2], s.periods[1].traffic, month.prior, today)
          && MonthBandwidthReports(s.periods[2], s.periods[1], month, today < dataEnd))
    && if month.complete && month.includeTraffic
       then DaysReport(s.dailyTraffic, month.prior, s.periods[1].traffic.accountBytes, MonthStart(today), today)
       else s.dailyTraffic == []
  }

  lemma TrafficOfReports(batches: seq<Batch>, g: Granularity, start: int, end: int)
    requires ValidBatches(batches, g, start, end)
    ensures AllReportTraffic(TrafficOf(batches, g, start, end), batches, start, end)
  {
    hide Rows, AllReportTraffic, Sum, DomainTotal;
    TrafficReports(batches, g, start, end);
  }

  lemma {:induction false} DailyOfReports(prior: seq<Batch>, todayBytes: real, start: int, today: int)
    requires start <= today && IsMidnight(start) && IsMidnight(today) && DaysValid(prior, start, today)
    ensures DaysReport(DailyOf(prior, todayBytes, start, today), prior, todayBytes, start, today)
    decreases today - start
  {
    hide ValidBatches, TrafficOf, DayReports, Sum;
    if start < today {
      var first, rest := TrafficOf(prior, Day, start, start + DAY), DailyOf(prior, todayBytes, start + DAY, today);
      var days := DailyOf(prior, todayBytes, start, today);
      NextMidnight(start, today);
      DailyOfReports(prior, todayBytes, start + DAY, today);
      FirstDayReports(prior, start);
      forall i | 0 <= i < |days| - 1
        ensures DayReports(days[i].bytes, prior, start + i * DAY)
      {
        if i > 0 {
          assert DayReports(rest[i - 1].bytes, prior, start + DAY + (i - 1) * DAY);
        }
      }
    }
  }

  lemma NextMidnight(start: int, today: int)
    requires IsMidnight(start) && IsMidnight(today) && start < today
    ensures start + DAY <= today && IsMidnight(start + DAY) && DayNumber(start + DAY) == DayNumber(start) + 1
  {
  }

  lemma FirstDayReports(prior: seq<Batch>, start: int)
    requires ValidBatches(prior, Day, start, start + DAY)
    ensures DayReports(TrafficOf(prior, Day, start, start + DAY).accountBytes, prior, start)
  {
    hide ValidBatches, TrafficOf, AllReportTraffic, Sum;
    TrafficOfReports(prior, Day, start, start + DAY);
  }

  lemma HourIsReported(p: PeriodSnapshot, round: UsageRound, dataEnd: int)
    requires HourCovered(round, dataEnd) && p.period == LastCompleteHour && p.hasBandwidth
    requires p.traffic == HourUsage(round, dataEnd).traffic && p.bandwidth == HourUsage(round, dataEnd).bandwidth
    ensures HourReports(p, round, dataEnd)
  {
    hide ValidBatches, Rows, AllReportTraffic, AllReportPeaks, TrafficUsage, BandwidthUsage;
    TrafficOfReports(round.traffic, FiveMinutes, HourStart(dataEnd), HourEnd(dataEnd));
    PeaksReport(round.bandwidth, HourStart(dataEnd), HourEnd(dataEnd));
  }

  lemma TodayIsReported(p: PeriodSnapshot, round: UsageRound, today: int, dataEnd: int)
    requires TodayCovered(round, today, dataEnd) && p.period == Today && p.hasBandwidth == (today < dataEnd)
    requires p.traffic == TodayTraffic(round, today, dataEnd) && p.bandwidth == TodayBandwidth(round, today, dataEnd)
    ensures TodayReports(p, round, today, dataEnd)
  {
    hide ValidBatches, Rows, AllReportTraffic, AllReportPeaks, TrafficUsage, BandwidthUsage;
    if today < dataEnd {
      TrafficOfReports(round.traffic, FiveMinutes, today, dataEnd);
      PeaksReport(round.bandwidth, today, dataEnd);
    }
  }

  lemma MonthIsReported(p: PeriodSnapshot, round: UsageRound, month: Month, today: int, dataEnd: int)
    requires IsMonth(p, round, month, today, dataEnd)
    requires MonthStart(today) < today ==> ValidBatches(month.prior, Day, MonthStart(today), today)
    ensures MonthReports(p, TodayTraffic(round, today, dataEnd), month.prior, today)
  {
    hide ValidBatches, AllReportTraffic, TrafficOf, TodayTraffic, MonthStart, IsMonthBandwidth, Sum;
    if MonthStart(today) < today {
      TrafficOfReports(month.prior, Day, MonthStart(today), today);
      assert AddsUp(p.traffic, TrafficOf(month.prior, Day, MonthStart(today), today), TodayTraffic(round, today, dataEnd));
    }
  }

  lemma PeriodsAre(s: Snapshot, round: UsageRound, month: Month, today: int, dataEnd: int)
    requires IsSnapshot(s, round, month, today, dataEnd) && Covered(round, month, today, dataEnd) && IsMidnight(today)
    ensures |s.periods| == (if month.includeTraffic then 3 else 2)
    ensures s.periods[0].complete == s.periods[1].complete == month.complete
    ensures HourReports(s.periods[0], round, dataEnd) && TodayReports(s.periods[1], round, today, dataEnd)
    ensures s.periods[1].traffic == TodayTraffic(round, today, dataEnd) && s.periods[1].bandwidth == TodayBandwidth(round, today, dataEnd)
  {
    hide HourCovered, TodayCovered, HourUsage, TodayTraffic, TodayBandwidth, IsMonth, HourReports, TodayReports, DailyOf, DaysValid,
         MonthStart, ValidBatches, IsMidnight;
    HourIsReported(s.periods[0], round, dataEnd);
    TodayIsReported(s.periods[1], round, today, dataEnd);
  }

  lemma DaysAre(s: Snapshot, round: UsageRound, month: Month, today: int, dataEnd: int)
    requires IsSnapshot(s, round, month, today, dataEnd) && Covered(round, month, today, dataEnd) && IsMidnight(today)
    ensures if month.complete && month.includeTraffic
            then DaysReport(s.dailyTraffic, month.prior, TodayTraffic(round, today, dataEnd).accountBytes, MonthStart(today), today)
            else s.dailyTraffic == []
  {
    MonthStartProperties(today);
    hide HourCovered, TodayCovered, HourUsage, TodayTraffic, TodayBandwidth, IsMonth, DaysReport, DailyOf, DaysValid, MonthStart, ValidBatches,
         IsMidnight;
    if month.complete && month.includeTraffic {
      DailyOfReports(month.prior, TodayTraffic(round, today, dataEnd).accountBytes, MonthStart(today), today);
    }
  }

  /** Main law of the snapshot: hour, today, month and days say what the responses report for them. */
  lemma SnapshotIsReported(s: Snapshot, round: UsageRound, month: Month, today: int, dataEnd: int)
    requires IsSnapshot(s, round, month, today, dataEnd) && Covered(round, month, today, dataEnd) && IsMidnight(today)
    ensures SnapshotReports(s, round, month, today, dataEnd)
  {
    hide HourCovered, TodayCovered, HourUsage, TodayTraffic, TodayBandwidth, IsMonth, HourReports, TodayReports, MonthReports, DaysReport,
         MonthBandwidthReports, DailyOf, DaysValid, MonthStart, ValidBatches, IsMidnight;
    PeriodsAre(s, round, month, today, dataEnd);
    DaysAre(s, round, month, today, dataEnd);
    if month.includeTraffic {
      MonthIsReported(s.periods[2], round, month, today, dataEnd);
      MonthIsComplete(s.periods[2], round, month, today, dataEnd, s.periods[1]);
    }
  }

  lemma MonthIsComplete(p: PeriodSnapshot, round: UsageRound, month: Month, today: int, dataEnd: int, current: PeriodSnapshot)
    requires IsMonth(p, round, month, today, dataEnd) && current.bandwidth == TodayBandwidth(round, today, dataEnd)
    ensures p.complete == month.complete && MonthBandwidthReports(p, current, month, today < dataEnd)
  {
    hide IsMonthTraffic, TodayBandwidth, MergedBandwidth;
  }

  // ---- Building it ----

  method BuildDailyTraffic(prior: seq<Batch>, todayBytes: real, monthStart: int, today: int)
    returns (r: Result<seq<DailyTraffic>, Error>)
    requires monthStart <= today
    ensures r.Success? <==> DaysValid(prior, monthStart, today) && DaysFinite(prior, monthStart, today)
    ensures r.Success? ==> r.value == DailyOf(prior, todayBytes, monthStart, today)
    ensures DaysValid(prior, monthStart, today) && r.Failure? ==> r.error == Overflow
  {
    hide ValidBatches, TrafficUsage, Rows, TrafficOf, DailyOf, DaysValid, DaysFinite;
    var days: seq<DailyTraffic>, start := [], monthStart;
    while start < today
      invariant days + DailyOf(prior, todayBytes, start, today) == DailyOf(prior, todayBytes, monthStart, today)
      invariant DaysValid(prior, monthStart, today) <==> DaysValid(prior, start, today)
      invariant DaysFinite(prior, monthStart, today) <==> DaysFinite(prior, start, today)
      decreases today - start
    {
      DaysStep(prior, todayBytes, start, today);
      var usage := AggregateTrafficUsage(prior, Day, start, start + DAY);
      if usage.Failure? {
        return Failure(usage.error);
      }
      days := days + [DailyTraffic(DayNumber(start), usage.value.accountBytes)];
      start := start + DAY;
    }
    DaysStep(prior, todayBytes, start, today);
    return Success(days + [DailyTraffic(DayNumber(today), todayBytes)]);
  }

  lemma DaysStep(prior: seq<Batch>, todayBytes: real, start: int, today: int)
    ensures var traffic := TrafficUsage(Domains(prior), start, start + DAY, Rows(prior, Day, start, start + DAY));
      if start < today
      then
        && DailyOf(prior, todayBytes, start, today) ==
             [DailyTraffic(DayNumber(start), traffic.accountBytes)] + DailyOf(prior, todayBytes, start + DAY, today)
        && (DaysValid(prior, start, today) <==> ValidBatches(prior, Day, start, start + DAY) && DaysValid(prior, start + DAY, today))
        && (DaysFinite(prior, start, today) <==> traffic.accountBytes <= MAX_FINITE && DaysFinite(prior, start + DAY, today))
      else
        && DailyOf(prior, todayBytes, start, today) == [DailyTraffic(DayNumber(today), todayBytes)]
        && DaysValid(prior, start, today) && DaysFinite(prior, start, today)
  {
    hide ValidBatches, TrafficUsage, Rows;
  }

  lemma NonNegativeUsage(batches: seq<Batch>, g: Granularity, start: int, end: int)
    requires ValidBatches(batches, g, start, end)
    ensures NonNegativeTraffic(TrafficOf(batches, g, start, end))
  {
    hide Aligned, Covers, GridPoints, IndexIn, Row, Sum, Rows;
    var rows := Rows(batches, g, start, end);
    forall i | 0 <= i < |Domains(batches)|
      ensures Sum(ChinaColumn(rows, i)) >= 0.0 && Sum(OverseaColumn(rows, i)) >= 0.0
    {
      ColumnsNonNegative(batches, g, start, end, i);
      SumPrefix(ChinaColumn(rows, i), 0);
      SumPrefix(OverseaColumn(rows, i), 0);
    }
  }

  lemma ColumnsNonNegative(batches: seq<Batch>, g: Granularity, start: int, end: int, i: nat)
    requires ValidBatches(batches, g, start, end) && i < |Domains(batches)|
    ensures NonNegative(ChinaColumn(Rows(batches, g, start, end), i)) && NonNegative(OverseaColumn(Rows(batches, g, start, end), i))
  {
    hide Aligned, Covers, IndexIn, Row;
    forall p | 0 <= p < |GridPoints(g, start, end)|
      ensures NonNegativeRow(Row(batches, g, GridPoints(g, start, end)[p]))
    {
      RowNonNegative(batches, g, start, end, GridPoints(g, start, end)[p]);
    }
  }

  lemma TrafficNames(batches: seq<Batch>, g: Granularity, start: int, end: int)
    requires start <= end
    ensures var usage := TrafficOf(batches, g, start, end);
      |usage.domains| == |Domains(batches)| && forall i :: 0 <= i < |usage.domains| ==> usage.domains[i].domain == Domains(batches)[i]
  {
    hide Sum, Rows;
  }

  /** Two usages of the same domains merge without an alignment error. */
  lemma TodayIsMergeable(round: UsageRound, today: int, dataEnd: int)
    requires today < dataEnd ==> ValidBatches(round.traffic, FiveMinutes, today, dataEnd)
    ensures var traffic, domains := TodayTraffic(round, today, dataEnd), Domains(round.traffic);
      && NonNegativeTraffic(traffic) && |traffic.domains| == |domains|
      && forall i :: 0 <= i < |domains| ==> traffic.domains[i].domain == domains[i]
  {
    if today < dataEnd {
      hide ValidBatches, TrafficOf;
      NonNegativeUsage(round.traffic, FiveMinutes, today, dataEnd);
      TrafficNames(round.traffic, FiveMinutes, today, dataEnd);
    }
  }

  method BuildToday(round: UsageRound, today: int, dataEnd: int) returns (r: Result<Current, Error>)
    ensures r.Success? ==> r.value == Current(TodayTraffic(round, today, dataEnd), TodayBandwidth(round, today, dataEnd))
    ensures r.Success? <==> TodayCovered(round, today, dataEnd) && (today < dataEnd ==> BothFinite(round, today, dataEnd))
    ensures r.Failure? ==> today < dataEnd
    ensures r.Failure? && TodayCovered(round, today, dataEnd) ==> r.error == Overflow
  {
    hide ValidBatches, TrafficUsage, BandwidthUsage, Rows, BandwidthFinite;
    if today < dataEnd {
      var traffic := AggregateTrafficUsage(round.traffic, FiveMinutes, today, dataEnd);
      if traffic.Failure? {
        return Failure(traffic.error);
      }
      var bandwidth := AggregateBandwidthUsage(round.bandwidth, FiveMinutes, today, dataEnd);
      if bandwidth.Failure? {
        return Failure(bandwidth.error);
      }
      return Success(Current(traffic.value, bandwidth.value));
    }
    return Success(Current(ZeroTraffic(Domains(round.traffic), today), NO_BANDWIDTH));
  }

  lemma SameNames(a: TrafficAggregate, b: TrafficAggregate, left: seq<string>, right: seq<string>)
    requires |a.domains| == |left| && forall i :: 0 <= i < |left| ==> a.domains[i].domain == left[i]
    requires |b.domains| == |right| && forall i :: 0 <= i < |right| ==> b.domains[i].domain == right[i]
    ensures SameTrafficDomains(a, b) <==> left == right
  {
    if SameTrafficDomains(a, b) {
      forall i | 0 <= i < |left| ensures left[i] == right[i] { assert a.domains[i].domain == b.domains[i].domain; }
    }
  }

  /** Month-to-date traffic: the completed days plus today. */
  method BuildMonthTraffic(round: UsageRound, prior: seq<Batch>, todayTraffic: TrafficAggregate, today: int, dataEnd: int)
    returns (r: Result<TrafficAggregate, Error>)
    requires todayTraffic == TodayTraffic(round, today, dataEnd)
    requires today < dataEnd ==> ValidBatches(round.traffic, FiveMinutes, today, dataEnd)
    ensures r.Success? ==> IsMonthTraffic(r.value, prior, todayTraffic, today)
    ensures r.Success? <==>
              && (MonthStart(today) < today ==> ValidBatches(prior, Day, MonthStart(today), today) && Domains(prior) == Domains(round.traffic))
              && MonthFinite(prior, todayTraffic, today)
    ensures r.Failure? ==> MonthStart(today) < today
    ensures r.Failure? && ValidBatches(prior, Day, MonthStart(today), today) && Domains(prior) == Domains(round.traffic) ==>
              r.error == Overflow
  {
    hide ValidBatches, TrafficUsage, Rows, TodayTraffic, MonthStart;
    if MonthStart(today) < today {
      var priorTraffic := AggregateTrafficUsage(prior, Day, MonthStart(today), today);
      if priorTraffic.Failure? {
        return Failure(priorTraffic.error);
      }
      TodayIsMergeable(round, today, dataEnd);
      NonNegativeUsage(prior, Day, MonthStart(today), today);
      TrafficNames(prior, Day, MonthStart(today), today);
      SameNames(priorTraffic.value, todayTraffic, Domains(prior), Domains(round.traffic));
      r := MergeCdnTrafficUsage(priorTraffic.value, todayTraffic);
      return;
    }
    return Success(todayTraffic);
  }

  method BuildMonthBandwidth(month: Month, todayBandwidth: BandwidthAggregate, hasToday: bool)
    returns (r: Result<BandwidthAggregate, Error>)
    ensures r.Success? ==> IsMonthBandwidth(r.value, month, todayBandwidth, hasToday)
    ensures r.Failure? <==>
              month.includeBandwidth && hasToday && MergedBandwidth(month.priorBandwidth, todayBandwidth).Failure?
  {
    if month.includeBandwidth {
      if hasToday {
        r := MergeCdnBandwidthUsage(month.priorBandwidth, todayBandwidth);
        return;
      }
      return Success(month.priorBandwidth);
    }
    return Success(todayBandwidth);
  }

  method BuildHour(round: UsageRound, dataEnd: int) returns (r: Result<Current, Error>)
    ensures r.Success? <==> HourCovered(round, dataEnd) && BothFinite(round, HourStart(dataEnd), HourEnd(dataEnd))
    ensures r.Success? ==> r.value == HourUsage(round, dataEnd)
    ensures r.Failure? && HourCovered(round, dataEnd) ==> r.error == Overflow
  {
    hide ValidBatches, TrafficUsage, BandwidthUsage, Rows, BandwidthFinite;
    var hourEnd := Truncate(dataEnd, HOUR);
    var hourStart := hourEnd - HOUR;
    var traffic := AggregateTrafficUsage(round.traffic, FiveMinutes, hourStart, hourEnd);
    if traffic.Failure? {
      return Failure(traffic.error);
    }
    var bandwidth := AggregateBandwidthUsage(round.bandwidth, FiveMinutes, hourStart, hourEnd);
    if bandwidth.Failure? {
      return Failure(bandwidth.error);
    }
    return Success(Current(traffic.value, bandwidth.value));
  }

  /** The month part without its days: covered, finite, and mergeable with today. */
  ghost predicate PartCovered(round: UsageRound, month: Month, today: int, dataEnd: int) {
    && (month.includeTraffic ==>
          && (MonthStart(today) < today ==>
                ValidBatches(month.prior, Day, MonthStart(today), today) && Domains(month.prior) == Domains(round.traffic))
          && MonthFinite(month.prior, TodayTraffic(round, today, dataEnd), today))
    && (month.includeBandwidth && today < dataEnd ==>
          MergedBandwidth(month.priorBandwidth, TodayBandwidth(round, today, dataEnd)).Success?)
  }

  method BuildMonth(round: UsageRound, month: Month, current: Current, today: int, dataEnd: int)
    returns (r: Result<PeriodSnapshot, Error>)
    requires current == Current(TodayTraffic(round, today, dataEnd), TodayBandwidth(round, today, dataEnd))
    requires today < dataEnd ==> ValidBatches(round.traffic, FiveMinutes, today, dataEnd)
    ensures r.Success? && month.includeTraffic ==> IsMonth(r.value, round, month, today, dataEnd)
    ensures r.Success? <==> PartCovered(round, month, today, dataEnd)
    ensures r.Failure? && MonthCovered(round, month, today, dataEnd) ==> r.error == Overflow
  {
    hide ValidBatches, MergedBandwidth, IsMonthTraffic, IsMonthBandwidth, TodayTraffic, TodayBandwidth, DaysValid, MonthStart;
    var monthTraffic := current.traffic;
    if month.includeTraffic {
      var merged := BuildMonthTraffic(round, month.prior, current.traffic, today, dataEnd);
      if merged.Failure? {
        return Failure(merged.error);
      }
      monthTraffic := merged.value;
    }
    var monthBandwidth := BuildMonthBandwidth(month, current.bandwidth, today < dataEnd);
    if monthBandwidth.Failure? {
      return Failure(monthBandwidth.error);
    }
    return Success(PeriodSnapshot(CurrentMonth, monthTraffic, monthBandwidth.value,
                                  month.includeBandwidth && monthBandwidth.value.bucketCount > 0, month.complete));
  }

  function Assemble(hour: Current, current: Current, hasToday: bool, month: Month, monthToDate: PeriodSnapshot,
                    days: seq<DailyTraffic>): Snapshot
  {
    var periods := [
      PeriodSnapshot(LastCompleteHour, hour.traffic, hour.bandwidth, true, month.complete),
      PeriodSnapshot(Today, current.traffic, current.bandwidth, hasToday, month.complete)];
    Snapshot(if month.includeTraffic then periods + [monthToDate] else periods, days)
  }

  lemma AssembledIsSnapshot(hour: Current, current: Current, monthToDate: PeriodSnapshot, days: seq<DailyTraffic>,
                            round: UsageRound, month: Month, today: int, dataEnd: int)
    requires MonthStart(today) <= today
    requires hour == HourUsage(round, dataEnd)
    requires current == Current(TodayTraffic(round, today, dataEnd), TodayBandwidth(round, today, dataEnd))
    requires month.includeTraffic ==> IsMonth(monthToDate, round, month, today, dataEnd)
    requires if month.complete && month.includeTraffic
             then days == DailyOf(month.prior, current.traffic.accountBytes, MonthStart(today), today) else days == []
    ensures IsSnapshot(Assemble(hour, current, today < dataEnd, month, monthToDate, days), round, month, today, dataEnd)
  {
    hide HourUsage, IsMonth, TodayTraffic, TodayBandwidth, DailyOf, MonthStart;
  }

  method BuildCdnUsageSnapshot(round: UsageRound, month: Month, w: Window) returns (r: Result<Snapshot, Error>)
    requires IsMidnight(w.todayStart)
    ensures r.Success? ==>
              && round.dataEnd.Some? && round.dataEnd.value <= w.safeBefore
              && IsSnapshot(r.value, round, month, w.todayStart, round.dataEnd.value)
              && HourCovered(round, round.dataEnd.value)
              && SnapshotReports(r.value, round, month, w.todayStart, round.dataEnd.value)
    ensures r.Success? <==>
              && |round.bandwidth| > 0 && |round.traffic| > 0 && round.dataEnd.Some? && round.dataEnd.value <= w.safeBefore
              && Covered(round, month, w.todayStart, round.dataEnd.value) && AllFinite(round, month, w.todayStart, round.dataEnd.value)
    ensures var ready := |round.bandwidth| > 0 && |round.traffic| > 0 && round.dataEnd.Some? && round.dataEnd.value <= w.safeBefore;
      r.Failure? && ready && Covered(round, month, w.todayStart, round.dataEnd.value) ==> r.error == Overflow
  {
    MonthStartProperties(w.todayStart);
    hide ValidBatches, HourUsage, IsMonth, HourCovered, TodayTraffic, TodayBandwidth, DailyOf, DaysValid, MonthStart, MergedBandwidth,
         IsSnapshot, Assemble, SnapshotReports;
    if |round.bandwidth| == 0 || |round.traffic| == 0 {
      return Failure(InvalidInput);
    }
    if round.dataEnd.None? || round.dataEnd.value > w.safeBefore {
      return Failure(InvalidInput);
    }
    var dataEnd, today := round.dataEnd.value, w.todayStart;
    var hour := BuildHour(round, dataEnd);
    if hour.Failure? {
      return Failure(hour.error);
    }
    var current := BuildToday(round, today, dataEnd);
    if current.Failure? {
      return Failure(current.error);
    }
    var monthToDate := BuildMonth(round, month, current.value, today, dataEnd);
    if monthToDate.Failure? {
      return Failure(monthToDate.error);
    }
    var days: seq<DailyTraffic> := [];
    if month.complete && month.includeTraffic {
      var daily := BuildDailyTraffic(month.prior, current.value.traffic.accountBytes, MonthStart(today), today);
      if daily.Failure? {
        return Failure(daily.error);
      }
      days := daily.value;
    }
    AssembledIsSnapshot(hour.value, current.value, monthToDate.value, days, round, month, today, dataEnd);
    SnapshotIsReported(Assemble(hour.value, current.value, today < dataEnd, month, monthToDate.value, days), round, month, today, dataEnd);
    return Success(Assemble(hour.value, current.value, today < dataEnd, month, monthToDate.value, days));
  }
}
