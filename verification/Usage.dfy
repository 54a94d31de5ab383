/** Validation and aggregation of usage responses (internal/qiniu/cdn/usage.go). */
module Usage {
  import opened Core
  import opened Clock
  import opened UsagePoints

  /** The largest finite float64; sums above it are the source's overflow error. */
  const MAX_FINITE: real := 179769313486231570814527423731704356798070567525844996598917476803157260780028538760589558632766878171540458953514382464234321326889464182768467546703537516986049910576551282076245490090389328944075868508455133942304583236903222948165808559332123347764797926207244723168738177180919299881250404026184124858368.0

  const MAX_DOMAINS: nat := 50
  const BUSINESS_OK: int := 200

  datatype Series = Series(china: seq<real>, oversea: seq<real>)
  datatype Response = Response(code: int, times: seq<int>, data: map<string, Series>)
  datatype Batch = Batch(domains: seq<string>, response: Response)

  /** One domain's two regional values in one bucket. */
  datatype Cell = Cell(domain: string, china: real, oversea: real)

  datatype DomainTraffic = DomainTraffic(domain: string, china: real, oversea: real, bytes: real, active: bool)
  datatype TrafficAggregate = TrafficAggregate(
    periodStart: int, periodEnd: int, bucketCount: nat, domains: seq<DomainTraffic>, accountBytes: real)

  datatype DomainBandwidth = DomainBandwidth(domain: string, peak: real, peakAt: int, active: bool)
  datatype BandwidthAggregate = BandwidthAggregate(
    periodStart: int, periodEnd: int, bucketCount: nat, domains: seq<DomainBandwidth>,
    accountPeak: real, accountPeakAt: int)

  // ---- What a valid set of batches is ----

  predicate ValidSeries(values: seq<real>, want: nat) {
    |values| == 0 || (|values| == want && forall i :: 0 <= i < |values| ==> 0.0 <= values[i] <= MAX_FINITE)
  }

  predicate ValidDomains(domains: seq<string>) {
    1 <= |domains| <= MAX_DOMAINS && NoDuplicates(domains)
  }

  predicate ValidResponse(r: Response, domains: seq<string>, g: Granularity) {
    && r.code == BUSINESS_OK
    && (forall d :: d in r.data ==> d in domains)
    && IsGrid(r.times, g)
    && forall d :: d in domains && d in r.data ==>
         ValidSeries(r.data[d].china, |r.times|) && ValidSeries(r.data[d].oversea, |r.times|)
  }

  ghost predicate ValidBatch(b: Batch, g: Granularity, start: int, end: int) {
    ValidDomains(b.domains) && ValidResponse(b.response, b.domains, g) && Covers(b.response.times, g, start, end)
  }

  /** The domains of all batches, in request order. */
  function Domains(batches: seq<Batch>): seq<string> {
    if |batches| == 0 then [] else Domains(batches[..|batches| - 1]) + batches[|batches| - 1].domains
  }

  ghost predicate ValidBatches(batches: seq<Batch>, g: Granularity, start: int, end: int) {
    && |batches| > 0
    && ValidPeriod(g, start, end)
    && (forall b :: 0 <= b < |batches| ==> ValidBatch(batches[b], g, start, end))
    && NoDuplicates(Domains(batches))
  }

  // ---- The usage table: one row per bucket, one cell per requested domain ----

  /** An omitted domain, and an empty series, count as zero. */
  function OptionalSeriesValue(values: seq<real>, index: int): real {
    if 0 <= index < |values| then values[index] else 0.0
  }

  function CellAt(r: Response, d: string, index: int): Cell {
    if d in r.data
    then Cell(d, OptionalSeriesValue(r.data[d].china, index), OptionalSeriesValue(r.data[d].oversea, index))
    else Cell(d, 0.0, 0.0)
  }

  function CellAtTime(r: Response, g: Granularity, d: string, t: int): Cell {
    CellAt(r, d, if |r.times| == 0 then 0 else IndexIn(r.times, g, t))
  }

  function BatchRow(b: Batch, g: Granularity, t: int): seq<Cell> {
    seq(|b.domains|, i requires 0 <= i < |b.domains| => CellAtTime(b.response, g, b.domains[i], t))
  }

  function Row(batches: seq<Batch>, g: Granularity, t: int): (row: seq<Cell>)
    ensures |row| == |Domains(batches)|
  {
    if |batches| == 0 then []
    else Row(batches[..|batches| - 1], g, t) + BatchRow(batches[|batches| - 1], g, t)
  }

  function Rows(batches: seq<Batch>, g: Granularity, start: int, end: int): (rows: seq<seq<Cell>>)
    requires start <= end
    ensures forall p :: 0 <= p < |rows| ==> |rows[p]| == |Domains(batches)|
  {
    var points := GridPoints(g, start, end);
    seq(|points|, p requires 0 <= p < |points| => Row(batches, g, points[p]))
  }

  function Bandwidth(c: Cell): real { c.china + c.oversea }

  function BandwidthOf(row: seq<Cell>, i: nat): real { if i < |row| then Bandwidth(row[i]) else 0.0 }
  function ChinaOf(row: seq<Cell>, i: nat): real { if i < |row| then row[i].china else 0.0 }
  function OverseaOf(row: seq<Cell>, i: nat): real { if i < |row| then row[i].oversea else 0.0 }

  function Column(rows: seq<seq<Cell>>, i: nat): seq<real> {
    seq(|rows|, p requires 0 <= p < |rows| => BandwidthOf(rows[p], i))
  }

  function ChinaColumn(rows: seq<seq<Cell>>, i: nat): seq<real> {
    seq(|rows|, p requires 0 <= p < |rows| => ChinaOf(rows[p], i))
  }

  function OverseaColumn(rows: seq<seq<Cell>>, i: nat): seq<real> {
    seq(|rows|, p requires 0 <= p < |rows| => OverseaOf(rows[p], i))
  }

  function RowValues(row: seq<Cell>): (values: seq<real>)
    ensures |values| == |row|
  {
    seq(|row|, i requires 0 <= i < |row| => Bandwidth(row[i]))
  }

  /** The account value of one bucket: the left-to-right sum over all domains. */
  function RowTotal(row: seq<Cell>): real { Sum(RowValues(row)) }

  function Totals(rows: seq<seq<Cell>>): seq<real> {
    seq(|rows|, p requires 0 <= p < |rows| => RowTotal(rows[p]))
  }

  // ---- What the aggregates mean ----

  /** A peak is the earliest maximum; a domain is active when any bucket is positive. */
  function DomainPeak(domain: string, start: int, values: seq<real>): DomainBandwidth {
    if |values| == 0 then DomainBandwidth(domain, 0.0, ZERO_TIME, false)
    else
      var k := EarliestMax(values);
      DomainBandwidth(domain, values[k], start + k * FIVE_MINUTES, exists j :: 0 <= j < |values| && values[j] > 0.0)
  }

  function BandwidthUsage(domains: seq<string>, start: int, end: int, rows: seq<seq<Cell>>): BandwidthAggregate {
    var account := DomainPeak("", start, Totals(rows));
    BandwidthAggregate(start, end, |rows|,
      seq(|domains|, i requires 0 <= i < |domains| => DomainPeak(domains[i], start, Column(rows, i))),
      account.peak, account.peakAt)
  }

  function DomainTotal(domain: string, rows: seq<seq<Cell>>, i: nat): DomainTraffic {
    var china, oversea := Sum(ChinaColumn(rows, i)), Sum(OverseaColumn(rows, i));
    DomainTraffic(domain, china, oversea, china + oversea, china + oversea > 0.0)
  }

  function DomainBytes(domains: seq<DomainTraffic>): seq<real> {
    seq(|domains|, i requires 0 <= i < |domains| => domains[i].bytes)
  }

  function TrafficUsage(domains: seq<string>, start: int, end: int, rows: seq<seq<Cell>>): TrafficAggregate {
    var perDomain := seq(|domains|, i requires 0 <= i < |domains| => DomainTotal(domains[i], rows, i));
    TrafficAggregate(start, end, |rows|, perDomain, Sum(DomainBytes(perDomain)))
  }

  /** Every account value of the table stays finite. */
  ghost predicate BandwidthFinite(rows: seq<seq<Cell>>) {
    forall p :: 0 <= p < |rows| ==> RowTotal(rows[p]) <= MAX_FINITE
  }

  // ---- Facts about the table ----

  lemma {:induction false} DomainsPrefix(batches: seq<Batch>, k: nat)
    requires k <= |batches|
    ensures |Domains(batches[..k])| <= |Domains(batches)|
    ensures Domains(batches)[..|Domains(batches[..k])|] == Domains(batches[..k])
    decreases |batches|
  {
    if k == |batches| {
      assert batches[..k] == batches;
    } else {
      var init := batches[..|batches| - 1];
      DomainsPrefix(init, k);
      assert init[..k] == batches[..k];
    }
  }

  lemma {:induction false} RowPrefix(batches: seq<Batch>, g: Granularity, t: int, k: nat)
    requires k <= |batches|
    ensures |Domains(batches[..k])| <= |Domains(batches)|
    ensures Row(batches, g, t)[..|Domains(batches[..k])|] == Row(batches[..k], g, t)
    decreases |batches|
  {
    if k == |batches| {
      assert batches[..k] == batches;
    } else {
      var init := batches[..|batches| - 1];
      RowPrefix(init, g, t, k);
      assert init[..k] == batches[..k];
    }
  }

  /** Position of the j-th domain of batch b in the flattened order. */
  function Position(batches: seq<Batch>, b: nat, j: nat): nat
    requires b <= |batches|
  {
    |Domains(batches[..b])| + j
  }

  lemma PositionStep(batches: seq<Batch>, b: nat)
    requires b < |batches|
    ensures Position(batches, b + 1, 0) == Position(batches, b, 0) + |batches[b].domains| <= |Domains(batches)|
  {
    assert batches[..b + 1][..b] == batches[..b];
    DomainsPrefix(batches, b + 1);
  }

  lemma CellPosition(batches: seq<Batch>, g: Granularity, t: int, b: nat, j: nat)
    requires b < |batches| && j < |batches[b].domains|
    ensures Position(batches, b, j) < |Domains(batches)|
    ensures Domains(batches)[Position(batches, b, j)] == batches[b].domains[j]
    ensures Row(batches, g, t)[Position(batches, b, j)] == CellAtTime(batches[b].response, g, batches[b].domains[j], t)
  {
    hide CellAtTime, Domains, Row;
    var next := batches[..b + 1];
    PositionStep(batches, b);
    DomainsPrefix(batches, b + 1);
    RowPrefix(batches, g, t, b + 1);
    LastBatch(batches, g, t, b, j);
    assert Domains(batches)[..|Domains(next)|][Position(batches, b, j)] == Domains(next)[Position(batches, b, j)];
    assert Row(batches, g, t)[..|Domains(next)|][Position(batches, b, j)] == Row(next, g, t)[Position(batches, b, j)];
  }

  lemma LastBatch(batches: seq<Batch>, g: Granularity, t: int, b: nat, j: nat)
    requires b < |batches| && j < |batches[b].domains|
    ensures var next := batches[..b + 1];
      && Position(batches, b, j) < |Domains(next)|
      && Domains(next)[Position(batches, b, j)] == batches[b].domains[j]
      && Row(next, g, t)[Position(batches, b, j)] == CellAtTime(batches[b].response, g, batches[b].domains[j], t)
  {
    hide CellAtTime;
    assert batches[..b + 1][..b] == batches[..b];
    assert BatchRow(batches[b], g, t)[j] == CellAtTime(batches[b].response, g, batches[b].domains[j], t);
  }

  /** The batch and offset a flattened position comes from. */
  lemma {:induction false} PositionExists(batches: seq<Batch>, i: nat) returns (b: nat, j: nat)
    requires i < |Domains(batches)|
    ensures b < |batches| && j < |batches[b].domains| && Position(batches, b, j) == i
    decreases |batches|
  {
    var init := batches[..|batches| - 1];
    if i < |Domains(init)| {
      b, j := PositionExists(init, i);
      assert init[..b] == batches[..b];
    } else {
      b, j := |batches| - 1, i - |Domains(init)|;
    }
  }

  ghost predicate NonNegativeRow(row: seq<Cell>) {
    forall i :: 0 <= i < |row| ==> row[i].china >= 0.0 && row[i].oversea >= 0.0
  }

  lemma ValidCell(b: Batch, g: Granularity, start: int, end: int, d: string, t: int)
    requires ValidBatch(b, g, start, end) && d in b.domains
    ensures CellAtTime(b.response, g, d, t).china >= 0.0 && CellAtTime(b.response, g, d, t).oversea >= 0.0
  {
  }

  lemma RowNonNegative(batches: seq<Batch>, g: Granularity, start: int, end: int, t: int)
    requires ValidBatches(batches, g, start, end)
    ensures NonNegativeRow(Row(batches, g, t)) && NonNegative(RowValues(Row(batches, g, t)))
  {
    forall i | 0 <= i < |Row(batches, g, t)|
      ensures Row(batches, g, t)[i].china >= 0.0 && Row(batches, g, t)[i].oversea >= 0.0
    {
      var b, j := PositionExists(batches, i);
      CellPosition(batches, g, t, b, j);
      ValidCell(batches[b], g, start, end, batches[b].domains[j], t);
    }
  }

  // ---- Validation ----

  datatype Validated = Validated(starts: seq<int>, ranges: seq<Range>, domains: seq<string>)

  lemma ValidDomainsMeans(domains: seq<string>)
    ensures ValidDomains(domains) <==> 1 <= |domains| <= 50 && forall i, j :: 0 <= i < j < |domains| ==> domains[i] != domains[j]
  {
  }

  method ValidateUsageDomains(domains: seq<string>) returns (ok: bool)
    ensures ok <==> ValidDomains(domains)
  {
    if |domains| == 0 || |domains| > MAX_DOMAINS {
      return false;
    }
    var seen: set<string> := {};
    for i := 0 to |domains|
      invariant seen == set k | 0 <= k < i :: domains[k]
      invariant NoDuplicates(domains[..i])
    {
      if domains[i] in seen {
        return false;
      }
      seen := seen + {domains[i]};
    }
    assert domains[..|domains|] == domains;
    return true;
  }

  method ValidateSeries(values: seq<real>, want: nat) returns (ok: bool)
    ensures ok <==> ValidSeries(values, want)
  {
    if |values| == 0 {
      return true;
    }
    if |values| != want {
      return false;
    }
    for i := 0 to |values|
      invariant forall k :: 0 <= k < i ==> 0.0 <= values[k] <= MAX_FINITE
    {
      if values[i] < 0.0 || values[i] > MAX_FINITE {
        return false;
      }
    }
    return true;
  }

  method ValidateUsageResponse(response: Response, domains: seq<string>, g: Granularity) returns (r: Result<seq<int>, Error>)
    ensures r.Success? <==> ValidResponse(response, domains, g)
    ensures r.Success? ==> r.value == response.times
    ensures r.Failure? ==> r.error != Overflow
    ensures response.code != BUSINESS_OK ==> r == Failure(Api(response.code))
  {
    if response.code != BUSINESS_OK {
      return Failure(Api(response.code));
    }
    if exists d :: d in response.data && d !in domains {
      return Failure(SeriesMisaligned);
    }
    var starts := ParseUsagePoints(response.times, g);
    if starts.Failure? {
      return starts;
    }
    for i := 0 to |domains|
      invariant forall k :: 0 <= k < i && domains[k] in response.data ==>
                  ValidSeries(response.data[domains[k]].china, |response.times|)
                  && ValidSeries(response.data[domains[k]].oversea, |response.times|)
    {
      if domains[i] in response.data {
        var china := ValidateSeries(response.data[domains[i]].china, |starts.value|);
        if !china {
          return Failure(InvalidValue);
        }
        var oversea := ValidateSeries(response.data[domains[i]].oversea, |starts.value|);
        if !oversea {
          return Failure(InvalidValue);
        }
      }
    }
    return starts;
  }

  ghost predicate RangeOf(range: Range, b: Batch, g: Granularity, start: int, end: int) {
    && |b.response.times| > 0 && start <= end
    && range.startIndex == IndexIn(b.response.times, g, start)
    && range.startIndex <= range.endIndex <= |b.response.times|
    && range.endIndex - range.startIndex == |GridPoints(g, start, end)|
  }

  /** Accepts one batch's domains unless they are malformed or one of them was already seen. */
  method AcceptDomains(known: seq<string>, more: seq<string>) returns (r: Result<seq<string>, Error>)
    requires NoDuplicates(known)
    ensures r == if ValidDomains(more) && NoDuplicates(known + more) then Success(known + more) else Failure(InvalidInput)
  {
    var valid := ValidateUsageDomains(more);
    if !valid {
      return Failure(InvalidInput);
    }
    var domains := known;
    var seen := set d | d in known :: d;
    for j := 0 to |more|
      invariant domains == known + more[..j] && NoDuplicates(domains)
      invariant forall d :: d in seen <==> d in domains
    {
      if more[j] in seen {
        ghost var again :| 0 <= again < |domains| && domains[again] == more[j];
        assert (known + more)[again] == (known + more)[|known| + j];
        return Failure(InvalidInput);
      }
      seen := seen + {more[j]};
      domains := domains + [more[j]];
    }
    assert more[..|more|] == more;
    return Success(domains);
  }

  /** Validates one response and locates the period on its own axis. */
  method SelectPeriod(batch: Batch, g: Granularity, start: int, end: int) returns (r: Result<(seq<int>, Range), Error>)
    ensures r.Success? <==>
              ValidResponse(batch.response, batch.domains, g) && ValidPeriod(g, start, end)
              && Covers(batch.response.times, g, start, end)
    ensures r.Success? ==> r.value.0 == GridPoints(g, start, end) && RangeOf(r.value.1, batch, g, start, end)
    ensures r.Failure? ==> r.error != Overflow
  {
    var points := ValidateUsageResponse(batch.response, batch.domains, g);
    if points.Failure? {
      return Failure(points.error);
    }
    var selected := UsagePeriodIndexes(points.value, g, start, end);
    if selected.Failure? {
      return Failure(selected.error);
    }
    return Success((points.value[selected.value.startIndex..selected.value.endIndex], selected.value));
  }

  ghost predicate IsValidated(v: Validated, batches: seq<Batch>, g: Granularity, start: int, end: int) {
    && start <= end
    && v.starts == GridPoints(g, start, end)
    && v.domains == Domains(batches)
    && |v.ranges| == |batches|
    && forall b :: 0 <= b < |batches| ==> RangeOf(v.ranges[b], batches[b], g, start, end)
  }

  method ValidateUsageBatches(batches: seq<Batch>, g: Granularity, start: int, end: int)
    returns (r: Result<Validated, Error>)
    ensures r.Success? <==> ValidBatches(batches, g, start, end)
    ensures r.Success? ==> IsValidated(r.value, batches, g, start, end)
    ensures r.Failure? ==> r.error != Overflow
    ensures |batches| == 0 ==> r == Failure(InvalidInput)
  {
    hide ValidPeriod, ValidResponse, ValidDomains, Covers, RangeOf, GridPoints, NoDuplicates, ValidBatch;
    NoneAccepted(batches);
    if |batches| == 0 {
      return Failure(InvalidInput);
    }
    var v := Validated([], [], []);
    for b := 0 to |batches|
      invariant NoDuplicates(v.domains)
      invariant b == 0 ==> v == Validated([], [], [])
      invariant b > 0 ==> ValidBatches(batches[..b], g, start, end) && IsValidated(v, batches[..b], g, start, end)
    {
      ValidBatchesStep(batches, b, g, start, end);
      IsValidBatch(batches[b], g, start, end);
      var accepted := AcceptDomains(v.domains, batches[b].domains);
      if accepted.Failure? {
        return Failure(accepted.error);
      }
      var selected := SelectPeriod(batches[b], g, start, end);
      if selected.Failure? {
        return Failure(selected.error);
      }
      if b > 0 && v.starts != selected.value.0 {
        return Failure(SeriesMisaligned);
      }
      v := Validated(selected.value.0, v.ranges + [selected.value.1], accepted.value);
    }
    assert batches[..|batches|] == batches;
    return Success(v);
  }

  lemma NoneAccepted(batches: seq<Batch>)
    ensures NoDuplicates<string>([]) && Domains(batches[..0]) == [] && batches[..|batches|] == batches
  {
  }

  lemma IsValidBatch(b: Batch, g: Granularity, start: int, end: int)
    ensures ValidBatch(b, g, start, end) <==>
              ValidDomains(b.domains) && ValidResponse(b.response, b.domains, g) && Covers(b.response.times, g, start, end)
  {
  }

  /** Validity of a list of batches, one batch at a time. */
  lemma ValidBatchesStep(batches: seq<Batch>, b: nat, g: Granularity, start: int, end: int)
    requires b < |batches|
    ensures Domains(batches[..b + 1]) == Domains(batches[..b]) + batches[b].domains
    ensures ValidBatches(batches[..b + 1], g, start, end) <==>
              && (b > 0 ==> ValidBatches(batches[..b], g, start, end))
              && ValidPeriod(g, start, end) && ValidBatch(batches[b], g, start, end)
              && NoDuplicates(Domains(batches[..b]) + batches[b].domains)
    ensures ValidBatches(batches, g, start, end) ==> ValidBatches(batches[..b + 1], g, start, end)
  {
    var prefix := batches[..b + 1];
    assert prefix[..b] == batches[..b];
    DomainsPrefix(batches, b + 1);
    PrefixNoDuplicates(Domains(batches), Domains(prefix));
    PrefixNoDuplicates(Domains(prefix), Domains(batches[..b]));
    if ValidBatches(batches, g, start, end) {
      forall k | 0 <= k <= b ensures ValidBatch(prefix[k], g, start, end) {
        assert prefix[k] == batches[k];
      }
    }
    if ValidBatches(prefix, g, start, end) {
      forall k | 0 <= k < b ensures ValidBatch(batches[..b][k], g, start, end) {
        assert prefix[k] == batches[..b][k];
      }
    }
    if (b > 0 ==> ValidBatches(batches[..b], g, start, end)) && ValidBatch(batches[b], g, start, end) {
      forall k | 0 <= k <= b ensures ValidBatch(prefix[k], g, start, end) {
        assert k < b ==> prefix[k] == batches[..b][k];
      }
    }
  }

  lemma PrefixNoDuplicates(all: seq<string>, prefix: seq<string>)
    requires |prefix| <= |all| && all[..|prefix|] == prefix
    ensures NoDuplicates(all) ==> NoDuplicates(prefix)
  {
  }
}
