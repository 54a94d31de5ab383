/** Laws of the usage table: it depends on nothing but the flattened domains, and periods concatenate. */
module UsageTable {
  import opened Core
  import opened Clock
  import opened UsagePoints
  import opened Usage

  /** What the upstream would report for a domain in the bucket starting at an instant. */
  type Truth = (string, int) -> Cell

  /** A response that reports the truth at every point it carries. */
  ghost predicate Honest(r: Response, domains: seq<string>, truth: Truth) {
    forall d, k :: d in domains && 0 <= k < |r.times| ==> CellAt(r, d, k) == truth(d, r.times[k])
  }

  ghost predicate HonestBatches(batches: seq<Batch>, truth: Truth) {
    forall b :: 0 <= b < |batches| ==> Honest(batches[b].response, batches[b].domains, truth)
  }

  function TruthRow(domains: seq<string>, truth: Truth, t: int): (row: seq<Cell>)
    ensures |row| == |domains|
  {
    seq(|domains|, i requires 0 <= i < |domains| => truth(domains[i], t))
  }

  function TruthRows(domains: seq<string>, truth: Truth, g: Granularity, start: int, end: int): (rows: seq<seq<Cell>>)
    requires start <= end
    ensures |rows| == |GridPoints(g, start, end)|
    ensures forall p :: 0 <= p < |rows| ==> |rows[p]| == |domains|
  {
    var points := GridPoints(g, start, end);
    seq(|points|, p requires 0 <= p < |points| => TruthRow(domains, truth, points[p]))
  }

  /** A covered instant is one of the response's own points. */
  lemma PointOfPeriod(b: Batch, g: Granularity, start: int, end: int, p: nat)
    requires ValidPeriod(g, start, end) && ValidBatch(b, g, start, end) && p < |GridPoints(g, start, end)|
    ensures var t := GridPoints(g, start, end)[p];
      0 <= IndexIn(b.response.times, g, t) < |b.response.times|
      && b.response.times[IndexIn(b.response.times, g, t)] == t
  {
    PointInside(g, start, end, p);
    StartIsAPoint(b.response.times, g, GridPoints(g, start, end)[p], end);
  }

  lemma PointInside(g: Granularity, start: int, end: int, p: nat)
    requires ValidPeriod(g, start, end) && p < |GridPoints(g, start, end)|
    ensures start <= GridPoints(g, start, end)[p] < end && Aligned(g, GridPoints(g, start, end)[p])
  {
    AlignedDifference(g, start, end);
    var n := (end - start) / Step(g);
    MulMonotone(0, p, Step(g));
    MulMonotone(p + 1, n, Step(g));
    Distribute(p, 1, Step(g));
    AlignedIsMultiple(g, start);
    AlignedIsMultiple(g, start + p * Step(g));
    ModShift(start, p, Step(g));
  }

  lemma RowIsTruth(batches: seq<Batch>, g: Granularity, start: int, end: int, truth: Truth, p: nat)
    requires ValidBatches(batches, g, start, end) && HonestBatches(batches, truth)
    requires p < |GridPoints(g, start, end)|
    ensures Row(batches, g, GridPoints(g, start, end)[p]) == TruthRow(Domains(batches), truth, GridPoints(g, start, end)[p])
  {
    hide Aligned, Covers, GridPoints, IndexIn, Row, CellAt;
    var t := GridPoints(g, start, end)[p];
    forall i: nat | i < |Domains(batches)|
      ensures Row(batches, g, t)[i] == truth(Domains(batches)[i], t)
    {
      var b, j := PositionExists(batches, i);
      CellPosition(batches, g, t, b, j);
      PointOfPeriod(batches[b], g, start, end, p);
      assert batches[b].domains[j] in batches[b].domains;
    }
  }

  /** Main law: batch boundaries and points outside the period leave no trace in the table. */
  lemma RowsAreTruth(batches: seq<Batch>, g: Granularity, start: int, end: int, truth: Truth)
    requires ValidBatches(batches, g, start, end) && HonestBatches(batches, truth)
    ensures Rows(batches, g, start, end) == TruthRows(Domains(batches), truth, g, start, end)
  {
    hide Aligned, Covers, GridPoints, IndexIn, Row, CellAt, TruthRow;
    forall p: nat | p < |GridPoints(g, start, end)|
      ensures Rows(batches, g, start, end)[p] == TruthRows(Domains(batches), truth, g, start, end)[p]
    {
      RowIsTruth(batches, g, start, end, truth, p);
    }
  }

  lemma GridPointsSplit(g: Granularity, a: int, b: int, c: int)
    requires a <= b <= c && Aligned(g, a) && Aligned(g, b) && Aligned(g, c)
    ensures GridPoints(g, a, c) == GridPoints(g, a, b) + GridPoints(g, b, c)
  {
    hide Aligned, Step;
    AlignedDifference(g, a, b);
    AlignedDifference(g, b, c);
    LengthSplit(Step(g), a, b, c);
    forall p: nat | p < |GridPoints(g, a, c)|
      ensures GridPoints(g, a, c)[p] == (GridPoints(g, a, b) + GridPoints(g, b, c))[p]
    {
      PointSplit(Step(g), a, b, p);
    }
  }

  lemma LengthSplit(step: int, a: int, b: int, c: int)
    requires step > 0 && a <= b <= c
    requires (b - a) / step * step == b - a && (c - b) / step * step == c - b
    ensures (c - a) / step == (b - a) / step + (c - b) / step
    ensures (b - a) / step >= 0 && (c - b) / step >= 0
  {
    var m, n := (b - a) / step, (c - b) / step;
    Distribute(m, n, step);
    QuotientIs(c - a, step, m + n);
  }

  lemma PointSplit(step: int, a: int, b: int, p: int)
    requires step > 0 && (b - a) / step * step == b - a
    ensures a + p * step == b + (p - (b - a) / step) * step
  {
    Distribute(p - (b - a) / step, (b - a) / step, step);
  }

  /** Periods concatenate. */
  lemma TruthRowsSplit(domains: seq<string>, truth: Truth, g: Granularity, a: int, b: int, c: int)
    requires a <= b <= c && Aligned(g, a) && Aligned(g, b) && Aligned(g, c)
    ensures TruthRows(domains, truth, g, a, c) == TruthRows(domains, truth, g, a, b) + TruthRows(domains, truth, g, b, c)
  {
    hide GridPoints, TruthRow, Aligned;
    GridPointsSplit(g, a, b, c);
  }

  lemma RowsSplit(batches: seq<Batch>, g: Granularity, a: int, b: int, c: int)
    requires a <= b <= c && Aligned(g, a) && Aligned(g, b) && Aligned(g, c)
    ensures Rows(batches, g, a, c) == Rows(batches, g, a, b) + Rows(batches, g, b, c)
  {
    hide GridPoints, Row, Aligned;
    GridPointsSplit(g, a, b, c);
  }

  /** The earliest maximum of a concatenation: ties go to the left part. */
  lemma EarliestMaxConcat(left: seq<real>, right: seq<real>)
    requires |left| > 0 && |right| > 0
    ensures EarliestMax(left + right) ==
              if left[EarliestMax(left)] >= right[EarliestMax(right)] then EarliestMax(left)
              else |left| + EarliestMax(right)
  {
    hide EarliestMax;
    var l, r := EarliestMax(left), EarliestMax(right);
    EarliestMaxUnique(left + right, if left[l] >= right[r] then l else |left| + r);
  }

  lemma ColumnConcat(top: seq<seq<Cell>>, bottom: seq<seq<Cell>>, i: nat)
    ensures Column(top + bottom, i) == Column(top, i) + Column(bottom, i)
    ensures ChinaColumn(top + bottom, i) == ChinaColumn(top, i) + ChinaColumn(bottom, i)
    ensures OverseaColumn(top + bottom, i) == OverseaColumn(top, i) + OverseaColumn(bottom, i)
    ensures Totals(top + bottom) == Totals(top) + Totals(bottom)
  {
  }
}
