/** Time axes of usage responses: alignment, continuity and period selection (internal/qiniu/cdn/usage.go, transform.go). */
module UsagePoints {
  import opened Core
  import opened Clock

  /** Overflow is the upstream-independent case of the source's ErrInvalidValue. */
  datatype Error =
    | InvalidInput | SeriesMisaligned | NoSafePoint | InvalidTimestamp | NonContinuous
    | InvalidValue | Overflow | NilCache | IsolationBudget | PartialFailure | Transport | Api(code: int)

  datatype Granularity = FiveMinutes | Hour | Day

  function Step(g: Granularity): (step: int)
    ensures step > 0
  {
    match g
    case FiveMinutes => FIVE_MINUTES
    case Hour => HOUR
    case Day => DAY
  }

  function NanosecondOf(t: int): int { t % SECOND }
  function SecondOf(t: int): int { t / SECOND % 60 }
  function MinuteOf(t: int): int { t / MINUTE % 60 }
  function HourOf(t: int): int { t / HOUR % 24 }

  /** The calendar-field test of the source. */
  predicate Aligned(g: Granularity, t: int) {
    && SecondOf(t) == 0 && NanosecondOf(t) == 0
    && match g
       case FiveMinutes => MinuteOf(t) % 5 == 0
       case Hour => MinuteOf(t) == 0
       case Day => HourOf(t) == 0 && MinuteOf(t) == 0
  }

  lemma DivDiv(t: int, a: int, b: int)
    requires a > 0 && b > 0 && t % a == 0
    ensures t % (a * b) == 0 <==> t / a % b == 0
  {
    var q := t / a;
    assert t == q * a;
    if q % b == 0 {
      var k := q / b;
      assert q == k * b;
      assert t == k * (a * b) by { assert k * b * a == k * (a * b); }
      assert t % (a * b) == 0 by { ModOfMultiple(k, a * b); }
    }
    if t % (a * b) == 0 {
      var k := t / (a * b);
      assert t == k * (a * b);
      assert q * a == (k * b) * a by { assert k * (a * b) == (k * b) * a; }
      assert q == k * b by { Cancel(q, k * b, a); }
      ModOfMultiple(k, b);
    }
  }

  lemma ModOfMultiple(k: int, d: int)
    requires d > 0
    ensures k * d % d == 0
  {
    QuotientIs(k * d, d, k);
  }

  lemma Cancel(x: int, y: int, d: int)
    requires d > 0 && x * d == y * d
    ensures x == y
  {
    if x < y { MulMonotone(x + 1, y, d); } else if y < x { MulMonotone(y + 1, x, d); }
  }

  /** Being a multiple of a*b is being a multiple of a whose quotient is a multiple of b. */
  lemma MultipleOf(t: int, a: int, b: int, product: int)
    requires a > 0 && b > 0 && product == a * b
    ensures t % product == 0 <==> t % a == 0 && t / a % b == 0
  {
    if t % a == 0 {
      DivDiv(t, a, b);
    }
    if t % product == 0 {
      var k := t / product;
      assert t == k * b * a by { assert t == k * (a * b); assert k * (a * b) == k * b * a; }
      ModOfMultiple(k * b, a);
    }
  }

  /** Field-wise alignment is exactly divisibility by the bucket length. */
  lemma AlignedIsMultiple(g: Granularity, t: int)
    ensures Aligned(g, t) <==> t % Step(g) == 0
  {
    MultipleOf(t, SECOND, 60, MINUTE);
    match g
    case FiveMinutes =>
      MultipleOf(t, MINUTE, 5, FIVE_MINUTES);
      ModMod(t / MINUTE, 5, 12);
    case Hour =>
      MultipleOf(t, MINUTE, 60, HOUR);
    case Day =>
      MultipleOf(t, MINUTE, 60, HOUR);
      MultipleOf(t, HOUR, 24, DAY);
  }

  lemma ModMod(x: int, a: int, b: int)
    requires a > 0 && b > 0
    ensures x % (a * b) % a == x % a
  {
    var k := x / (a * b);
    assert x == k * (a * b) + x % (a * b);
    assert k * (a * b) == k * b * a;
    ModShift(x % (a * b), k * b, a);
  }

  lemma ModShift(x: int, k: int, d: int)
    requires d > 0
    ensures (x + k * d) % d == x % d
  {
    var q := x / d;
    assert x + k * d == (q + k) * d + x % d;
    QuotientIs(x + k * d, d, q + k);
  }

  function BucketEnd(g: Granularity, start: int): int { start + Step(g) }

  /** A non-empty, aligned, gap-free axis. */
  predicate IsGrid(points: seq<int>, g: Granularity) {
    && |points| > 0
    && (forall i :: 0 <= i < |points| ==> Aligned(g, points[i]))
    && (forall i :: 0 < i < |points| ==> points[i] == BucketEnd(g, points[i - 1]))
  }

  lemma {:induction false} GridPoint(points: seq<int>, g: Granularity, i: nat)
    requires IsGrid(points, g) && i < |points|
    ensures points[i] == points[0] + i * Step(g)
  {
    if i > 0 {
      GridPoint(points, g, i - 1);
      assert i * Step(g) == (i - 1) * Step(g) + Step(g);
    }
  }

  /** The bucket starts of [start, end). */
  function GridPoints(g: Granularity, start: int, end: int): seq<int>
    requires start <= end
  {
    seq((end - start) / Step(g), p => start + p * Step(g))
  }

  /** A grid covers a period when the period lies between its first bucket start and its last bucket end. */
  ghost predicate Covers(points: seq<int>, g: Granularity, start: int, end: int) {
    |points| > 0 && points[0] <= start && end <= points[0] + |points| * Step(g)
  }

  ghost predicate ValidPeriod(g: Granularity, start: int, end: int) {
    start < end && Aligned(g, start) && Aligned(g, end)
  }

  function IndexIn(points: seq<int>, g: Granularity, t: int): int
    requires |points| > 0
  {
    (t - points[0]) / Step(g)
  }

  lemma AlignedDifference(g: Granularity, a: int, b: int)
    requires Aligned(g, a) && Aligned(g, b)
    ensures (b - a) % Step(g) == 0
    ensures (b - a) / Step(g) * Step(g) == b - a
  {
    AlignedIsMultiple(g, a);
    AlignedIsMultiple(g, b);
    MultiplesDifference(a, b, Step(g));
  }

  lemma MultiplesDifference(a: int, b: int, d: int)
    requires d > 0 && a % d == 0 && b % d == 0
    ensures (b - a) % d == 0 && (b - a) / d * d == b - a
  {
    var k := b / d - a / d;
    assert b - a == k * d by {
      assert a == a / d * d && b == b / d * d;
      Distribute(b / d - a / d, a / d, d);
    }
    QuotientIs(b - a, d, k);
  }

  method ParseUsagePoints(raw: seq<int>, g: Granularity) returns (r: Result<seq<int>, Error>)
    ensures r.Success? <==> IsGrid(raw, g)
    ensures r.Success? ==> r.value == raw
    ensures r == Failure(NoSafePoint) <==> |raw| == 0
    ensures r.Failure? && |raw| > 0 ==> r.error == InvalidTimestamp || r.error == NonContinuous
  {
    if |raw| == 0 {
      return Failure(NoSafePoint);
    }
    var starts: seq<int> := [];
    for index := 0 to |raw|
      invariant starts == raw[..index]
      invariant forall i :: 0 <= i < index ==> Aligned(g, raw[i])
      invariant forall i :: 0 < i < index ==> raw[i] == BucketEnd(g, raw[i - 1])
    {
      if !Aligned(g, raw[index]) {
        return Failure(InvalidTimestamp);
      }
      if index > 0 && raw[index] != BucketEnd(g, starts[index - 1]) {
        return Failure(NonContinuous);
      }
      starts := starts + [raw[index]];
    }
    return Success(starts);
  }

  datatype Range = Range(startIndex: nat, endIndex: nat)

  lemma PeriodPosition(starts: seq<int>, g: Granularity, start: int, i: nat)
    requires IsGrid(starts, g) && i < |starts| && starts[i] == start
    ensures IndexIn(starts, g, start) == i && starts[0] <= start
  {
    GridPoint(starts, g, i);
    MulMonotone(0, i, Step(g));
    QuotientIs(start - starts[0], Step(g), i);
  }

  lemma StartIsAPoint(starts: seq<int>, g: Granularity, start: int, end: int)
    requires IsGrid(starts, g) && ValidPeriod(g, start, end) && Covers(starts, g, start, end)
    ensures 0 <= IndexIn(starts, g, start) < |starts| && starts[IndexIn(starts, g, start)] == start
  {
    AlignedDifference(g, starts[0], start);
    var i := IndexIn(starts, g, start);
    if i < 0 { MulMonotone(i, -1, Step(g)); }
    if i >= |starts| { MulMonotone(|starts|, i, Step(g)); }
    GridPoint(starts, g, i);
  }

  /** Start of bucket i, or the end of the last bucket when i is one past it. */
  function PointOrEnd(starts: seq<int>, g: Granularity, i: nat): int
    requires 0 < |starts| && i <= |starts|
  {
    if i < |starts| then starts[i] else BucketEnd(g, starts[i - 1])
  }

  lemma PointOrEndIs(starts: seq<int>, g: Granularity, i: nat)
    requires IsGrid(starts, g) && i <= |starts|
    ensures PointOrEnd(starts, g, i) == starts[0] + i * Step(g)
  {
    if i < |starts| {
      GridPoint(starts, g, i);
    } else {
      GridPoint(starts, g, i - 1);
      assert i * Step(g) == (i - 1) * Step(g) + Step(g);
    }
  }

  lemma AlignedStep(g: Granularity, a: int, b: int)
    requires Aligned(g, a) && Aligned(g, b) && a < b
    ensures a + Step(g) <= b
    ensures Aligned(g, a + Step(g))
  {
    AlignedDifference(g, a, b);
    var k := (b - a) / Step(g);
    if k < 1 { MulMonotone(k, 0, Step(g)); }
    MulMonotone(1, k, Step(g));
    AlignedIsMultiple(g, a);
    AlignedIsMultiple(g, a + Step(g));
    ModShift(a, 1, Step(g));
  }

  lemma PointFrom(starts: seq<int>, g: Granularity, first: nat, p: nat)
    requires IsGrid(starts, g) && first < |starts| && first + p <= |starts|
    ensures PointOrEnd(starts, g, first + p) == starts[first] + p * Step(g)
  {
    GridPoint(starts, g, first);
    PointOrEndIs(starts, g, first + p);
    Distribute(first, p, Step(g));
  }

  lemma Distribute(a: int, b: int, d: int)
    ensures (a + b) * d == a * d + b * d
  {
  }

  lemma SelectedRange(starts: seq<int>, g: Granularity, first: nat, last: nat, start: int, end: int)
    requires IsGrid(starts, g) && ValidPeriod(g, start, end)
    requires first <= last <= |starts| && first < |starts|
    requires starts[first] == start && PointOrEnd(starts, g, last) == end
    ensures Covers(starts, g, start, end)
    ensures starts[first..last] == GridPoints(g, start, end)
  {
    var n := last - first;
    PointFrom(starts, g, first, n);
    QuotientIs(end - start, Step(g), n);
    assert |GridPoints(g, start, end)| == n;
    forall p: nat | p < n
      ensures starts[first..last][p] == GridPoints(g, start, end)[p]
    {
      PointFrom(starts, g, first, p);
    }
    RangeIsCovered(starts, g, first, last);
  }

  lemma RangeIsCovered(starts: seq<int>, g: Granularity, first: nat, last: nat)
    requires IsGrid(starts, g) && first <= last <= |starts| && first < |starts|
    ensures Covers(starts, g, starts[first], PointOrEnd(starts, g, last))
  {
    GridPoint(starts, g, first);
    MulMonotone(0, first, Step(g));
    PointOrEndIs(starts, g, last);
    MulMonotone(last, |starts|, Step(g));
  }

  /** Selects the index range of a period; it succeeds exactly when the axis covers the whole period. */
  method UsagePeriodIndexes(starts: seq<int>, g: Granularity, start: int, end: int) returns (r: Result<Range, Error>)
    requires IsGrid(starts, g)
    ensures r.Success? <==> ValidPeriod(g, start, end) && Covers(starts, g, start, end)
    ensures r.Success? ==>
              && r.value.startIndex == IndexIn(starts, g, start)
              && r.value.startIndex <= r.value.endIndex <= |starts|
              && starts[r.value.startIndex..r.value.endIndex] == GridPoints(g, start, end)
    ensures r.Failure? ==> r.error == if ValidPeriod(g, start, end) then SeriesMisaligned else InvalidInput
  {
    if !(start < end) {
      return Failure(InvalidInput);
    }
    if !Aligned(g, start) || !Aligned(g, end) {
      return Failure(InvalidInput);
    }
    var startIndex := 0;
    while startIndex < |starts| && starts[startIndex] != start
      invariant 0 <= startIndex <= |starts|
      invariant forall i :: 0 <= i < startIndex ==> starts[i] != start
    {
      startIndex := startIndex + 1;
    }
    if startIndex == |starts| {
      if Covers(starts, g, start, end) {
        StartIsAPoint(starts, g, start, end);
        assert false;
      }
      return Failure(SeriesMisaligned);
    }
    PeriodPosition(starts, g, start, startIndex);

    var cursor, endIndex := start, startIndex;
    while cursor < end
      invariant startIndex <= endIndex <= |starts|
      invariant cursor == PointOrEnd(starts, g, endIndex)
      invariant cursor <= end && Aligned(g, cursor)
      decreases |starts| - endIndex
    {
      if endIndex >= |starts| || starts[endIndex] != cursor {
        PointOrEndIs(starts, g, endIndex);
        return Failure(SeriesMisaligned);
      }
      AlignedStep(g, cursor, end);
      cursor := BucketEnd(g, cursor);
      endIndex := endIndex + 1;
    }
    if cursor != end {
      return Failure(InvalidInput);
    }
    SelectedRange(starts, g, startIndex, endIndex, start, end);
    return Success(Range(startIndex, endIndex));
  }

  // ---- The latest safe monitoring point (transform.go) ----

  /** Index of the last bucket that ends no later than safeBefore, if any. */
  ghost predicate IsLatestSafe(points: seq<int>, safeBefore: int, i: int) {
    && 0 <= i < |points|
    && points[i] + FIVE_MINUTES <= safeBefore
    && (forall j :: i < j < |points| ==> points[j] + FIVE_MINUTES > safeBefore)
  }

  method LatestSafeIndex(raw: seq<int>, safeBefore: int) returns (r: Result<nat, Error>)
    ensures r.Success? <==> IsGrid(raw, FiveMinutes) && raw[0] + FIVE_MINUTES <= safeBefore
    ensures r.Success? ==> IsLatestSafe(raw, safeBefore, r.value)
    ensures |raw| == 0 ==> r == Failure(NoSafePoint)
    ensures IsGrid(raw, FiveMinutes) && r.Failure? ==> r.error == NoSafePoint
    ensures r.Failure? ==> !r.error.Api?
  {
    hide Aligned;
    if |raw| == 0 {
      return Failure(NoSafePoint);
    }
    var starts: seq<int>, latest := [], -1;
    for i := 0 to |raw|
      invariant starts == raw[..i]
      invariant forall j :: 0 <= j < i ==> Aligned(FiveMinutes, raw[j])
      invariant forall j :: 0 < j < i ==> raw[j] == BucketEnd(FiveMinutes, raw[j - 1])
      invariant -1 <= latest < i
      invariant latest >= 0 ==> raw[latest] + FIVE_MINUTES <= safeBefore
      invariant forall j :: latest < j < i ==> raw[j] + FIVE_MINUTES > safeBefore
    {
      if !Aligned(FiveMinutes, raw[i]) {
        return Failure(InvalidTimestamp);
      }
      if i > 0 && raw[i] - starts[i - 1] != FIVE_MINUTES {
        return Failure(NonContinuous);
      }
      starts := starts + [raw[i]];
      if raw[i] + FIVE_MINUTES <= safeBefore {
        latest := i;
      }
    }
    if latest < 0 {
      return Failure(NoSafePoint);
    }
    GridPoint(raw, FiveMinutes, latest);
    return Success(latest);
  }
}
