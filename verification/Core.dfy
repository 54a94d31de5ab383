/** Result types and the few facts about sequences and sums that the other modules share. */
module Core {

  datatype Option<+T> = None | Some(value: T)

  datatype Result<+T, +E> = Success(value: T) | Failure(error: E)

  /** Concatenation of a sequence of sequences; the last element is peeled so that appending is one step. */
  function Flatten<T>(xss: seq<seq<T>>): seq<T> {
    if |xss| == 0 then [] else Flatten(xss[..|xss| - 1]) + xss[|xss| - 1]
  }

  lemma FlattenAppend<T>(xss: seq<seq<T>>, xs: seq<T>)
    ensures Flatten(xss + [xs]) == Flatten(xss) + xs
  {
    assert (xss + [xs])[..|xss|] == xss;
  }

  lemma {:induction false} FlattenConcat<T>(left: seq<seq<T>>, right: seq<seq<T>>)
    ensures Flatten(left + right) == Flatten(left) + Flatten(right)
  {
    if |right| == 0 {
      assert left + right == left;
    } else {
      var init, last := right[..|right| - 1], right[|right| - 1];
      assert left + right == (left + init) + [last];
      FlattenAppend(left + init, last);
      FlattenConcat(left, init);
    }
  }

  predicate NoDuplicates<T(==)>(xs: seq<T>) {
    forall i, j :: 0 <= i < j < |xs| ==> xs[i] != xs[j]
  }

  lemma DistinctConcat<T>(a: seq<T>, b: seq<T>)
    requires NoDuplicates(a) && NoDuplicates(b) && forall x :: x in a ==> x !in b
    ensures NoDuplicates(a + b)
  {
    forall i, j | 0 <= i < |a| && 0 <= j < |b|
      ensures a[i] != b[j]
    {
      assert a[i] in a && b[j] in b;
    }
  }

  /** Exact left-to-right sum. */
  function Sum(xs: seq<real>): real {
    if |xs| == 0 then 0.0 else Sum(xs[..|xs| - 1]) + xs[|xs| - 1]
  }

  lemma SumAppend(xs: seq<real>, x: real)
    ensures Sum(xs + [x]) == Sum(xs) + x
  {
    assert (xs + [x])[..|xs|] == xs;
  }

  lemma {:induction false} SumConcat(left: seq<real>, right: seq<real>)
    ensures Sum(left + right) == Sum(left) + Sum(right)
  {
    if |right| == 0 {
      assert left + right == left;
    } else {
      var init, last := right[..|right| - 1], right[|right| - 1];
      assert left + right == (left + init) + [last];
      SumAppend(left + init, last);
      SumConcat(left, init);
    }
  }

  function Firsts<A, B>(pairs: seq<(A, B)>): (firsts: seq<A>)
    ensures |firsts| == |pairs|
  {
    seq(|pairs|, i requires 0 <= i < |pairs| => pairs[i].0)
  }

  lemma FirstsConcat<A, B>(left: seq<(A, B)>, right: seq<(A, B)>)
    ensures Firsts(left + right) == Firsts(left) + Firsts(right)
  {
  }

  ghost predicate NonNegative(xs: seq<real>) {
    forall i :: 0 <= i < |xs| ==> xs[i] >= 0.0
  }

  /** With non-negative terms every partial sum, and every term, is bounded by the whole. */
  lemma {:induction false} SumPrefix(xs: seq<real>, k: nat)
    requires k <= |xs| && NonNegative(xs)
    ensures 0.0 <= Sum(xs[..k]) <= Sum(xs)
    decreases |xs|
  {
    if k == |xs| {
      assert xs[..k] == xs;
      if k > 0 {
        SumPrefix(xs[..k - 1], 0);
      }
    } else {
      var init := xs[..|xs| - 1];
      SumPrefix(init, k);
      assert init[..k] == xs[..k];
    }
  }

  lemma SumTerm(xs: seq<real>, k: nat)
    requires k < |xs| && NonNegative(xs)
    ensures xs[k] <= Sum(xs)
  {
    SumPrefix(xs, k);
    SumPrefix(xs, k + 1);
    assert xs[..k + 1] == xs[..k] + [xs[k]];
    SumAppend(xs[..k], xs[k]);
  }

  lemma {:induction false} SumPointwise(xs: seq<real>, ys: seq<real>, zs: seq<real>)
    requires |xs| == |ys| == |zs|
    requires forall i :: 0 <= i < |xs| ==> zs[i] == xs[i] + ys[i]
    ensures Sum(zs) == Sum(xs) + Sum(ys)
  {
    if |xs| > 0 {
      SumPointwise(xs[..|xs| - 1], ys[..|xs| - 1], zs[..|xs| - 1]);
    }
  }

  lemma {:induction false} SumZeros(xs: seq<real>)
    requires forall i :: 0 <= i < |xs| ==> xs[i] == 0.0
    ensures Sum(xs) == 0.0
  {
    if |xs| > 0 {
      SumZeros(xs[..|xs| - 1]);
    }
  }

  /** Index of the earliest maximum. */
  function EarliestMax(xs: seq<real>): (k: nat)
    requires |xs| > 0
    ensures k < |xs|
    ensures forall j :: 0 <= j < |xs| ==> xs[j] <= xs[k]
    ensures forall j :: 0 <= j < k ==> xs[j] < xs[k]
  {
    if |xs| == 1 then 0 else
    var k := EarliestMax(xs[..|xs| - 1]);
    if xs[|xs| - 1] > xs[k] then |xs| - 1 else k
  }

  /** The contract of EarliestMax determines its result. */
  lemma EarliestMaxUnique(xs: seq<real>, k: nat)
    requires k < |xs|
    requires forall j :: 0 <= j < |xs| ==> xs[j] <= xs[k]
    requires forall j :: 0 <= j < k ==> xs[j] < xs[k]
    ensures EarliestMax(xs) == k
  {
    var m := EarliestMax(xs);
    assert xs[m] == xs[k];
  }

  /** Values cut into runs of `size`, the last one possibly shorter. */
  function Chunks<T>(values: seq<T>, size: nat): seq<seq<T>>
    requires size > 0
  {
    if |values| == 0 then []
    else if |values| <= size then [values]
    else [values[..size]] + Chunks(values[size..], size)
  }

  /** Number of chunks of `size` that `n` values need. */
  function Ceil(n: nat, size: nat): nat
    requires size > 0
  {
    (n + size - 1) / size
  }

  lemma {:induction false} ChunksProperties<T>(values: seq<T>, size: nat)
    requires size > 0
    ensures Flatten(Chunks(values, size)) == values
    ensures |Chunks(values, size)| == Ceil(|values|, size)
    ensures forall c :: c in Chunks(values, size) ==> 1 <= |c| <= size
  {
    hide Flatten, Ceil;
    if |values| == 0 {
      CeilIs(0, size, 0);
      FlattenNothing<T>();
    } else if |values| <= size {
      FlattenSingleton(values);
      CeilIs(|values|, size, 1);
    } else {
      var first, rest := values[..size], values[size..];
      ChunksProperties(rest, size);
      FlattenConcat([first], Chunks(rest, size));
      FlattenSingleton(first);
      CeilStep(|rest|, size);
      assert first + rest == values;
    }
  }

  lemma FlattenNothing<T>()
    ensures Flatten<T>([]) == []
  {
  }

  lemma FlattenSingleton<T>(xs: seq<T>)
    ensures Flatten([xs]) == xs
  {
    FlattenAppend([], xs);
    assert [] + [xs] == [xs];
  }

  lemma MulMonotone(a: int, b: int, d: int)
    requires a <= b && d >= 0
    ensures a * d <= b * d
  {
    assert (b - a) * d >= 0;
  }

  /** Products kept as atoms in proofs that only add one more share. */
  function Times(n: nat, share: nat): nat { n * share }

  lemma TimesStep(n: nat, share: nat)
    ensures Times(0, share) == 0 && Times(n + 1, share) == Times(n, share) + share
  {
  }

  lemma TimesAdd(m: nat, n: nat, share: nat)
    ensures Times(m + n, share) == Times(m, share) + Times(n, share)
  {
  }

  lemma QuotientIs(x: int, d: int, q: int)
    requires d > 0 && q * d <= x < q * d + d
    ensures x / d == q
  {
    var p := x / d;
    if p > q {
      MulMonotone(q + 1, p, d);
    } else if p < q {
      MulMonotone(p + 1, q, d);
    }
  }

  lemma CeilIs(n: nat, size: nat, q: nat)
    requires size > 0 && n <= q * size < n + size
    ensures Ceil(n, size) == q
  {
    QuotientIs(n + size - 1, size, q);
  }

  lemma CeilStep(n: nat, size: nat)
    requires size > 0
    ensures Ceil(n + size, size) == Ceil(n, size) + 1
  {
    var p := Ceil(n, size);
    QuotientIs(n + size + size - 1, size, p + 1);
  }

  /** Fewer values need no more chunks. */
  lemma CeilMonotone(a: nat, b: nat, size: nat)
    requires size > 0 && a <= b
    ensures Ceil(a, size) <= Ceil(b, size)
  {
    if Ceil(b, size) < Ceil(a, size) {
      MulMonotone(Ceil(b, size) + 1, Ceil(a, size), size);
    }
  }
}
