/** The dimension a kd-tree node is split in, by either of two strategies. */
module Splits {
  import opened Base
  import opened Kernel
  import opened KdTree

  datatype SplitStrategy = Widest | Variance

  predicate Within(ids: seq<nat>, n: nat) { forall i :: 0 <= i < |ids| ==> ids[i] < n }

  // ----- the widest dimension -----

  /** The width of the box, with the 16-bit wrap of the subtraction. */
  function Width(lo: Vec, hi: Vec, d: nat): int
    requires d < DIMS
  {
    Wrap16(hi[d] - lo[d])
  }

  /** The first dimension of largest width. */
  predicate FirstWidest(lo: Vec, hi: Vec, dim: nat) {
    dim < DIMS && forall d :: 0 <= d < DIMS ==>
      Width(lo, hi, d) <= Width(lo, hi, dim) && (d < dim ==> Width(lo, hi, d) < Width(lo, hi, dim))
  }

  /** Where no width wraps, that is the largest difference of two values. */
  lemma WidestIsWide(lo: Vec, hi: Vec, dim: nat)
    requires FirstWidest(lo, hi, dim) && forall d :: 0 <= d < DIMS ==> 0 <= hi[d] - lo[d] <= I16_MAX
    ensures forall d :: 0 <= d < DIMS ==> hi[d] - lo[d] <= hi[dim] - lo[dim]
    ensures forall d :: 0 <= d < dim ==> hi[d] - lo[d] < hi[dim] - lo[dim]
  {
    assert forall d :: 0 <= d < DIMS ==> Width(lo, hi, d) == hi[d] - lo[d];
  }

  method WidestDimension(lo: Vec, hi: Vec) returns (best: nat)
    ensures FirstWidest(lo, hi, best)
  {
    best := 0;
    var bestWidth := -0x8000;
    var d := 0;
    while d < DIMS
      invariant 0 <= d <= DIMS && best < DIMS && (d > 0 ==> best < d)
      invariant d > 0 ==> bestWidth == Width(lo, hi, best)
      invariant d == 0 ==> bestWidth == -0x8000 && best == 0
      invariant forall e :: 0 <= e < d ==> Width(lo, hi, e) <= bestWidth
      invariant forall e :: 0 <= e < best ==> Width(lo, hi, e) < bestWidth
    {
      var width := Wrap16(hi[d] - lo[d]);
      if width > bestWidth {
        bestWidth, best := width, d;
      }
      d := d + 1;
    }
  }

  // ----- the dimension of largest variance -----

  function SumOf(refs: seq<Reference>, ids: seq<nat>, d: nat): int
    requires Within(ids, |refs|) && d < DIMS
  {
    if ids == [] then 0 else SumOf(refs, ids[..|ids| - 1], d) + refs[ids[|ids| - 1]].vector[d]
  }

  function SumOfSquares(refs: seq<Reference>, ids: seq<nat>, d: nat): int
    requires Within(ids, |refs|) && d < DIMS
  {
    if ids == [] then 0 else SumOfSquares(refs, ids[..|ids| - 1], d) + Sq(refs[ids[|ids| - 1]].vector[d])
  }

  /** n * sum of squares - square of sum. */
  function Spread(refs: seq<Reference>, ids: seq<nat>, d: nat): int
    requires Within(ids, |refs|) && d < DIMS
  {
    |ids| * SumOfSquares(refs, ids, d) - Sq(SumOf(refs, ids, d))
  }

  /** The squared differences of all references to one value. */
  function DifferencesTo(refs: seq<Reference>, ids: seq<nat>, d: nat, x: int): int
    requires Within(ids, |refs|) && d < DIMS
  {
    if ids == [] then 0
    else DifferencesTo(refs, ids[..|ids| - 1], d, x) + Sq(refs[ids[|ids| - 1]].vector[d] - x)
  }

  /** The squared differences of all pairs of references. */
  function Differences(refs: seq<Reference>, ids: seq<nat>, d: nat): int
    requires Within(ids, |refs|) && d < DIMS
  {
    if ids == [] then 0
    else
      var front, last := ids[..|ids| - 1], ids[|ids| - 1];
      Differences(refs, front, d) + DifferencesTo(refs, front, d, refs[last].vector[d])
  }

  lemma {:induction false} DifferencesToIs(refs: seq<Reference>, ids: seq<nat>, d: nat, x: int)
    requires Within(ids, |refs|) && d < DIMS
    ensures DifferencesTo(refs, ids, d, x) == SumOfSquares(refs, ids, d) - 2 * x * SumOf(refs, ids, d) + |ids| * Sq(x)
  {
    if ids != [] {
      DifferencesToIs(refs, ids[..|ids| - 1], d, x);
      OneMoreDifference(SumOfSquares(refs, ids[..|ids| - 1], d), SumOf(refs, ids[..|ids| - 1], d), |ids| - 1,
                        refs[ids[|ids| - 1]].vector[d], x);
    }
  }

  lemma OneMoreDifference(squares: int, sum: int, n: int, v: int, x: int)
    ensures squares - 2 * x * sum + n * Sq(x) + Sq(v - x) == squares + Sq(v) - 2 * x * (sum + v) + (n + 1) * Sq(x)
  {
  }

  lemma OneMoreSpread(squares: int, sum: int, n: int, v: int)
    ensures (n + 1) * (squares + Sq(v)) - Sq(sum + v) == n * squares - Sq(sum) + (squares - 2 * v * sum + n * Sq(v))
  {
  }

  /** The spread, which is n^2 times the variance, is the sum of the squared differences of all pairs. */
  lemma {:induction false} SpreadIsDifferences(refs: seq<Reference>, ids: seq<nat>, d: nat)
    requires Within(ids, |refs|) && d < DIMS
    ensures Spread(refs, ids, d) == Differences(refs, ids, d)
  {
    if ids != [] {
      var front, v := ids[..|ids| - 1], refs[ids[|ids| - 1]].vector[d];
      SpreadIsDifferences(refs, front, d);
      DifferencesToIs(refs, front, d, v);
      OneMoreSpread(SumOfSquares(refs, front, d), SumOf(refs, front, d), |front|, v);
    }
  }

  predicate AllConstant(lo: Vec, hi: Vec) { forall d :: 0 <= d < DIMS ==> lo[d] == hi[d] }

  /** The first dimension whose values differ most from each other, of those that are not constant. */
  predicate FirstMostVaried(refs: seq<Reference>, ids: seq<nat>, lo: Vec, hi: Vec, dim: nat)
    requires Within(ids, |refs|)
  {
    dim < DIMS && lo[dim] != hi[dim] && forall d :: 0 <= d < DIMS && lo[d] != hi[d] ==>
      && Differences(refs, ids, d) <= Differences(refs, ids, dim)
      && (d < dim ==> Differences(refs, ids, d) < Differences(refs, ids, dim))
  }

  /** The constant dimensions are skipped; with nothing left the widest one stays. */
  method VarianceDimension(refs: seq<Reference>, ids: seq<nat>, lo: Vec, hi: Vec) returns (best: nat)
    requires Within(ids, |refs|)
    ensures if AllConstant(lo, hi) then FirstWidest(lo, hi, best) else FirstMostVaried(refs, ids, lo, hi, best)
  {
    best := WidestDimension(lo, hi);
    var score: Option<int> := None;
    var d := 0;
    while d < DIMS
      invariant 0 <= d <= DIMS && best < DIMS
      invariant score.None? ==> FirstWidest(lo, hi, best) && forall e :: 0 <= e < d ==> lo[e] == hi[e]
      invariant score.Some? ==> lo[best] != hi[best] && score.value == Spread(refs, ids, best)
      invariant score.Some? ==> forall e :: 0 <= e < d && lo[e] != hi[e] ==>
                  Spread(refs, ids, e) <= score.value && (e < best ==> Spread(refs, ids, e) < score.value)
      invariant score.Some? ==> best < d
    {
      if lo[d] != hi[d] {
        var s := SpreadOf(refs, ids, d);
        if score.None? || s > score.value {
          score, best := Some(s), d;
        }
      }
      d := d + 1;
    }
    forall e | 0 <= e < DIMS ensures Spread(refs, ids, e) == Differences(refs, ids, e) {
      SpreadIsDifferences(refs, ids, e);
    }
  }

  /** The loop over the references. */
  method SpreadOf(refs: seq<Reference>, ids: seq<nat>, d: nat) returns (s: int)
    requires Within(ids, |refs|) && d < DIMS
    ensures s == Spread(refs, ids, d)
  {
    var sum, sumSq, k := 0, 0, 0;
    while k < |ids|
      invariant 0 <= k <= |ids|
      invariant sum == SumOf(refs, ids[..k], d) && sumSq == SumOfSquares(refs, ids[..k], d)
    {
      assert ids[..k + 1][..k] == ids[..k];
      var v := refs[ids[k]].vector[d];
      sum, sumSq := sum + v, sumSq + Sq(v);
      k := k + 1;
    }
    assert ids[..k] == ids;
    s := |ids| * sumSq - Sq(sum);
  }

  // ----- what is chosen for a set of references -----

  /** The dimension for references with the tight box from `lo` to `hi`. */
  predicate Chooses(refs: seq<Reference>, ids: seq<nat>, strategy: SplitStrategy, lo: Vec, hi: Vec, dim: nat)
    requires Within(ids, |refs|)
  {
    if strategy.Widest? || AllConstant(lo, hi) then FirstWidest(lo, hi, dim)
      else FirstMostVaried(refs, ids, lo, hi, dim)
  }

  ghost predicate ChosenFor(refs: seq<Reference>, ids: seq<nat>, strategy: SplitStrategy, dim: nat) {
    Within(ids, |refs|) && forall lo: Vec, hi: Vec :: IsBox(refs, ids, lo, hi) ==>
      Chooses(refs, ids, strategy, lo, hi, dim)
  }

  /** Every branch is split in the dimension the strategy chooses for its references. */
  ghost predicate SplitsBy(t: Tree, refs: seq<Reference>, strategy: SplitStrategy) {
    match t
    case Leaf(_) => true
    case Branch(dim, l, r) =>
      ChosenFor(refs, Ids(t), strategy, dim) && SplitsBy(l, refs, strategy) && SplitsBy(r, refs, strategy)
  }

  // ----- the order of the references does not matter -----

  lemma {:induction false} SumsWithout(refs: seq<Reference>, ids: seq<nat>, i: nat, d: nat, rest: seq<nat>)
    requires Within(ids, |refs|) && i < |ids| && d < DIMS && rest == ids[..i] + ids[i + 1..]
    ensures Within(rest, |refs|) && SumOf(refs, ids, d) == SumOf(refs, rest, d) + refs[ids[i]].vector[d]
    ensures SumOfSquares(refs, ids, d) == SumOfSquares(refs, rest, d) + Sq(refs[ids[i]].vector[d])
    decreases |ids|
  {
    var last := |ids| - 1;
    if i == last {
      assert rest == ids[..last];
    } else {
      var front := ids[..last];
      var less := front[..i] + front[i + 1..];
      SumsWithout(refs, front, i, d, less);
      assert rest[..|rest| - 1] == less && rest[|rest| - 1] == ids[last];
    }
  }

  lemma TakeOut(front: seq<nat>, x: nat, b: seq<nat>) returns (i: nat, rest: seq<nat>)
    requires multiset(front + [x]) == multiset(b)
    ensures i < |b| && b[i] == x && rest == b[..i] + b[i + 1..] && multiset(rest) == multiset(front)
  {
    assert x in multiset(front + [x]);
    i :| 0 <= i < |b| && b[i] == x;
    rest := b[..i] + b[i + 1..];
    assert b == b[..i] + [x] + b[i + 1..];
    assert multiset(b) == multiset(rest) + multiset{x} == multiset(front) + multiset{x};
    assert multiset(rest) == multiset(b) - multiset{x} == multiset(front);
  }

  lemma {:induction false} SameSums(refs: seq<Reference>, a: seq<nat>, b: seq<nat>, d: nat)
    requires Within(a, |refs|) && Within(b, |refs|) && d < DIMS && multiset(a) == multiset(b)
    ensures |a| == |b|
    ensures SumOf(refs, a, d) == SumOf(refs, b, d) && SumOfSquares(refs, a, d) == SumOfSquares(refs, b, d)
    decreases |a|
  {
    assert |a| == |multiset(a)| == |multiset(b)| == |b|;
    if a != [] {
      var front, x := a[..|a| - 1], a[|a| - 1];
      assert front + [x] == a;
      var i, rest := TakeOut(front, x, b);
      SumsWithout(refs, b, i, d, rest);
      SameSums(refs, front, rest, d);
    }
  }

  lemma {:induction false} SameDifferences(refs: seq<Reference>, a: seq<nat>, b: seq<nat>, d: nat)
    requires Within(a, |refs|) && Within(b, |refs|) && d < DIMS && multiset(a) == multiset(b)
    ensures Differences(refs, a, d) == Differences(refs, b, d)
  {
    SameSums(refs, a, b, d);
    SpreadIsDifferences(refs, a, d);
    SpreadIsDifferences(refs, b, d);
  }

  lemma BoxIsUnique(refs: seq<Reference>, ids: seq<nat>, lo: Vec, hi: Vec, low: Vec, high: Vec)
    requires IsBox(refs, ids, lo, hi) && IsBox(refs, ids, low, high)
    ensures lo == low && hi == high
  {
    forall d | 0 <= d < PACKED_DIMS ensures lo[d] == low[d] && hi[d] == high[d] {
      assert Attains(refs, ids, d, lo[d]) && Attains(refs, ids, d, hi[d]);
      assert Attains(refs, ids, d, low[d]) && Attains(refs, ids, d, high[d]);
    }
  }

  /** What is chosen for the references in one order is chosen for them in every order. */
  lemma ChosenInAnyOrder(refs: seq<Reference>, ids: seq<nat>, other: seq<nat>, strategy: SplitStrategy, lo: Vec,
                         hi: Vec, dim: nat)
    requires Within(ids, |refs|) && IsBox(refs, ids, lo, hi) && Chooses(refs, ids, strategy, lo, hi, dim)
    requires multiset(ids) == multiset(other)
    ensures ChosenFor(refs, other, strategy, dim)
  {
    SameMembers(ids, other);
    forall i | 0 <= i < |other| ensures other[i] < |refs| { assert other[i] in ids; }
    forall low: Vec, high: Vec | IsBox(refs, other, low, high) ensures Chooses(refs, other, strategy, low, high, dim) {
      SameBox(refs, ids, other, lo, hi);
      BoxIsUnique(refs, other, lo, hi, low, high);
      forall d | 0 <= d < DIMS ensures Differences(refs, ids, d) == Differences(refs, other, d) {
        SameDifferences(refs, ids, other, d);
      }
    }
  }
}
