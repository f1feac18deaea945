/**
 * The AVX2 kernels, lane by lane: the bounded block scan and the box lower bound, with
 * the 16-bit and 32-bit wrap-around of the instructions written out.
 */
module Kernel {
  import opened Base

  // ----- machine arithmetic -----

  function Wrap16(x: int): int { (x + 0x8000) % 0x1_0000 - 0x8000 }

  function Wrap32(x: int): int { (x + 0x8000_0000) % 0x1_0000_0000 - 0x8000_0000 }

  // ----- what the kernels are meant to compute -----

  function Sq(x: int): nat {
    assert x * x >= 0;
    x * x
  }

  /** Squared Euclidean distance over the first `n` dimensions. */
  function SqSum(q: seq<int>, v: seq<int>, n: nat): nat
    requires n <= |q| && n <= |v|
    decreases |q|, n  // not `n` alone: Dist must not unfold into 14 squares wherever it occurs
  {
    if n == 0 then 0 else SqSum(q, v, n - 1) + Sq(q[n - 1] - v[n - 1])
  }

  /** The distance the search ranks by: 14 dimensions. */
  function Dist(q: seq<int>, v: seq<int>): nat
    requires DIMS <= |q| && DIMS <= |v|
  {
    SqSum(q, v, DIMS)
  }

  /** How far `x` lies outside the interval `[lo, hi]`. */
  function Gap(x: int, lo: int, hi: int): nat { Max(Max(lo - x, 0), Max(x - hi, 0)) }

  function GapSum(q: seq<int>, lo: seq<int>, hi: seq<int>, n: nat): nat
    requires n <= |q| && n <= |lo| && n <= |hi|
    decreases |q|, n
  {
    if n == 0 then 0 else GapSum(q, lo, hi, n - 1) + Sq(Gap(q[n - 1], lo[n - 1], hi[n - 1]))
  }

  predicate InBox(v: seq<int>, lo: seq<int>, hi: seq<int>)
    requires |v| == |lo| == |hi|
  {
    forall d :: 0 <= d < |v| ==> lo[d] <= v[d] <= hi[d]
  }

  /** Components any build of the program can hold: SCALE is at most MAX_SCALE. */
  predicate Small(v: seq<int>) { forall d :: 0 <= d < |v| ==> -MAX_SCALE <= v[d] <= MAX_SCALE }

  /** What quantizing gives for a given SCALE when the negative sentinel may be in these
      dimensions; the two padding dimensions are zero. */
  predicate InDomainOf(v: Vec, scale: nat, sentinels: set<nat>) {
    && (forall d: nat :: d < DIMS ==> -(if d in sentinels then scale else 0) <= v[d] <= scale)
    && PaddingZero(v)
  }

  /** The dimensions for which the sentinel is meant: time and distance since the last transaction. */
  const MEANT: set<nat> := {5, 6}

  /** The dimensions in which a value far enough below zero becomes the sentinel. */
  const ANYWHERE: set<nat> := set d: nat | d < DIMS

  predicate InDomain(v: Vec, scale: nat) { InDomainOf(v, scale, MEANT) }

  predicate PaddingZero(v: Vec) { v[14] == 0 && v[15] == 0 }

  // ----- the block scan -----

  /** Lane `l` of the pair-interleaved block that starts at `base`. */
  function LaneVec(vectors: seq<int>, base: nat, l: nat): (v: seq<int>)
    requires l < LANES && base + DIMS * LANES <= |vectors|
    ensures |v| == DIMS
  {
    seq(DIMS, d requires 0 <= d < DIMS => vectors[base + (d / 2) * (2 * LANES) + 2 * l + d % 2])
  }

  predicate BlockSmall(vectors: seq<int>, base: nat)
    requires base + DIMS * LANES <= |vectors|
  {
    forall l :: 0 <= l < LANES ==> Small(LaneVec(vectors, base, l))
  }

  lemma SmallPairFits(a: int, b: int)
    requires -2 * MAX_SCALE <= a <= 2 * MAX_SCALE && -2 * MAX_SCALE <= b <= 2 * MAX_SCALE
    ensures Wrap16(a) == a && Wrap32(Sq(a) + Sq(b)) == Sq(a) + Sq(b)
  {
    SqMono(a, 2 * MAX_SCALE);
    SqMono(b, 2 * MAX_SCALE);
  }

  lemma SqMono(a: int, m: nat)
    requires 0 - m <= a <= m
    ensures Sq(a) <= Sq(m)
  {
    assert (m - a) * (m + a) >= 0;
    assert (m - a) * (m + a) == m * m - a * a;
  }

  lemma WrapAdd(a: int, b: int)
    ensures Wrap32(Wrap32(a) + b) == Wrap32(a + b)
  {
  }

  /** One subtract and multiply-add of a lane for one pair of dimensions. */
  function PairTerm(q0: int, q1: int, v0: int, v1: int): int {
    Wrap32(Sq(Wrap16(q0 - v0)) + Sq(Wrap16(q1 - v1)))
  }

  lemma PairTermExact(q0: int, q1: int, v0: int, v1: int)
    requires -2 * MAX_SCALE <= q0 - v0 <= 2 * MAX_SCALE && -2 * MAX_SCALE <= q1 - v1 <= 2 * MAX_SCALE
    ensures PairTerm(q0, q1, v0, v1) == Sq(q0 - v0) + Sq(q1 - v1)
  {
    SmallPairFits(q0 - v0, q1 - v1);
    SmallPairFits(q1 - v1, q0 - v0);
  }

  lemma {:induction false} TwoMore(q: seq<int>, v: seq<int>, n: nat)
    requires n + 2 <= |q| && n + 2 <= |v|
    ensures SqSum(q, v, n + 2) == SqSum(q, v, n) + (Sq(q[n] - v[n]) + Sq(q[n + 1] - v[n + 1]))
  {
    assert SqSum(q, v, n + 1) == SqSum(q, v, n) + Sq(q[n] - v[n]);
  }

  lemma {:induction false} PairStep(q: seq<int>, v: seq<int>, p: nat, acc: int)
    requires 2 * p + 2 <= |q| && 2 * p + 2 <= |v| && Small(q) && Small(v)
    requires acc == Wrap32(SqSum(q, v, 2 * p))
    ensures Wrap32(acc + PairTerm(q[2 * p], q[2 * p + 1], v[2 * p], v[2 * p + 1])) == Wrap32(SqSum(q, v, 2 * p + 2))
  {
    PairTermExact(q[2 * p], q[2 * p + 1], v[2 * p], v[2 * p + 1]);
    TwoMore(q, v, 2 * p);
    WrapAdd(SqSum(q, v, 2 * p), PairTerm(q[2 * p], q[2 * p + 1], v[2 * p], v[2 * p + 1]));
  }

  /** One packed step: the accumulator of lane `l` after the pair loaded at `at`. */
  function LaneTerm(vectors: seq<int>, at: nat, q0: int, q1: int, l: nat): int
    requires l < LANES && at + 2 * LANES <= |vectors|
  {
    PairTerm(q0, q1, vectors[at + 2 * l], vectors[at + 2 * l + 1])
  }

  lemma LanePair(vectors: seq<int>, base: nat, l: nat, p: nat)
    requires l < LANES && base + DIMS * LANES <= |vectors| && p < DIM_PAIRS
    ensures LaneVec(vectors, base, l)[2 * p] == vectors[base + p * 2 * LANES + 2 * l]
    ensures LaneVec(vectors, base, l)[2 * p + 1] == vectors[base + p * 2 * LANES + 2 * l + 1]
  {
  }

  lemma {:induction false} LaneStep(vectors: seq<int>, base: nat, q: Vec, l: nat, p: nat, acc: int)
    requires l < LANES && base + DIMS * LANES <= |vectors| && p < DIM_PAIRS
    requires Small(q) && BlockSmall(vectors, base)
    requires acc == Wrap32(SqSum(q, LaneVec(vectors, base, l), 2 * p))
    ensures Wrap32(acc + LaneTerm(vectors, base + p * 2 * LANES, q[2 * p], q[2 * p + 1], l))
            == Wrap32(SqSum(q, LaneVec(vectors, base, l), 2 * p + 2))
  {
    LanePair(vectors, base, l, p);
    PairStep(q, LaneVec(vectors, base, l), p, acc);
  }

  /** The accumulators after the first `n` dimensions. */
  ghost predicate Accumulated(acc: seq<int>, vectors: seq<int>, base: nat, q: Vec, n: nat)
    requires base + DIMS * LANES <= |vectors| && n <= DIMS
  {
    |acc| == LANES && forall l :: 0 <= l < LANES ==> acc[l] == Wrap32(SqSum(q, LaneVec(vectors, base, l), n))
  }

  /** One packed step over all eight lanes. */
  function AddPair(acc: seq<int>, vectors: seq<int>, at: nat, q0: int, q1: int): (r: seq<int>)
    requires |acc| == LANES && at + 2 * LANES <= |vectors|
    ensures |r| == LANES
  {
    seq(LANES, l requires 0 <= l < LANES => Wrap32(acc[l] + LaneTerm(vectors, at, q0, q1, l)))
  }

  lemma AddPairAccumulates(acc: seq<int>, vectors: seq<int>, base: nat, q: Vec, p: nat)
    requires base + DIMS * LANES <= |vectors| && p < DIM_PAIRS
    requires Small(q) && BlockSmall(vectors, base) && Accumulated(acc, vectors, base, q, 2 * p)
    ensures Accumulated(AddPair(acc, vectors, base + p * 2 * LANES, q[2 * p], q[2 * p + 1]), vectors, base, q,
                        2 * p + 2)
  {
    forall l | 0 <= l < LANES
      ensures AddPair(acc, vectors, base + p * 2 * LANES, q[2 * p], q[2 * p + 1])[l]
              == Wrap32(SqSum(q, LaneVec(vectors, base, l), 2 * p + 2))
    {
      LaneStep(vectors, base, q, l, p, acc[l]);
    }
  }

  /** `scan_block_pair_avx2_bounded`: eight 32-bit accumulators, then a mask of the lanes
      whose accumulator is at most `limit`. */
  method ScanBlock(vectors: seq<int>, base: nat, q: Vec, limit: int) returns (mask: seq<bool>, dists: seq<int>)
    requires base + DIMS * LANES <= |vectors| && limit >= 0
    requires Small(q) && BlockSmall(vectors, base)
    ensures |mask| == |dists| == LANES
    ensures forall l :: 0 <= l < LANES ==>
              (mask[l] <==> limit >= I32_MAX || Wrap32(Dist(q, LaneVec(vectors, base, l))) <= limit)
    ensures forall l :: 0 <= l < LANES && mask[l] ==> dists[l] == Wrap32(Dist(q, LaneVec(vectors, base, l)))
  {
    var acc := seq(LANES, _ => 0);
    var pair := 0;
    while pair < DIM_PAIRS
      invariant 0 <= pair <= DIM_PAIRS && Accumulated(acc, vectors, base, q, 2 * pair)
    {
      AddPairAccumulates(acc, vectors, base, q, pair);
      acc := AddPair(acc, vectors, base + pair * 2 * LANES, q[2 * pair], q[2 * pair + 1]);
      pair := pair + 1;
    }
    if limit < I32_MAX {
      mask := seq(LANES, l requires 0 <= l < LANES => limit + 1 > acc[l]);
      dists := if true in mask then acc else seq(LANES, _ => 0);
    } else {
      mask, dists := seq(LANES, _ => true), acc;
    }
  }

  // ----- when the accumulator is the distance -----

  /** The accumulator is exact precisely when the true distance fits 31 bits. */
  lemma AccumulatorExactIff(q: seq<int>, v: seq<int>)
    requires DIMS <= |q| && DIMS <= |v|
    ensures Wrap32(Dist(q, v)) == Dist(q, v) <==> Dist(q, v) <= I32_MAX
  {
  }

  lemma SqDouble(x: int)
    ensures Sq(2 * x) == 4 * Sq(x)
  {
  }

  function TermWeight(sentinels: set<nat>, d: nat): nat { if d in sentinels then 4 else 1 }

  /** Two values are at most scale apart, or twice that where one may be the sentinel. */
  function Weight(sentinels: set<nat>, n: nat): nat {
    if n == 0 then 0 else Weight(sentinels, n - 1) + TermWeight(sentinels, n - 1)
  }

  lemma DomainTerm(q: Vec, v: Vec, scale: nat, sentinels: set<nat>, d: nat)
    requires InDomainOf(q, scale, sentinels) && InDomainOf(v, scale, sentinels) && d < DIMS
    ensures Sq(q[d] - v[d]) <= TermWeight(sentinels, d) * Sq(scale)
  {
    SqMono(q[d] - v[d], if d in sentinels then 2 * scale else scale);
    SqDouble(scale);
  }

  lemma {:induction false} DomainSqSum(q: Vec, v: Vec, scale: nat, sentinels: set<nat>, n: nat)
    requires InDomainOf(q, scale, sentinels) && InDomainOf(v, scale, sentinels) && n <= DIMS
    ensures SqSum(q, v, n) <= Weight(sentinels, n) * Sq(scale)
  {
    if n > 0 {
      DomainSqSum(q, v, scale, sentinels, n - 1);
      DomainTerm(q, v, scale, sentinels, n - 1);
      Distribute(Weight(sentinels, n - 1), TermWeight(sentinels, n - 1), Sq(scale));
    }
  }

  lemma Distribute(a: int, b: int, c: int)
    ensures a * c + b * c == (a + b) * c
  {
  }

  /** The two vectors that are furthest apart in a domain. */
  function Highest(scale: int): Vec { seq(PACKED_DIMS, d => if d < DIMS then scale else 0) }

  function Lowest(scale: int, sentinels: set<nat>): Vec {
    seq(PACKED_DIMS, d => if d < DIMS && d in sentinels then 0 - scale else 0)
  }

  lemma {:induction false} CornerSqSum(scale: nat, sentinels: set<nat>, n: nat)
    requires n <= DIMS
    ensures SqSum(Highest(scale), Lowest(scale, sentinels), n) == Weight(sentinels, n) * Sq(scale)
    decreases n
  {
    if n > 0 {
      CornerSqSum(scale, sentinels, n - 1);
      SqDouble(scale);
      Distribute(Weight(sentinels, n - 1), TermWeight(sentinels, n - 1), Sq(scale));
    }
  }

  lemma {:induction false} CornerDistance(scale: nat, sentinels: set<nat>)
    ensures InDomainOf(Highest(scale), scale, sentinels) && InDomainOf(Lowest(scale, sentinels), scale, sentinels)
    ensures Dist(Highest(scale), Lowest(scale, sentinels)) == Weight(sentinels, DIMS) * Sq(scale)
  {
    CornerSqSum(scale, sentinels, DIMS);
  }

  ghost predicate NothingWraps(scale: nat, sentinels: set<nat>) {
    forall q: Vec, v: Vec ::
      InDomainOf(q, scale, sentinels) && InDomainOf(v, scale, sentinels) ==> Wrap32(Dist(q, v)) == Dist(q, v)
  }

  /** Whatever dimensions the sentinel may be in: the bound is attained, so no accumulator
      wraps exactly when the bound fits 31 bits. */
  lemma {:induction false} NoWrapIffBoundFits(scale: nat, sentinels: set<nat>)
    ensures NothingWraps(scale, sentinels) <==> Weight(sentinels, DIMS) * Sq(scale) <= I32_MAX
  {
    if Weight(sentinels, DIMS) * Sq(scale) <= I32_MAX {
      forall q: Vec, v: Vec | InDomainOf(q, scale, sentinels) && InDomainOf(v, scale, sentinels)
        ensures Wrap32(Dist(q, v)) == Dist(q, v)
      {
        DomainSqSum(q, v, scale, sentinels, DIMS);
      }
    } else {
      CornerDistance(scale, sentinels);
      var q: Vec, v: Vec := Highest(scale), Lowest(scale, sentinels);
      AccumulatorExactIff(q, v);
      assert InDomainOf(q, scale, sentinels) && InDomainOf(v, scale, sentinels) && Wrap32(Dist(q, v)) != Dist(q, v);
    }
  }

  lemma {:induction false} WeightMeant(n: nat)
    requires n <= DIMS
    ensures Weight(MEANT, n) == if n <= 5 then n else if n == 6 then 9 else n + 6
  {
    if n > 0 { WeightMeant(n - 1); }
  }

  lemma {:induction false} WeightAnywhere(n: nat)
    requires n <= DIMS
    ensures Weight(ANYWHERE, n) == 4 * n
  {
    if n > 0 { WeightAnywhere(n - 1); }
  }

  /** With the sentinel where it is meant, distances are at most 20 * scale^2, and none wraps
      exactly when scale is at most 10362. The default scale of 10000 is fine; the largest that
      the build accepts, 11000, is not. */
  lemma {:induction false} NoWrapIffScale(scale: nat)
    ensures NothingWraps(scale, MEANT) <==> scale <= 10362
  {
    WeightMeant(DIMS);
    NoWrapIffBoundFits(scale, MEANT);
    ScaleLimit(scale, 20, 10362);
  }

  /** With the sentinel in any dimension they are at most 56 * scale^2, and none wraps exactly
      when scale is at most 6192: the default scale is too large. */
  lemma {:induction false} NoWrapAnywhereIffScale(scale: nat)
    ensures NothingWraps(scale, ANYWHERE) <==> scale <= 6192
  {
    WeightAnywhere(DIMS);
    NoWrapIffBoundFits(scale, ANYWHERE);
    ScaleLimit(scale, 56, 6192);
  }

  lemma ScaleLimit(scale: nat, weight: nat, limit: nat)
    requires weight * Sq(limit) <= I32_MAX < weight * Sq(limit + 1)
    ensures weight * Sq(scale) <= I32_MAX <==> scale <= limit
  {
    if scale <= limit {
      SqMono(scale, limit);
      WeighMono(weight, Sq(scale), Sq(limit));
    } else {
      SqMono(limit + 1, scale);
      WeighMono(weight, Sq(limit + 1), Sq(scale));
    }
  }

  lemma WeighMono(weight: nat, a: nat, b: nat)
    requires a <= b
    ensures weight * a <= weight * b
  {
  }

  /** A vector with the sentinel in three dimensions where it is not meant. */
  const STRAYED: Vec := [-10000, 0, 0, 0, 0, -10000, -10000, 0, 0, 0, 0, 0, 0, 0, 0, 0]

  /** At the default scale it is outside the domain, and the distance to it wraps below zero:
      the furthest of all references ranks as the nearest. */
  lemma {:induction false} StrayedIsNearest(q: Vec, v: Vec)
    requires q == Highest(SCALE) && v == STRAYED
    ensures InDomainOf(v, SCALE, ANYWHERE) && !InDomain(v, SCALE)
    ensures Dist(q, v) == 23 * Sq(SCALE) && Wrap32(Dist(q, v)) < 0
  {
    StrayedIsLowest(v, {0, 5, 6});
    LowestIsNearest(q, v, SCALE, {0, 5, 6});
  }

  lemma {:induction false} LowestIsNearest(q: Vec, v: Vec, scale: nat, sentinels: set<nat>)
    requires q == Highest(scale) && v == Lowest(scale, sentinels) && sentinels == {0, 5, 6}
    requires I32_MAX < 23 * Sq(scale) < 0x1_0000_0000 && scale > 0
    ensures InDomainOf(v, scale, ANYWHERE) && !InDomain(v, scale)
    ensures Dist(q, v) == 23 * Sq(scale) && Wrap32(Dist(q, v)) < 0
  {
    CornerDistance(scale, sentinels);
    StrayedWeight(sentinels, DIMS);
    StrayedIsOutside(v, scale);
    WrapsBelowZero(Dist(q, v));
  }

  lemma WrapsBelowZero(x: int)
    requires I32_MAX < x < 0x1_0000_0000
    ensures Wrap32(x) < 0
  {
  }

  lemma StrayedIsLowest(v: Vec, sentinels: set<nat>)
    requires v == STRAYED && sentinels == {0, 5, 6}
    ensures v == Lowest(SCALE, sentinels)
  {
  }

  lemma StrayedIsOutside(v: Vec, scale: nat)
    requires v == Lowest(scale, {0, 5, 6}) && scale > 0
    ensures InDomainOf(v, scale, ANYWHERE) && !InDomain(v, scale)
  {
    assert v[0] < 0 && 0 !in MEANT;
  }

  lemma {:induction false} StrayedWeight(sentinels: set<nat>, n: nat)
    requires sentinels == {0, 5, 6} && 0 < n <= DIMS
    ensures Weight(sentinels, n) == if n <= 5 then n + 3 else if n == 6 then 12 else n + 9
  {
    if n > 1 { StrayedWeight(sentinels, n - 1); } else { assert Weight(sentinels, 0) == 0; }
  }

  // ----- the box lower bound -----

  function Gap16(x: int, lo: int, hi: int): int { Max(Max(Wrap16(lo - x), 0), Max(Wrap16(x - hi), 0)) }

  /** Multiply-add of one pair of dimensions, as the 32-bit lane holds it. */
  function GapPair(q: Vec, lo: Vec, hi: Vec, p: nat): int
    requires p < PACKED_DIMS / 2
  {
    var g0 := Gap16(q[2 * p], lo[2 * p], hi[2 * p]);
    var g1 := Gap16(q[2 * p + 1], lo[2 * p + 1], hi[2 * p + 1]);
    Wrap32(Sq(g0) + Sq(g1))
  }

  /** One 64-bit lane after the two halves of the register are widened and added. */
  function WideLane(q: Vec, lo: Vec, hi: Vec, i: nat): int
    requires i < 4
  {
    GapPair(q, lo, hi, i) + GapPair(q, lo, hi, i + 4)
  }

  function WideSum(q: Vec, lo: Vec, hi: Vec, n: nat): int
    requires n <= 4
    decreases |q|, n
  {
    if n == 0 then 0 else WideSum(q, lo, hi, n - 1) + WideLane(q, lo, hi, n - 1)
  }

  /** `lower_bound_box_avx2`: all 64-bit lanes added up. */
  function LowerBoundBox(q: Vec, lo: Vec, hi: Vec): int { WideSum(q, lo, hi, 4) }

  lemma {:induction false} GapPairExact(q: Vec, lo: Vec, hi: Vec, p: nat)
    requires p < PACKED_DIMS / 2 && Small(q) && Small(lo) && Small(hi)
    ensures GapPair(q, lo, hi, p) == GapSum(q, lo, hi, 2 * p + 2) - GapSum(q, lo, hi, 2 * p)
  {
    var g0, g1 := Gap(q[2 * p], lo[2 * p], hi[2 * p]), Gap(q[2 * p + 1], lo[2 * p + 1], hi[2 * p + 1]);
    assert Gap16(q[2 * p], lo[2 * p], hi[2 * p]) == g0 && Gap16(q[2 * p + 1], lo[2 * p + 1], hi[2 * p + 1]) == g1;
    SmallPairFits(g0, g1);
    SmallPairFits(g1, g0);
    assert GapSum(q, lo, hi, 2 * p + 2) == GapSum(q, lo, hi, 2 * p + 1) + Sq(g1);
  }

  lemma {:induction false} WideLaneExact(q: Vec, lo: Vec, hi: Vec, i: nat)
    requires i < 4 && Small(q) && Small(lo) && Small(hi)
    ensures WideLane(q, lo, hi, i) == GapSum(q, lo, hi, 2 * i + 2) - GapSum(q, lo, hi, 2 * i)
                                      + GapSum(q, lo, hi, 2 * i + 10) - GapSum(q, lo, hi, 2 * i + 8)
  {
    GapPairExact(q, lo, hi, i);
    GapPairExact(q, lo, hi, i + 4);
  }

  lemma {:induction false} WideSumExact(q: Vec, lo: Vec, hi: Vec, n: nat)
    requires n <= 4 && Small(q) && Small(lo) && Small(hi)
    ensures WideSum(q, lo, hi, n) == GapSum(q, lo, hi, 2 * n) + GapSum(q, lo, hi, 2 * n + 8) - GapSum(q, lo, hi, 8)
  {
    if n > 0 {
      WideSumExact(q, lo, hi, n - 1);
      WideLaneExact(q, lo, hi, n - 1);
    }
  }

  /** The bound is the sum of squared gaps over all 16 dimensions. */
  lemma {:induction false} LowerBoundExact(q: Vec, lo: Vec, hi: Vec)
    requires Small(q) && Small(lo) && Small(hi)
    ensures LowerBoundBox(q, lo, hi) == GapSum(q, lo, hi, PACKED_DIMS)
  {
    WideSumExact(q, lo, hi, 4);
  }

  lemma {:induction false} GapBelowDistance(q: Vec, v: Vec, lo: Vec, hi: Vec, n: nat)
    requires n <= PACKED_DIMS && InBox(v, lo, hi)
    ensures GapSum(q, lo, hi, n) <= SqSum(q, v, n)
  {
    if n > 0 {
      GapBelowDistance(q, v, lo, hi, n - 1);
      GapBelowDifference(q[n - 1], v[n - 1], lo[n - 1], hi[n - 1]);
    }
  }

  lemma GapBelowDifference(x: int, y: int, lo: int, hi: int)
    requires lo <= y <= hi
    ensures Sq(Gap(x, lo, hi)) <= Sq(x - y)
  {
    SqMono(Gap(x, lo, hi), if x >= y then x - y else y - x);
    SqNeg(x - y);
  }

  lemma SqNeg(x: int)
    ensures Sq(0 - x) == Sq(x)
  {
  }

  function Clamp(x: int, lo: int, hi: int): int { Max(lo, Min(x, hi)) }

  /** The point of the box that is nearest to the query. */
  function Nearest(q: Vec, lo: Vec, hi: Vec): Vec {
    seq(PACKED_DIMS, d requires 0 <= d < PACKED_DIMS => Clamp(q[d], lo[d], hi[d]))
  }

  lemma {:induction false} NearestDistance(q: Vec, lo: Vec, hi: Vec, n: nat)
    requires n <= PACKED_DIMS && forall d :: 0 <= d < PACKED_DIMS ==> lo[d] <= hi[d]
    ensures SqSum(q, Nearest(q, lo, hi), n) == GapSum(q, lo, hi, n)
  {
    if n > 0 {
      NearestDistance(q, lo, hi, n - 1);
      var diff := q[n - 1] - Nearest(q, lo, hi)[n - 1];
      assert Sq(diff) == Sq(-diff);
      assert Gap(q[n - 1], lo[n - 1], hi[n - 1]) == diff || Gap(q[n - 1], lo[n - 1], hi[n - 1]) == -diff;
    }
  }

  /** The 16-dimension bound is at most the 14-dimension distance to every vector of the
      box exactly when the query's padding lies inside the box's padding. */
  lemma AdmissibleIff(q: Vec, lo: Vec, hi: Vec)
    requires Small(q) && Small(lo) && Small(hi)
    requires forall d :: 0 <= d < PACKED_DIMS ==> lo[d] <= hi[d]
    ensures (forall v: Vec :: InBox(v, lo, hi) ==> LowerBoundBox(q, lo, hi) <= Dist(q, v))
            <==> lo[14] <= q[14] <= hi[14] && lo[15] <= q[15] <= hi[15]
  {
    LowerBoundExact(q, lo, hi);
    var g14, g15 := Gap(q[14], lo[14], hi[14]), Gap(q[15], lo[15], hi[15]);
    assert GapSum(q, lo, hi, 16) == GapSum(q, lo, hi, 14) + Sq(g14) + Sq(g15) by {
      assert GapSum(q, lo, hi, 15) == GapSum(q, lo, hi, 14) + Sq(g14);
    }
    if lo[14] <= q[14] <= hi[14] && lo[15] <= q[15] <= hi[15] {
      forall v: Vec | InBox(v, lo, hi) ensures LowerBoundBox(q, lo, hi) <= Dist(q, v) {
        GapBelowDistance(q, v, lo, hi, DIMS);
      }
    } else {
      NearestDistance(q, lo, hi, DIMS);
      var v := Nearest(q, lo, hi);
      assert InBox(v, lo, hi);
      SqPositive(g14);
      SqPositive(g15);
      assert LowerBoundBox(q, lo, hi) > Dist(q, v);
    }
  }

  lemma SqPositive(x: int)
    ensures x != 0 ==> Sq(x) > 0
  {
  }
}
