/** What the partition tree is learned from: a sample of the references, and the thresholds
    that may split them. */
module Sampling {
  import opened Base
  import opened Training

  const SAMPLE_QUERIES := 1024

  // ----- the sample -----

  /** The distance between sampled positions. */
  function SampleStep(n: nat, most: nat): nat { Max(1, n / Max(1, Min(n, most))) }

  lemma StepsAscend(step: nat, i: nat, j: nat)
    requires step > 0 && i < j
    ensures i * step < j * step
  {
    assert j * step == i * step + (j - i) * step;
  }

  lemma FloorTimes(n: nat, sample: nat, step: nat)
    requires 0 < sample <= n && step == n / sample
    ensures step > 0 && sample * step <= n
  {
  }

  lemma SampleInRange(n: nat, most: nat, i: nat)
    requires i < n && i < Max(1, most)
    ensures i * SampleStep(n, most) < n
  {
    var sample := Max(1, Min(n, most));
    FloorTimes(n, sample, n / sample);
    StepsAscend(n / sample, i, sample);
  }

  function Spread(step: nat, count: nat): (r: seq<nat>)
    ensures |r| == count
  {
    seq(count, i requires 0 <= i < count => i * step)
  }

  lemma SpreadMore(step: nat, count: nat)
    ensures Spread(step, count + 1) == Spread(step, count) + [count * step]
  {
  }

  /** All positions, or as many as asked for: then each is the same distance behind the one before. */
  predicate EvenlySpread(n: nat, most: nat, idx: seq<nat>)
    requires most > 0
  {
    && |idx| == (if n < most then n else most)
    && forall i :: 0 <= i < |idx| ==> idx[i] == if n <= most then i else i * (n / most)
  }

  lemma SpreadIsEven(n: nat, most: nat)
    requires most > 0
    ensures EvenlySpread(n, most, Spread(SampleStep(n, most), Min(n, most)))
  {
    if n >= most { assert n / most >= 1; }
    if 0 < n <= most { assert n / n == 1; }
  }

  /** `sample_indices`: as many positions as asked for, or all of them, evenly spread. */
  method SampleIndices(n: nat, most: nat) returns (idx: seq<nat>)
    ensures idx == Spread(SampleStep(n, most), Min(n, Max(1, most)))
    ensures Ascending(idx) && forall i :: 0 <= i < |idx| ==> idx[i] < n
    ensures most > 0 ==> EvenlySpread(n, most, idx)
  {
    var sample := Max(1, Min(n, most));
    var step := Max(1, n / sample);
    idx := [];
    var at := 0;
    while at < n && |idx| < sample
      invariant |idx| <= Min(n, sample) && at == |idx| * step && idx == Spread(step, |idx|)
    {
      SpreadMore(step, |idx|);
      idx := idx + [at];
      at := at + step;
    }
    if |idx| < Min(n, sample) { SampleInRange(n, most, |idx|); }
    SpreadInRange(n, most, |idx|);
    if most > 0 { SpreadIsEven(n, most); }
  }

  lemma SpreadInRange(n: nat, most: nat, count: nat)
    requires count <= n && count <= Max(1, most)
    ensures var idx := Spread(SampleStep(n, most), count);
            Ascending(idx) && forall i :: 0 <= i < |idx| ==> idx[i] < n
  {
    forall i | 0 <= i < count ensures i * SampleStep(n, most) < n { SampleInRange(n, most, i); }
    forall i, j | 0 <= i < j < count ensures i * SampleStep(n, most) < j * SampleStep(n, most) {
      StepsAscend(SampleStep(n, most), i, j);
    }
  }

  /** The vectors at the sampled positions. */
  function Sampled(refs: seq<Reference>): (r: seq<Vec>)
    ensures |r| == Min(|refs|, SAMPLE_QUERIES)
  {
    var idx := Spread(SampleStep(|refs|, SAMPLE_QUERIES), Min(|refs|, SAMPLE_QUERIES));
    SpreadInRange(|refs|, SAMPLE_QUERIES, Min(|refs|, SAMPLE_QUERIES));
    seq(|idx|, i requires 0 <= i < |idx| => refs[idx[i]].vector)
  }

  lemma SameSpread(n: nat, most: nat, idx: seq<nat>, other: seq<nat>)
    requires most > 0 && EvenlySpread(n, most, idx) && EvenlySpread(n, most, other)
    ensures idx == other
  {
  }

  /** The sample is all references, or 1024 that are evenly spread. */
  lemma SampledAre(refs: seq<Reference>, idx: seq<nat>)
    requires EvenlySpread(|refs|, 1024, idx)
    ensures |Sampled(refs)| == |idx|
    ensures forall i :: 0 <= i < |idx| ==> idx[i] < |refs| && Sampled(refs)[i] == refs[idx[i]].vector
  {
    SpreadIsEven(|refs|, SAMPLE_QUERIES);
    SameSpread(|refs|, SAMPLE_QUERIES, idx, Spread(SampleStep(|refs|, SAMPLE_QUERIES), Min(|refs|, SAMPLE_QUERIES)));
    SpreadInRange(|refs|, SAMPLE_QUERIES, |idx|);
  }

  // ----- the thresholds -----

  function InsertValue(s: seq<int>, x: int): (r: seq<int>)
    requires Ascending(s)
    ensures Ascending(r) && forall y :: y in r <==> y == x || y in s
  {
    if s == [] then [x]
    else if x < s[0] then [x] + s
    else if x == s[0] then s
    else
      var rest := InsertValue(s[1..], x);
      assert forall y :: y in s <==> y == s[0] || y in s[1..];
      assert forall i :: 0 <= i < |rest| ==> rest[i] in rest && s[0] < rest[i];
      [s[0]] + rest
  }

  /** Stands for sorting and dropping repetitions. */
  function Distinct(s: seq<int>): (r: seq<int>)
    ensures Ascending(r) && forall y :: y in r <==> y in s
  {
    if s == [] then []
    else
      assert forall y :: y in s <==> y == s[|s| - 1] || y in s[..|s| - 1];
      InsertValue(Distinct(s[..|s| - 1]), s[|s| - 1])
  }

  /** The source divides toward zero. */
  function Midpoint(a: int, b: int): int { if a + b >= 0 then (a + b) / 2 else -(-(a + b) / 2) }

  /** Between two values, unless they are adjacent and not positive. */
  lemma MidpointBetween(a: int, b: int)
    requires a < b
    ensures a <= Midpoint(a, b) <= b && (Midpoint(a, b) == b <==> b <= 0 && b == a + 1)
  {
  }

  /** Midpoints of few values, quantiles of many. */
  function Thresholds(values: seq<int>): (r: seq<int>) {
    if |values| <= 1 then []
    else if |values| <= 64
      then seq(|values| - 1, i requires 0 <= i < |values| - 1 => Midpoint(values[i], values[i + 1]))
    else seq(15, q requires 0 <= q < 15 => (QuantileIndex(|values| - 1, q); values[(|values| - 1) * (q + 1) / 16]))
  }

  /** The largest of few values is a threshold. */
  predicate TopIsThreshold(values: seq<int>) {
    1 < |values| <= 64 && values[|values| - 1] <= 0 && values[|values| - 1] == values[|values| - 2] + 1
  }

  lemma FewThresholds(values: seq<int>, r: seq<int>)
    requires 1 < |values| <= 64 && r == Thresholds(values)
    ensures |r| == |values| - 1 && forall i :: 0 <= i < |r| ==> r[i] == Midpoint(values[i], values[i + 1])
  {
  }

  lemma MidpointsSeparate(values: seq<int>, r: seq<int>, last: nat)
    requires Ascending(values) && 1 < |values| <= 64 && r == Thresholds(values) && last == |values| - 1
    ensures forall t :: t in r ==> values[0] <= t <= values[last]
    ensures values[last] in r <==> TopIsThreshold(values)
  {
    FewThresholds(values, r);
    forall i | 0 <= i < last ensures values[0] <= r[i] <= values[last] && (r[i] == values[last] ==> i == last - 1) {
      OneMidpoint(values, i, last, r[i]);
    }
    MidpointBetween(values[last - 1], values[last]);
    assert r[last - 1] in r;
  }

  lemma OneMidpoint(values: seq<int>, i: nat, last: nat, t: int)
    requires Ascending(values) && i < last == |values| - 1 && t == Midpoint(values[i], values[i + 1])
    ensures values[0] <= t <= values[last] && (t == values[last] ==> i == last - 1)
  {
    var a, b := values[i], values[i + 1];
    assert values[0] <= a < b <= values[last] && (b == values[last] ==> i + 1 == last);
    MidpointBetween(a, b);
  }

  lemma QuantileIndex(last: nat, q: nat)
    requires last > 0 && q < 15
    ensures 0 <= last * (q + 1) / 16 < last
  {
    assert last * (q + 1) <= last * 15;
  }

  lemma QuantilesSeparate(values: seq<int>)
    requires Ascending(values) && |values| > 64
    ensures forall t :: t in Thresholds(values) ==> values[0] <= t < values[|values| - 1]
  {
    var r, last := Thresholds(values), |values| - 1;
    forall q | 0 <= q < 15 ensures values[0] <= r[q] < values[last] {
      QuantileIndex(last, q);
      assert r[q] == values[last * (q + 1) / 16];
    }
  }

  /** Of distinct values no threshold is below the smallest or above the largest; and one that
      leaves nothing above it exists exactly when the two largest of at most 64 values are
      adjacent and not positive. */
  lemma ThresholdsSeparate(values: seq<int>)
    requires Ascending(values)
    ensures forall t :: t in Thresholds(values) ==> |values| > 1 && values[0] <= t <= values[|values| - 1]
    ensures values != [] ==> (values[|values| - 1] in Thresholds(values) <==> TopIsThreshold(values))
  {
    if 1 < |values| <= 64 {
      MidpointsSeparate(values, Thresholds(values), |values| - 1);
    } else if |values| > 64 {
      QuantilesSeparate(values);
    }
  }

  /** Nothing between the two values is nearer to both, and of the two nearest it is the one toward zero. */
  predicate IsMidpoint(a: int, b: int, t: int) {
    && -1 <= 2 * t - (a + b) <= 1
    && (a + b >= 0 ==> 2 * t <= a + b) && (a + b <= 0 ==> 2 * t >= a + b)
  }

  /** `t` has a sixteenth of `count`, `q` times, of the values below it, as far as that is whole. */
  predicate IsQuantile(values: seq<int>, q: nat, t: int) {
    exists rank :: 0 <= rank < |values| && values[rank] == t && 16 * rank <= (|values| - 1) * q < 16 * rank + 16
  }

  /** Of distinct values: the midpoints of neighbours, or of more than 64 values the 15 that cut
      them into sixteenths. */
  lemma ThresholdsAre(values: seq<int>)
    requires Ascending(values)
    ensures var r := Thresholds(values);
            && (|values| <= 1 ==> r == [])
            && (1 < |values| <= 64 ==>
                  |r| == |values| - 1 && forall i :: 0 <= i < |r| ==> IsMidpoint(values[i], values[i + 1], r[i]))
            && (|values| > 64 ==> |r| == 15 && forall q :: 0 <= q < 15 ==> IsQuantile(values, q + 1, r[q]))
  {
    if 1 < |values| <= 64 {
      forall i | 0 <= i < |values| - 1 ensures IsMidpoint(values[i], values[i + 1], Thresholds(values)[i]) {
        MidpointIs(values[i], values[i + 1]);
      }
    } else if |values| > 64 {
      forall q: nat | q < 15 ensures IsQuantile(values, q + 1, Thresholds(values)[q]) {
        QuantileIs(values, q);
      }
    }
  }

  lemma MidpointIs(a: int, b: int)
    ensures IsMidpoint(a, b, Midpoint(a, b))
  {
  }

  lemma QuantileIs(values: seq<int>, q: nat)
    requires |values| > 64 && q < 15
    ensures IsQuantile(values, q + 1, Thresholds(values)[q])
  {
    var rank := (|values| - 1) * (q + 1) / 16;
    QuantileIndex(|values| - 1, q);
    assert values[rank] == Thresholds(values)[q];
  }

  // ----- the candidates -----

  /** The values of one feature, each once. */
  function Values(refs: seq<Reference>, d: nat): (r: seq<int>)
    requires d < DIMS
    ensures Ascending(r)
  {
    Distinct(seq(|refs|, x requires 0 <= x < |refs| => refs[x].vector[d]))
  }

  lemma ValuesAre(refs: seq<Reference>, d: nat, v: int)
    requires d < DIMS
    ensures v in Values(refs, d) <==> exists x :: 0 <= x < |refs| && refs[x].vector[d] == v
  {
    var all := seq(|refs|, x requires 0 <= x < |refs| => refs[x].vector[d]);
    if v in all {
      var x :| 0 <= x < |all| && all[x] == v;
      assert refs[x].vector[d] == v;
    }
    if x :| 0 <= x < |refs| && refs[x].vector[d] == v { assert all[x] == v; }
  }

  function OfDim(d: nat, thresholds: seq<int>): (r: seq<Candidate>)
    ensures |r| == |thresholds| && forall i :: 0 <= i < |r| ==> r[i] == Candidate(d, thresholds[i])
  {
    seq(|thresholds|, i requires 0 <= i < |thresholds| => Candidate(d, thresholds[i]))
  }

  /** By feature and threshold. */
  predicate Precedes(a: Candidate, b: Candidate) { a.dim < b.dim || (a.dim == b.dim && a.threshold < b.threshold) }

  /** Exactly the thresholds of the first `dims` features, in order and each once. */
  ghost predicate Listed(refs: seq<Reference>, candidates: seq<Candidate>, dims: nat)
    requires dims <= DIMS
  {
    && (forall i, j :: 0 <= i < j < |candidates| ==> Precedes(candidates[i], candidates[j]))
    && forall c :: c in candidates <==> c.dim < dims && c.threshold in Thresholds(Values(refs, c.dim))
  }

  /** `candidate_predicates`. Its candidates come feature by feature, so sorting all of them and
      dropping repetitions at the end does both within each feature. */
  method CandidatePredicates(refs: seq<Reference>) returns (candidates: seq<Candidate>)
    ensures Listed(refs, candidates, DIMS)
  {
    candidates := [];
    var d := 0;
    while d < DIMS
      invariant 0 <= d <= DIMS && Listed(refs, candidates, d)
    {
      var thresholds := Distinct(Thresholds(Values(refs, d)));
      ListedMore(refs, candidates, d, thresholds);
      candidates := candidates + OfDim(d, thresholds);
      d := d + 1;
    }
  }

  lemma ListedMore(refs: seq<Reference>, candidates: seq<Candidate>, d: nat, thresholds: seq<int>)
    requires d < DIMS && Listed(refs, candidates, d) && thresholds == Distinct(Thresholds(Values(refs, d)))
    ensures Listed(refs, candidates + OfDim(d, thresholds), d + 1)
  {
    var more := OfDim(d, thresholds);
    forall c | c in more ensures c.dim == d && c.threshold in thresholds {}
    forall t | t in thresholds ensures Candidate(d, t) in more {
      var i :| 0 <= i < |thresholds| && thresholds[i] == t;
      assert more[i] == Candidate(d, t);
    }
    forall i, j | 0 <= i < j < |candidates + more| ensures Precedes((candidates + more)[i], (candidates + more)[j]) {
      if i < |candidates| { assert candidates[i] in candidates; }
    }
  }

  /** A candidate leaves a reference on its left, and one on its right exactly when it is not
      the largest value of its feature; `ThresholdsSeparate` says when that happens. */
  lemma CandidateSeparates(refs: seq<Reference>, c: Candidate)
    requires c.dim < DIMS && c.threshold in Thresholds(Values(refs, c.dim))
    ensures exists x :: 0 <= x < |refs| && !Matches(refs[x].vector, c)
    ensures var values := Values(refs, c.dim);
            && |values| > 1
            && ((exists x :: 0 <= x < |refs| && Matches(refs[x].vector, c)) <==> c.threshold != values[|values| - 1])
  {
    var values := Values(refs, c.dim);
    ThresholdsSeparate(values);
    var low := SomeValue(refs, c.dim, 0);
    assert !Matches(refs[low].vector, c);
    if c.threshold == values[|values| - 1] { NoneAbove(refs, c, values); } else { SomeAbove(refs, c, values); }
  }

  lemma SomeAbove(refs: seq<Reference>, c: Candidate, values: seq<int>)
    requires c.dim < DIMS && values == Values(refs, c.dim) && values != [] && c.threshold < values[|values| - 1]
    ensures exists x :: 0 <= x < |refs| && Matches(refs[x].vector, c)
  {
    var high := SomeValue(refs, c.dim, |values| - 1);
    assert Matches(refs[high].vector, c);
  }

  lemma NoneAbove(refs: seq<Reference>, c: Candidate, values: seq<int>)
    requires c.dim < DIMS && values == Values(refs, c.dim) && values != [] && c.threshold == values[|values| - 1]
    ensures forall x :: 0 <= x < |refs| ==> !Matches(refs[x].vector, c)
  {
    forall x | 0 <= x < |refs| ensures !Matches(refs[x].vector, c) {
      ValuesAre(refs, c.dim, refs[x].vector[c.dim]);
      var k :| 0 <= k < |values| && values[k] == refs[x].vector[c.dim];
    }
  }

  lemma SomeValue(refs: seq<Reference>, d: nat, i: nat) returns (x: nat)
    requires d < DIMS && i < |Values(refs, d)|
    ensures x < |refs| && refs[x].vector[d] == Values(refs, d)[i]
  {
    ValuesAre(refs, d, Values(refs, d)[i]);
    x :| 0 <= x < |refs| && refs[x].vector[d] == Values(refs, d)[i];
  }
}
