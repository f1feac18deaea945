/**
 * The K best slots: the ordered insertion buffer of the search, and what it means for
 * such a buffer to be the answer of a plain scan over a set of candidates.
 */
module TopK {
  import opened Base

  /** One position of the best arrays: distance, label, reference index, partition key. */
  datatype Slot = Slot(dist: int, lbl: nat, idx: int, key: int)

  const EMPTY := Slot(I64_MAX, 0, U32_MAX, U32_MAX)

  /** `candidate_before`: by distance, then by reference index. */
  predicate Before(a: Slot, b: Slot) { a.dist < b.dist || (a.dist == b.dist && a.idx < b.idx) }

  /** The order of the tree search (`ties`) or of the distances alone. */
  predicate Less(a: Slot, b: Slot, ties: bool) { if ties then Before(a, b) else a.dist < b.dist }

  predicate Sorted(b: seq<Slot>) { forall i, j :: 0 <= i < j < |b| ==> !Before(b[j], b[i]) }

  ghost predicate Candidates(c: set<Slot>) {
    && (forall x :: x in c ==> 0 <= x.dist < I64_MAX && 0 <= x.idx < U32_MAX)
    && (forall x, y :: x in c && y in c && x.idx == y.idx ==> x == y)
  }

  /** `b` is sorted and holds distinct candidates, then empty slots. */
  ghost predicate Holds(b: seq<Slot>, c: set<Slot>) {
    && |b| == K && Sorted(b)
    && (forall i :: 0 <= i < K ==> b[i] == EMPTY || b[i] in c)
    && (forall i, j :: 0 <= i < j < K && b[i] == b[j] ==> b[i] == EMPTY)
  }

  ghost predicate Covers(b: seq<Slot>, c: set<Slot>, ties: bool) {
    Holds(b, c) && forall x :: x in c ==> x in b || !Less(x, b[K - 1], ties)
  }

  /** The lexicographic (distance, index) top K of the candidates. */
  ghost predicate IsTopK(b: seq<Slot>, c: set<Slot>) { Covers(b, c, true) }

  /** A valid K-nearest set: nothing left out is strictly closer than the last slot. */
  ghost predicate IsKNearest(b: seq<Slot>, c: set<Slot>) { Covers(b, c, false) }

  function Real(b: seq<Slot>): (r: set<Slot>) { set x | x in b && x != EMPTY }

  function LabelSum(b: seq<Slot>): nat { if b == [] then 0 else LabelSum(b[..|b| - 1]) + b[|b| - 1].lbl }

  // ----- insertion -----

  /** Where the shifting loop stops when it starts at position `n`. */
  function Slide(b: seq<Slot>, e: Slot, n: nat): (p: nat)
    requires n <= |b|
    ensures p <= n
    ensures forall i :: p <= i < n ==> Before(e, b[i])
    ensures p > 0 ==> !Before(e, b[p - 1])
  {
    if n > 0 && Before(e, b[n - 1]) then Slide(b, e, n - 1) else n
  }

  /** The buffer after offering `e`. */
  function Insert(b: seq<Slot>, e: Slot): seq<Slot>
    requires |b| == K
  {
    if !Before(e, b[K - 1]) then b
    else var p := Slide(b, e, K - 1); b[..p] + [e] + b[p..K - 1]
  }

  /** `insert_best` and `insert_best_fast`, in place. */
  method InsertBest(best: array<Slot>, e: Slot)
    requires best.Length == K
    modifies best
    ensures best[..] == Insert(old(best[..]), e)
  {
    ghost var b := best[..];
    if !Before(e, best[K - 1]) { return; }
    var pos := K - 1;
    while pos > 0 && Before(e, best[pos - 1])
      invariant 0 <= pos <= K - 1
      invariant forall i :: 0 <= i <= pos ==> i < K - 1 ==> best[i] == b[i]
      invariant forall i :: pos < i < K ==> best[i] == b[i - 1]
      invariant Slide(b, e, K - 1) == Slide(b, e, pos)
    {
      best[pos] := best[pos - 1];
      pos := pos - 1;
    }
    best[pos] := e;
    assert best[..] == b[..pos] + [e] + b[pos..K - 1];
  }

  lemma InsertSorted(b: seq<Slot>, e: Slot)
    requires |b| == K && Sorted(b)
    ensures |Insert(b, e)| == K && Sorted(Insert(b, e))
    ensures !Before(b[K - 1], Insert(b, e)[K - 1])
  {
  }

  /** Insertion keeps everything but, when the new slot enters, the last one. */
  lemma InsertKeeps(b: seq<Slot>, e: Slot, i: nat)
    requires |b| == K && i < K
    ensures |Insert(b, e)| == K
    ensures Before(e, b[K - 1]) ==> e in Insert(b, e)
    ensures i < K - 1 || !Before(e, b[K - 1]) ==> b[i] in Insert(b, e)
    ensures Insert(b, e)[i] == e || Insert(b, e)[i] in b
  {
    if Before(e, b[K - 1]) {
      var p := Slide(b, e, K - 1);
      var n := Insert(b, e);
      assert n[p] == e;
      assert i < p ==> n[i] == b[i];
      assert i > p ==> n[i] == b[i - 1];
      assert p <= i < K - 1 ==> n[i + 1] == b[i];
    }
  }

  lemma InsertHolds(b: seq<Slot>, c: set<Slot>, e: Slot)
    requires Holds(b, c) && e !in c && e != EMPTY
    ensures Holds(Insert(b, e), c + {e})
  {
    InsertSorted(b, e);
    forall i | 0 <= i < K ensures Insert(b, e)[i] == EMPTY || Insert(b, e)[i] in c + {e} {
      InsertKeeps(b, e, i);
    }
    if Before(e, b[K - 1]) {
      var p, n := Slide(b, e, K - 1), Insert(b, e);
      forall i, j | 0 <= i < j < K && n[i] == n[j] ensures n[i] == EMPTY {
        assert n[i] == (if i < p then b[i] else if i == p then e else b[i - 1]);
        assert n[j] == (if j < p then b[j] else if j == p then e else b[j - 1]);
      }
    }
  }

  /** Offering a new candidate to the top K of a set gives the top K of the larger set. */
  lemma InsertTopK(b: seq<Slot>, c: set<Slot>, e: Slot)
    requires IsTopK(b, c) && e !in c && Candidates(c + {e})
    ensures IsTopK(Insert(b, e), c + {e})
  {
    InsertHolds(b, c, e);
    InsertSorted(b, e);
    var n := Insert(b, e);
    forall x | x in c + {e} ensures x in n || !Before(x, n[K - 1]) {
      if x == e {
        InsertKeeps(b, e, 0);
      } else if x in b {
        var i :| 0 <= i < K && b[i] == x;
        InsertKeeps(b, e, i);
      }
    }
  }

  // ----- what the answer is, independently of how it is found -----

  function Elements(b: seq<Slot>): set<Slot> { set x | x in b }

  lemma {:induction false} DistinctCard(b: seq<Slot>)
    ensures |Elements(b)| <= |b|
    ensures (forall i, j :: 0 <= i < j < |b| ==> b[i] != b[j]) ==> |Elements(b)| == |b|
  {
    if b != [] {
      var front, last := b[..|b| - 1], b[|b| - 1];
      DistinctCard(front);
      assert Elements(b) == Elements(front) + {last};
    }
  }

  lemma SubsetCard(a: set<Slot>, b: set<Slot>)
    requires a <= b
    ensures |a| <= |b|
  {
    assert b == a + (b - a);
  }

  lemma Pigeonhole(a: seq<Slot>, b: seq<Slot>)
    requires forall i, j :: 0 <= i < j < |a| ==> a[i] != a[j]
    requires forall x :: x in a ==> x in b
    ensures |a| <= |b|
  {
    DistinctCard(a);
    DistinctCard(b);
    SubsetCard(Elements(a), Elements(b));
  }

  /** Position by position, no selection of distinct candidates beats a covering one. */
  lemma Pointwise(b: seq<Slot>, c: set<Slot>, other: seq<Slot>, i: nat, ties: bool)
    requires Candidates(c) && Covers(b, c, ties) && Holds(other, c) && i < K
    ensures !Less(other[i], b[i], ties)
  {
    if Less(other[i], b[i], ties) {
      var few := other[..i + 1];
      forall x | x in few ensures x in b[..i] {
        assert !Less(b[i], b[K - 1], ties) || i < K - 1;
        assert Less(x, b[i], ties) && x in c;
        assert x in b;
        var j :| 0 <= j < K && b[j] == x;
        assert j < i;
        assert b[..i][j] == x;
      }
      assert forall k, m :: 0 <= k < m < |few| ==> few[k] == other[k] && few[m] == other[m];
      Pigeonhole(few, b[..i]);
    }
  }

  /** A K-nearest set has exactly the K smallest distances: its distances are those of
      every other K-nearest set, and no selection is smaller anywhere. */
  lemma KNearestDistances(b: seq<Slot>, c: set<Slot>, other: seq<Slot>)
    requires Candidates(c) && IsKNearest(b, c) && Holds(other, c)
    ensures forall i :: 0 <= i < K ==> b[i].dist <= other[i].dist
    ensures IsKNearest(other, c) ==> forall i :: 0 <= i < K ==> b[i].dist == other[i].dist
  {
    forall i | 0 <= i < K
      ensures b[i].dist <= other[i].dist && (IsKNearest(other, c) ==> b[i].dist == other[i].dist)
    {
      Pointwise(b, c, other, i, false);
      if IsKNearest(other, c) { Pointwise(other, c, b, i, false); }
    }
  }

  /** The lexicographic top K is unique. */
  lemma TopKUnique(b: seq<Slot>, c: set<Slot>, other: seq<Slot>)
    requires Candidates(c) && IsTopK(b, c) && IsTopK(other, c)
    ensures b == other
  {
    forall i | 0 <= i < K ensures b[i] == other[i] {
      Pointwise(b, c, other, i, true);
      Pointwise(other, c, b, i, true);
    }
  }

  lemma TopKIsKNearest(b: seq<Slot>, c: set<Slot>)
    requires IsTopK(b, c)
    ensures IsKNearest(b, c)
  {
  }

  const NOTHING := [EMPTY, EMPTY, EMPTY, EMPTY, EMPTY]

  lemma TopKOfNothing()
    ensures IsTopK(NOTHING, {})
  {
  }

  /** Every finite set of candidates has a top K. */
  lemma {:induction false} TopKExists(c: set<Slot>) returns (b: seq<Slot>)
    requires Candidates(c)
    ensures IsTopK(b, c)
    decreases |c|
  {
    if c == {} {
      b := NOTHING;
    } else {
      var e :| e in c;
      b := TopKExists(c - {e});
      InsertTopK(b, c - {e}, e);
      b := Insert(b, e);
      assert c - {e} + {e} == c;
    }
  }

  /** Nothing outside the top K is as close as its last slot. */
  ghost predicate NoTieAtCut(c: set<Slot>) {
    forall b: seq<Slot> :: IsTopK(b, c) ==> forall x :: x in c && x.dist == b[K - 1].dist ==> x in b
  }

  lemma ClosestAreOnTop(b: seq<Slot>, c: set<Slot>, top: seq<Slot>, x: Slot)
    requires Candidates(c) && IsKNearest(b, c) && IsTopK(top, c) && NoTieAtCut(c)
    requires x in c && x.dist <= b[K - 1].dist
    ensures x in top
  {
    KNearestDistances(b, c, top);
  }

  lemma NoTieUnique(b: seq<Slot>, c: set<Slot>, top: seq<Slot>)
    requires Candidates(c) && IsKNearest(b, c) && IsTopK(top, c) && NoTieAtCut(c)
    ensures b == top
  {
    forall x | x in c && Before(x, b[K - 1]) ensures x in b {
      if x !in b {
        // b and x together would be K + 1 different elements of top
        assert b[K - 1] != EMPTY;
        var more := b + [x];
        assert forall i :: 0 <= i < K ==> more[i] == b[i] && b[i].dist <= b[K - 1].dist;
        forall y | y in more ensures y in top {
          ClosestAreOnTop(b, c, top, y);
        }
        Pigeonhole(more, top);
      }
    }
    TopKUnique(b, c, top);
  }

  lemma {:induction false} LabelSumConcat(a: seq<Slot>, b: seq<Slot>)
    ensures LabelSum(a + b) == LabelSum(a) + LabelSum(b)
  {
    if b == [] {
      assert a + b == a;
    } else {
      var front := b[..|b| - 1];
      LabelSumConcat(a, front);
      assert (a + b)[..|a + b| - 1] == a + front;
    }
  }

  /** The slots with `x` for the one at `p`. */
  function Exchanged(b: seq<Slot>, p: nat, x: Slot): (r: seq<Slot>)
    requires p < |b|
    ensures |r| == |b| && LabelSum(r) + b[p].lbl == LabelSum(b) + x.lbl
  {
    LabelSumConcat(b[..p], b[p + 1..]);
    LabelSumConcat(b[..p] + b[p + 1..], [x]);
    LabelSumConcat(b[..p], [b[p]]);
    LabelSumConcat(b[..p] + [b[p]], b[p + 1..]);
    assert b == b[..p] + [b[p]] + b[p + 1..];
    b[..p] + b[p + 1..] + [x]
  }

  lemma ExchangedAt(b: seq<Slot>, p: nat, x: Slot)
    requires |b| == K && p < K
    ensures var other := Exchanged(b, p, x);
            |other| == K && other[K - 1] == x && forall i :: 0 <= i < K - 1 ==>
              other[i] == b[if i < p then i else i + 1]
  {
  }

  lemma ExchangedHolds(b: seq<Slot>, c: set<Slot>, p: nat, x: Slot)
    requires Holds(b, c) && x in c && x !in b && x != EMPTY && p < K && forall i :: 0 <= i < K ==> !Before(x, b[i])
    ensures Holds(Exchanged(b, p, x), c)
  {
    ExchangedAt(b, p, x);
  }

  /** Another K-nearest set, when a candidate left out ties with a slot at the last distance. */
  lemma TieSwaps(b: seq<Slot>, c: set<Slot>, p: nat, x: Slot)
    requires Candidates(c) && IsTopK(b, c) && x in c && x !in b && p < K && x.dist == b[K - 1].dist == b[p].dist
    ensures IsKNearest(Exchanged(b, p, x), c)
  {
    var other := Exchanged(b, p, x);
    ExchangedAt(b, p, x);
    assert !Before(x, b[K - 1]);
    forall i | 0 <= i < K ensures !Before(x, b[i]) { assert i < K - 1 ==> !Before(b[K - 1], b[i]); }
    ExchangedHolds(b, c, p, x);
    forall y | y in c ensures y in other || y.dist >= x.dist {
      if y in b {
        var i :| 0 <= i < K && b[i] == y;
        assert i < p ==> other[i] == y;
        assert i > p ==> other[i - 1] == y;
      }
    }
  }

  /** K-nearest sets are unique exactly when no candidate outside the top K ties with its
      last slot. */
  lemma UniqueIffNoTie(c: set<Slot>)
    requires Candidates(c)
    ensures (forall b, other :: IsKNearest(b, c) && IsKNearest(other, c) ==> b == other) <==> NoTieAtCut(c)
  {
    var top := TopKExists(c);
    if NoTieAtCut(c) {
      forall b, other | IsKNearest(b, c) && IsKNearest(other, c) ensures b == other {
        NoTieUnique(b, c, top);
        NoTieUnique(other, c, top);
      }
    } else {
      var b: seq<Slot> :| IsTopK(b, c) && !(forall x :: x in c && x.dist == b[K - 1].dist ==> x in b);
      var x: Slot :| x in c && x.dist == b[K - 1].dist && x !in b;
      TieSwaps(b, c, K - 1, x);
      assert Exchanged(b, K - 1, x)[K - 1] == x;
      TopKIsKNearest(b, c);
    }
  }

  // ----- when the label count is determined -----

  /** A candidate outside the top K that ties with its last slot has the label of every slot
      at that distance. */
  ghost predicate LabelsAgreeAtCut(c: set<Slot>) {
    forall b: seq<Slot> :: IsTopK(b, c) ==> Agreeing(b, c)
  }

  ghost predicate Agreeing(b: seq<Slot>, c: set<Slot>)
    requires |b| == K
  {
    forall x, i :: x in c && x !in b && 0 <= i < K && x.dist == b[K - 1].dist == b[i].dist ==> b[i].lbl == x.lbl
  }

  /** How many of the first `n` slots are closer than `cut`. */
  function Closer(b: seq<Slot>, cut: int, n: nat): (p: nat)
    requires n <= |b|
    ensures p <= n && (forall i :: p <= i < n ==> b[i].dist >= cut) && (p > 0 ==> b[p - 1].dist < cut)
  {
    if n > 0 && b[n - 1].dist >= cut then Closer(b, cut, n - 1) else n
  }

  function Padded(b: seq<Slot>, n: nat): (r: seq<Slot>)
    requires n <= |b| == K
    ensures |r| == K && forall i :: 0 <= i < K ==> r[i] == if i < n then b[i] else EMPTY
  {
    seq(K, i requires 0 <= i < K => if i < n then b[i] else EMPTY)
  }

  /** The slots of a K-nearest set that are closer than its last are the top K of all the
      candidates that are. */
  lemma {:induction false} CloserOnTop(b: seq<Slot>, c: set<Slot>, closer: set<Slot>, n: nat)
    requires Candidates(c) && IsKNearest(b, c) && n == Closer(b, b[K - 1].dist, K)
    requires closer == set x | x in c && x.dist < b[K - 1].dist
    ensures IsTopK(Padded(b, n), closer)
  {
    var r := Padded(b, n);
    assert n < K;
    assert forall i :: 0 <= i < n ==> !Before(b[n - 1], b[i]) && b[i].dist < b[K - 1].dist;
    assert Holds(r, closer);
    forall x | x in closer ensures x in r {
      var i :| 0 <= i < K && b[i] == x;
      assert r[i] == x;
    }
  }

  lemma SameCloser(b: seq<Slot>, c: set<Slot>, top: seq<Slot>, i: nat)
    requires Candidates(c) && IsKNearest(b, c) && IsKNearest(top, c) && i < K && top[i].dist < top[K - 1].dist
    ensures b[i] == top[i]
  {
    KNearestDistances(b, c, top);
    var cut := top[K - 1].dist;
    var closer := set x | x in c && x.dist < cut;
    var n, m := Closer(b, cut, K), Closer(top, cut, K);
    CloserOnTop(b, c, closer, n);
    CloserOnTop(top, c, closer, m);
    TopKUnique(Padded(b, n), closer, Padded(top, m));
    assert Padded(b, n)[i] == Padded(top, m)[i];
  }

  lemma SameLabelAt(b: seq<Slot>, c: set<Slot>, top: seq<Slot>, i: nat)
    requires Candidates(c) && IsKNearest(b, c) && IsTopK(top, c) && LabelsAgreeAtCut(c) && i < K
    ensures b[i].lbl == top[i].lbl
  {
    KNearestDistances(b, c, top);
    if top[i].dist < top[K - 1].dist {
      SameCloser(b, c, top, i);
    } else if NoTieAtCut(c) {
      NoTieUnique(b, c, top);
    } else {
      var t: seq<Slot> :| IsTopK(t, c) && !(forall x :: x in c && x.dist == t[K - 1].dist ==> x in t);
      TopKUnique(t, c, top);
      var x: Slot :| x in c && x.dist == top[K - 1].dist && x !in top;
      assert Agreeing(top, c);
      if b[i] in top {
        var j :| 0 <= j < K && top[j] == b[i];
        assert top[j].lbl == x.lbl == top[i].lbl;
      } else {
        assert b[i] in c;
      }
    }
  }

  lemma {:induction false} SameLabelSum(a: seq<Slot>, b: seq<Slot>)
    requires |a| == |b| && forall i :: 0 <= i < |a| ==> a[i].lbl == b[i].lbl
    ensures LabelSum(a) == LabelSum(b)
  {
    if a != [] { SameLabelSum(a[..|a| - 1], b[..|b| - 1]); }
  }

  lemma {:induction false} AgreeingCount(b: seq<Slot>, c: set<Slot>, top: seq<Slot>)
    requires Candidates(c) && IsKNearest(b, c) && IsTopK(top, c) && LabelsAgreeAtCut(c)
    ensures LabelSum(b) == LabelSum(top)
  {
    forall i | 0 <= i < K ensures b[i].lbl == top[i].lbl { SameLabelAt(b, c, top, i); }
    SameLabelSum(b, top);
  }

  lemma DisagreeingCount(c: set<Slot>) returns (b: seq<Slot>, other: seq<Slot>)
    requires Candidates(c) && !LabelsAgreeAtCut(c)
    ensures IsKNearest(b, c) && IsKNearest(other, c) && LabelSum(b) != LabelSum(other)
  {
    b :| IsTopK(b, c) && !Agreeing(b, c);
    var x: Slot, i: int :| x in c && x !in b && 0 <= i < K && x.dist == b[K - 1].dist == b[i].dist && b[i].lbl != x.lbl;
    TieSwaps(b, c, i, x);
    TopKIsKNearest(b, c);
    other := Exchanged(b, i, x);
  }

  /** All K-nearest sets have the same label count exactly when the labels of the candidates
      tied at the cut agree: a tie between equal labels does no harm, any other does. */
  lemma CountDeterminedIff(c: set<Slot>)
    requires Candidates(c)
    ensures (forall b, other :: IsKNearest(b, c) && IsKNearest(other, c) ==> LabelSum(b) == LabelSum(other))
            <==> LabelsAgreeAtCut(c)
  {
    if LabelsAgreeAtCut(c) {
      var top := TopKExists(c);
      forall b | IsKNearest(b, c) ensures LabelSum(b) == LabelSum(top) { AgreeingCount(b, c, top); }
    } else {
      var b, other := DisagreeingCount(c);
    }
  }

  // ----- putting partial searches together -----

  /** Searching a further set from the slots found so far. */
  lemma Extend(b: seq<Slot>, c: set<Slot>, more: set<Slot>, n: seq<Slot>, ties: bool)
    requires Candidates(c + more) && Covers(b, c, ties) && IsTopK(n, Real(b) + more)
    ensures Covers(n, c + more, ties)
    ensures n[K - 1].dist <= b[K - 1].dist
  {
    assert Candidates(Real(b) + more);
    assert Holds(b, Real(b) + more);
    Pointwise(n, Real(b) + more, b, K - 1, true);
    forall x | x in c + more ensures x in n || !Less(x, n[K - 1], ties) {
      if x in c && x !in b {
        assert !Less(x, b[K - 1], ties);
      } else {
        assert x in Real(b) + more;
      }
    }
  }

  /** Skipping candidates that cannot enter. */
  lemma Skip(b: seq<Slot>, c: set<Slot>, more: set<Slot>, ties: bool)
    requires Covers(b, c, ties)
    requires forall x :: x in more ==> !Less(x, b[K - 1], ties)
    ensures Covers(b, c + more, ties)
  {
  }
}
