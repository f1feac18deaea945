/**
 * What the slots of a search mean in terms of the references alone: which are the nearest to
 * the query, and how many of them are frauds.
 */
module Nearest {
  import opened Base
  import opened Kernel
  import opened TopK
  import opened Routing
  import opened Index

  function DistanceTo(q: Vec, refs: seq<Reference>, x: nat): nat
    requires x < |refs|
  {
    Dist(q, refs[x].vector)
  }

  /** All positions of a list of references, perhaps but one. */
  function Except(refs: seq<Reference>, skip: Option<nat>): set<nat> { set x: nat | x < |refs| && skip != Some(x) }

  /** By distance, and with `ties` then by position. */
  predicate NotAfter(q: Vec, refs: seq<Reference>, x: nat, y: nat, ties: bool)
    requires x < |refs| && y < |refs|
  {
    DistanceTo(q, refs, x) < DistanceTo(q, refs, y)
    || (DistanceTo(q, refs, x) == DistanceTo(q, refs, y) && (ties ==> x < y))
  }

  /** Distinct references of a set, in their order. */
  ghost predicate AreSome(q: Vec, refs: seq<Reference>, among: set<nat>, ids: seq<nat>, ties: bool) {
    && |ids| <= K && (forall i :: 0 <= i < |ids| ==> ids[i] in among && ids[i] < |refs|)
    && (forall i, j :: 0 <= i < j < |ids| ==> ids[i] != ids[j] && NotAfter(q, refs, ids[i], ids[j], ties))
  }

  /** The K nearest references of a set, or all of them when there are fewer: none left out
      comes before the last. */
  ghost predicate AreNearest(q: Vec, refs: seq<Reference>, among: set<nat>, ids: seq<nat>, ties: bool) {
    && AreSome(q, refs, among, ids, ties)
    && forall x: nat :: x in among && x < |refs| && x !in ids ==> |ids| == K && NotAfter(q, refs, ids[K - 1], x, ties)
  }

  /** How many of them are frauds. */
  function Frauds(refs: seq<Reference>, ids: seq<nat>): nat
    requires forall i :: 0 <= i < |ids| ==> ids[i] < |refs|
  {
    |FraudPositions(refs, ids, |ids|)|
  }

  function FraudPositions(refs: seq<Reference>, ids: seq<nat>, n: nat): set<nat>
    requires n <= |ids| && forall i :: 0 <= i < |ids| ==> ids[i] < |refs|
  {
    set i: nat | i < n && refs[ids[i]].lbl == 1
  }

  /** The slots hold distance, label, position and partition of these references, and nothing
      behind them. */
  ghost predicate Shown(c: Ctx, ids: seq<nat>, b: seq<Slot>)
    requires ValidPredicates(c.scheme.predicates)
  {
    && |ids| <= |b| == K && (forall i :: |ids| <= i < K ==> b[i] == EMPTY)
    && forall i :: 0 <= i < |ids| ==>
         && ids[i] < |c.refs|
         && b[i] == Slot(DistanceTo(c.q, c.refs, ids[i]), c.refs[ids[i]].lbl, ids[i],
                         TreeKey(c.refs[ids[i]].vector, c.scheme))
  }

  /** The slots of a set of references. */
  ghost predicate SlotsAmong(c: Ctx, among: set<nat>, all: set<Slot>)
    requires ValidPredicates(c.scheme.predicates)
  {
    && (forall x: nat :: x in among && x < |c.refs| ==> RefSlot(c, x) in all)
    && (forall s :: s in all ==> exists x: nat :: x in among && x < |c.refs| && s == RefSlot(c, x))
  }

  /** Empty slots come last. */
  lemma {:induction false} FilledFirst(b: seq<Slot>, c: set<Slot>, n: nat) returns (filled: nat)
    requires Holds(b, c) && Candidates(c) && n <= K && forall i :: 0 <= i < n ==> b[i] != EMPTY
    ensures filled <= K && forall i :: 0 <= i < K ==> (b[i] == EMPTY <==> i >= filled)
    decreases K - n
  {
    if n == K {
      filled := K;
    } else if b[n] == EMPTY {
      filled := n;
      assert forall i :: n < i < K ==> !Before(b[i], b[n]);
    } else {
      filled := FilledFirst(b, c, n + 1);
    }
  }

  lemma {:induction false} SlotsShow(c: Ctx, among: set<nat>, all: set<Slot>, b: seq<Slot>, ties: bool)
    returns (ids: seq<nat>)
    requires Fits(c) && SlotsAmong(c, among, all) && Candidates(all) && Covers(b, all, ties)
    ensures Shown(c, ids, b) && AreNearest(c.q, c.refs, among, ids, ties)
  {
    ids := HeldShow(c, among, all, b, ties);
    forall x: nat | x in among && x < |c.refs| && x !in ids
      ensures |ids| == K && NotAfter(c.q, c.refs, ids[K - 1], x, ties)
    {
      assert RefSlot(c, x) in all;
    }
  }

  lemma {:induction false} HeldShow(c: Ctx, among: set<nat>, all: set<Slot>, b: seq<Slot>, ties: bool)
    returns (ids: seq<nat>)
    requires Fits(c) && SlotsAmong(c, among, all) && Candidates(all) && Holds(b, all)
    ensures Shown(c, ids, b) && AreSome(c.q, c.refs, among, ids, ties)
  {
    var n := FilledFirst(b, all, 0);
    forall i | 0 <= i < n ensures 0 <= b[i].idx < |c.refs| && b[i].idx in among && b[i] == RefSlot(c, b[i].idx) {
      var x: nat :| x in among && x < |c.refs| && b[i] == RefSlot(c, x);
    }
    ids := seq(n, i requires 0 <= i < n => b[i].idx as nat);
    forall i, j | 0 <= i < j < n ensures ids[i] != ids[j] && NotAfter(c.q, c.refs, ids[i], ids[j], ties) {
      assert b[i] != b[j] && !Before(b[j], b[i]);
    }
  }

  /** The label count of the slots is the number of frauds. */
  lemma {:induction false} CountShown(c: Ctx, ids: seq<nat>, b: seq<Slot>)
    requires Fits(c) && Shown(c, ids, b)
    ensures LabelSum(b) == Frauds(c.refs, ids)
  {
    CountTo(c, ids, b, K);
    assert b[..K] == b;
  }

  lemma {:induction false} CountTo(c: Ctx, ids: seq<nat>, b: seq<Slot>, n: nat)
    requires Fits(c) && Shown(c, ids, b) && n <= K
    ensures LabelSum(b[..n]) == |FraudPositions(c.refs, ids, Min(n, |ids|))|
  {
    if n > 0 {
      CountTo(c, ids, b, n - 1);
      assert b[..n][..n - 1] == b[..n - 1];
      if n <= |ids| { OneMorePosition(c.refs, ids, n - 1); }
    }
  }

  lemma OneMorePosition(refs: seq<Reference>, ids: seq<nat>, n: nat)
    requires n < |ids| && (forall i :: 0 <= i < |ids| ==> ids[i] < |refs|) && refs[ids[n]].lbl <= 1
    ensures |FraudPositions(refs, ids, n + 1)| == |FraudPositions(refs, ids, n)| + refs[ids[n]].lbl
  {
    var before := FraudPositions(refs, ids, n);
    assert FraudPositions(refs, ids, n + 1) == if refs[ids[n]].lbl == 1 then before + {n} else before;
  }
}
