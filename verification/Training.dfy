/**
 * Learning the partition tree in place: which candidate wins a node, and that the queries
 * a node was trained on are exactly those that routing later sends through it.
 */
module Training {
  import opened Base
  import opened Routing

  datatype Candidate = Candidate(dim: nat, threshold: int)

  const DISABLED := TreePredicate(0, 0, false)

  predicate Matches(v: Vec, c: Candidate)
    requires c.dim < DIMS
  {
    v[c.dim] > c.threshold
  }

  predicate Positions(positions: seq<nat>, n: nat) { forall i :: 0 <= i < |positions| ==> positions[i] < n }

  /** The sample positions, in order, whose query matches (or does not match) the candidate. */
  function Split(qs: seq<Vec>, positions: seq<nat>, c: Candidate, side: bool): (r: seq<nat>)
    requires c.dim < DIMS && Positions(positions, |qs|)
    ensures Positions(r, |qs|) && forall i :: 0 <= i < |r| ==> Matches(qs[r[i]], c) == side
  {
    if positions == [] then []
    else
      var front, last := Split(qs, positions[..|positions| - 1], c, side), positions[|positions| - 1];
      if Matches(qs[last], c) == side then front + [last] else front
  }

  predicate Eligible(qs: seq<Vec>, positions: seq<nat>, c: Candidate)
    requires c.dim < DIMS && Positions(positions, |qs|)
  {
    |Split(qs, positions, c, false)| >= 4 && |Split(qs, positions, c, true)| >= 4
  }

  lemma {:induction false} SplitSizes(qs: seq<Vec>, positions: seq<nat>, c: Candidate)
    requires c.dim < DIMS && Positions(positions, |qs|)
    ensures |Split(qs, positions, c, false)| + |Split(qs, positions, c, true)| == |positions|
  {
    if positions != [] { SplitSizes(qs, positions[..|positions| - 1], c); }
  }

  /** The candidates, in their order; `score` stands for the floating-point scoring formula. */
  datatype Learner = Learner(candidates: seq<Candidate>, score: (seq<nat>, Candidate) -> real)

  ghost predicate ValidLearner(ln: Learner) { forall c :: c in ln.candidates ==> c.dim < DIMS }

  /** No candidate leaves enough samples on both sides. */
  ghost predicate Stops(qs: seq<Vec>, positions: seq<nat>, ln: Learner)
    requires ValidLearner(ln) && Positions(positions, |qs|)
  {
    forall j :: 0 <= j < |ln.candidates| ==> !Eligible(qs, positions, ln.candidates[j])
  }

  /** Candidate `i` is eligible and the first with the best score. */
  ghost predicate Wins(qs: seq<Vec>, positions: seq<nat>, ln: Learner, i: nat, count: nat)
    requires ValidLearner(ln) && Positions(positions, |qs|) && count <= |ln.candidates|
  {
    && i < count && Eligible(qs, positions, ln.candidates[i])
    && forall j :: 0 <= j < count && Eligible(qs, positions, ln.candidates[j]) ==>
         var other, best := ln.score(positions, ln.candidates[j]), ln.score(positions, ln.candidates[i]);
         if j < i then other < best else other <= best
  }

  ghost predicate IsBest(qs: seq<Vec>, positions: seq<nat>, ln: Learner, c: Candidate)
    requires ValidLearner(ln) && Positions(positions, |qs|)
  {
    exists i :: 0 <= i < |ln.candidates| && ln.candidates[i] == c && Wins(qs, positions, ln, i, |ln.candidates|)
  }

  lemma BestIsUnique(qs: seq<Vec>, positions: seq<nat>, ln: Learner, c: Candidate, d: Candidate)
    requires ValidLearner(ln) && Positions(positions, |qs|) && IsBest(qs, positions, ln, c)
    requires IsBest(qs, positions, ln, d)
    ensures c == d && !Stops(qs, positions, ln)
  {
  }

  /** How many samples a candidate leaves on its left and on its right. */
  method CountSides(qs: seq<Vec>, positions: seq<nat>, c: Candidate) returns (left: nat, right: nat)
    requires c.dim < DIMS && Positions(positions, |qs|)
    ensures left == |Split(qs, positions, c, false)| && right == |Split(qs, positions, c, true)|
  {
    left, right := 0, 0;
    var k := 0;
    while k < |positions|
      invariant 0 <= k <= |positions|
      invariant left == |Split(qs, positions[..k], c, false)| && right == |Split(qs, positions[..k], c, true)|
    {
      assert positions[..k + 1][..k] == positions[..k];
      if Matches(qs[positions[k]], c) {
        right := right + 1;
      } else {
        left := left + 1;
      }
      k := k + 1;
    }
    assert positions[..k] == positions;
  }

  /** The candidate loop. */
  method ChooseCandidate(qs: seq<Vec>, positions: seq<nat>, ln: Learner) returns (best: Option<Candidate>)
    requires ValidLearner(ln) && Positions(positions, |qs|)
    ensures if best.Some? then IsBest(qs, positions, ln, best.value) else Stops(qs, positions, ln)
  {
    best := None;
    var at, i := 0, 0;
    while i < |ln.candidates|
      invariant 0 <= at <= i <= |ln.candidates|
      invariant best.None? ==> forall j :: 0 <= j < i ==> !Eligible(qs, positions, ln.candidates[j])
      invariant best.Some? ==> Wins(qs, positions, ln, at, i) && best.value == ln.candidates[at]
    {
      var c := ln.candidates[i];
      var left, right := CountSides(qs, positions, c);
      if Min(left, right) >= 4 && (best.None? || ln.score(positions, c) > ln.score(positions, best.value)) {
        best, at := Some(c), i;
      }
      i := i + 1;
    }
  }

  // ----- the trained tree -----

  predicate InSubtree(m: nat, node: nat) { m == node || (m > node && InSubtree((m - 1) / 2, node)) }

  ghost predicate AllDisabled(tree: seq<TreePredicate>, node: nat) {
    forall m :: 0 <= m < |tree| && InSubtree(m, node) ==> !tree[m].enabled
  }

  function AsCandidate(p: TreePredicate): Candidate { Candidate(p.dim, p.threshold) }

  /** Nothing but disabled entries and candidates. */
  ghost predicate AllFrom(tree: seq<TreePredicate>, candidates: seq<Candidate>) {
    forall m :: 0 <= m < |tree| ==>
      tree[m] == TreePredicate(0, 0, false) || (tree[m].enabled && AsCandidate(tree[m]) in candidates)
  }

  /** `node` was trained on `positions`: when no candidate is eligible everything below is
      disabled; otherwise the node has the best one, and the children were trained on the two
      sides. */
  ghost predicate Trained(tree: seq<TreePredicate>, qs: seq<Vec>, ln: Learner, node: nat, positions: seq<nat>)
    requires ValidLearner(ln) && Positions(positions, |qs|)
    decreases |tree| - node
  {
    if node >= |tree| || Stops(qs, positions, ln) then AllDisabled(tree, node)
    else
      var c := AsCandidate(tree[node]);
      && tree[node].enabled && IsBest(qs, positions, ln, c)
      && Trained(tree, qs, ln, 2 * node + 1, Split(qs, positions, c, false))
      && Trained(tree, qs, ln, 2 * node + 2, Split(qs, positions, c, true))
  }

  lemma {:induction false} ChildInSubtree(m: nat, child: nat)
    requires child > 0 && InSubtree(m, child)
    ensures InSubtree(m, (child - 1) / 2)
  {
    if m != child { ChildInSubtree((m - 1) / 2, child); }
  }

  lemma {:induction false} InSubtreeGrows(m: nat, node: nat)
    ensures InSubtree(m, node) ==> m >= node
  {
  }

  lemma {:induction false} SubtreesDisjoint(m: nat, node: nat)
    ensures !(InSubtree(m, 2 * node + 1) && InSubtree(m, 2 * node + 2))
    ensures InSubtree(m, node) && m != node ==> InSubtree(m, 2 * node + 1) || InSubtree(m, 2 * node + 2)
  {
    if m > 2 * node + 2 {
      SubtreesDisjoint((m - 1) / 2, node);
    } else if m > node {
      InSubtreeGrows((m - 1) / 2, node);
    }
  }

  lemma {:induction false} SubtreeAgrees(tree: seq<TreePredicate>, other: seq<TreePredicate>, node: nat, side: bool)
    requires |tree| == |other| && forall m :: 0 <= m < |tree| && InSubtree(m, node) ==> tree[m] == other[m]
    ensures forall m :: 0 <= m < |tree| && InSubtree(m, Child(node, side)) ==> tree[m] == other[m]
  {
    forall m | 0 <= m < |tree| && InSubtree(m, Child(node, side)) ensures tree[m] == other[m] {
      ChildInSubtree(m, Child(node, side));
    }
  }

  lemma {:induction false} TrainedFrame(tree: seq<TreePredicate>, other: seq<TreePredicate>, qs: seq<Vec>, ln: Learner,
                                        node: nat, positions: seq<nat>)
    requires ValidLearner(ln) && Positions(positions, |qs|)
    requires |tree| == |other| && forall m :: 0 <= m < |tree| && InSubtree(m, node) ==> tree[m] == other[m]
    requires Trained(tree, qs, ln, node, positions)
    ensures Trained(other, qs, ln, node, positions)
    decreases |tree| - node, 1
  {
    if node >= |tree| || Stops(qs, positions, ln) {
      DisabledFrame(tree, other, node);
    } else {
      var c := AsCandidate(tree[node]);
      TrainedBelow(tree, qs, ln, node, positions, c);
      BranchFrame(tree, other, qs, ln, node, positions, c);
      TrainedAbove(other, qs, ln, node, positions, c);
    }
  }

  lemma {:induction false} BranchFrame(tree: seq<TreePredicate>, other: seq<TreePredicate>, qs: seq<Vec>, ln: Learner,
                                       node: nat, positions: seq<nat>, c: Candidate)
    requires ValidLearner(ln) && Positions(positions, |qs|)
    requires |tree| == |other| && forall m :: 0 <= m < |tree| && InSubtree(m, node) ==> tree[m] == other[m]
    requires BranchTrained(tree, qs, ln, node, positions, c)
    ensures BranchTrained(other, qs, ln, node, positions, c)
    decreases |tree| - node, 0
  {
    SubtreeAgrees(tree, other, node, false);
    SubtreeAgrees(tree, other, node, true);
    TrainedFrame(tree, other, qs, ln, 2 * node + 1, Split(qs, positions, c, false));
    TrainedFrame(tree, other, qs, ln, 2 * node + 2, Split(qs, positions, c, true));
    assert InSubtree(node, node);
  }

  lemma {:induction false} DisabledFrame(tree: seq<TreePredicate>, other: seq<TreePredicate>, node: nat)
    requires |tree| == |other| && forall m :: 0 <= m < |tree| && InSubtree(m, node) ==> tree[m] == other[m]
    requires AllDisabled(tree, node)
    ensures AllDisabled(other, node)
  {
  }

  /** A trained node that does not stop: its candidate and its two subtrees. */
  ghost predicate BranchTrained(tree: seq<TreePredicate>, qs: seq<Vec>, ln: Learner, node: nat, positions: seq<nat>,
                                c: Candidate)
    requires ValidLearner(ln) && Positions(positions, |qs|)
  {
    && node < |tree| && c == AsCandidate(tree[node]) && tree[node].enabled && IsBest(qs, positions, ln, c)
    && Trained(tree, qs, ln, 2 * node + 1, Split(qs, positions, c, false))
    && Trained(tree, qs, ln, 2 * node + 2, Split(qs, positions, c, true))
  }

  lemma {:induction false} TrainedBelow(tree: seq<TreePredicate>, qs: seq<Vec>, ln: Learner, node: nat,
                                        positions: seq<nat>, c: Candidate)
    requires ValidLearner(ln) && Positions(positions, |qs|) && node < |tree| && !Stops(qs, positions, ln)
    requires Trained(tree, qs, ln, node, positions) && c == AsCandidate(tree[node])
    ensures BranchTrained(tree, qs, ln, node, positions, c)
  {
  }

  lemma {:induction false} TrainedAbove(tree: seq<TreePredicate>, qs: seq<Vec>, ln: Learner, node: nat,
                                        positions: seq<nat>, c: Candidate)
    requires ValidLearner(ln) && Positions(positions, |qs|) && !Stops(qs, positions, ln)
    requires BranchTrained(tree, qs, ln, node, positions, c)
    ensures Trained(tree, qs, ln, node, positions)
  {
  }

  /** The loop that hands the samples of a node to its children. */
  method SplitPositions(qs: seq<Vec>, positions: seq<nat>, c: Candidate) returns (left: seq<nat>, right: seq<nat>)
    requires c.dim < DIMS && Positions(positions, |qs|)
    ensures left == Split(qs, positions, c, false) && right == Split(qs, positions, c, true)
  {
    left, right := [], [];
    var k := 0;
    while k < |positions|
      invariant 0 <= k <= |positions|
      invariant left == Split(qs, positions[..k], c, false) && right == Split(qs, positions[..k], c, true)
    {
      SplitSnoc(qs, positions[..k], positions[k], c, false);
      SplitSnoc(qs, positions[..k], positions[k], c, true);
      assert positions[..k + 1] == positions[..k] + [positions[k]];
      if Matches(qs[positions[k]], c) {
        right := right + [positions[k]];
      } else {
        left := left + [positions[k]];
      }
      k := k + 1;
    }
    assert positions[..k] == positions;
  }

  lemma {:induction false} DisabledBelow(tree: seq<TreePredicate>, after: seq<TreePredicate>, node: nat, side: bool)
    requires AllDisabled(tree, node) && |after| == |tree|
    requires forall m :: 0 <= m < |tree| && m != node && InSubtree(m, node) ==> after[m] == tree[m]
    ensures AllDisabled(after, Child(node, side))
  {
    forall m | 0 <= m < |after| && InSubtree(m, Child(node, side)) ensures !after[m].enabled {
      ChildInSubtree(m, Child(node, side));
      InSubtreeGrows(m, Child(node, side));
    }
  }

  lemma OutsideSubtree(m: nat, node: nat, side: bool)
    ensures !InSubtree(m, node) ==> !InSubtree(m, Child(node, side)) && m != node
    ensures InSubtree(m, Child(node, !side)) ==> !InSubtree(m, Child(node, side)) && m != node && InSubtree(m, node)
    ensures m == node ==> !InSubtree(m, Child(node, side))
  {
    InSubtreeGrows(m, Child(node, side));
    InSubtreeGrows(m, Child(node, !side));
    SubtreesDisjoint(m, node);
    if InSubtree(m, Child(node, side)) { ChildInSubtree(m, Child(node, side)); }
    if InSubtree(m, Child(node, !side)) { ChildInSubtree(m, Child(node, !side)); }
  }

  ghost predicate SameOutside(before: seq<TreePredicate>, after: seq<TreePredicate>, node: nat) {
    |before| == |after| && forall m :: 0 <= m < |before| && !InSubtree(m, node) ==> after[m] == before[m]
  }

  lemma StillDisabled(t0: seq<TreePredicate>, t1: seq<TreePredicate>, node: nat)
    requires SameOutside(t0, t1, 2 * node + 1) && AllDisabled(t0, 2 * node + 2)
    ensures AllDisabled(t1, 2 * node + 2)
  {
    forall m | 0 <= m < |t1| && InSubtree(m, 2 * node + 2) ensures !t1[m].enabled {
      OutsideSubtree(m, node, false);
    }
  }

  /** Only the two subtrees below `node` changed. */
  ghost predicate SameAround(before: seq<TreePredicate>, after: seq<TreePredicate>, node: nat) {
    && |before| == |after|
    && forall m :: 0 <= m < |before| && !InSubtree(m, 2 * node + 1) && !InSubtree(m, 2 * node + 2) ==>
      after[m] == before[m]
  }

  lemma NodeTrained(before: seq<TreePredicate>, c: Candidate, t0: seq<TreePredicate>, t2: seq<TreePredicate>,
                    qs: seq<Vec>, ln: Learner, node: nat, positions: seq<nat>)
    requires ValidLearner(ln) && Positions(positions, |qs|) && node < |before|
    requires c.dim < DIMS && IsBest(qs, positions, ln, c)
    requires t0 == before[node := TreePredicate(c.dim, c.threshold, true)] && SameAround(t0, t2, node)
    requires Trained(t2, qs, ln, 2 * node + 1, Split(qs, positions, c, false))
    requires Trained(t2, qs, ln, 2 * node + 2, Split(qs, positions, c, true))
    ensures Trained(t2, qs, ln, node, positions)
    ensures SameOutside(before, t2, node)
  {
    OutsideSubtree(node, node, false);
    OutsideSubtree(node, node, true);
    assert t2[node] == t0[node];
    forall m | 0 <= m < |t0| && !InSubtree(m, node) ensures t2[m] == before[m] {
      OutsideSubtree(m, node, false);
      OutsideSubtree(m, node, true);
    }
  }

  /** What the second child's training leaves of the first child's. */
  lemma FirstStays(t0: seq<TreePredicate>, t1: seq<TreePredicate>, t2: seq<TreePredicate>, qs: seq<Vec>, ln: Learner,
                   node: nat, left: seq<nat>)
    requires ValidLearner(ln) && Positions(left, |qs|)
    requires SameOutside(t0, t1, 2 * node + 1) && SameOutside(t1, t2, 2 * node + 2)
    requires Trained(t1, qs, ln, 2 * node + 1, left)
    ensures Trained(t2, qs, ln, 2 * node + 1, left) && SameAround(t0, t2, node)
  {
    forall m | 0 <= m < |t1| && InSubtree(m, 2 * node + 1) ensures t1[m] == t2[m] {
      OutsideSubtree(m, node, true);
    }
    TrainedFrame(t1, t2, qs, ln, 2 * node + 1, left);
  }

  /** The heap nodes of one level of the tree. */
  predicate AtLevel(node: nat, depth: nat) { Pow2(depth) - 1 <= node < 2 * Pow2(depth) - 1 }

  lemma ChildLevel(node: nat, depth: nat)
    requires AtLevel(node, depth)
    ensures AtLevel(2 * node + 1, depth + 1) && AtLevel(2 * node + 2, depth + 1)
  {
  }

  /** `train_tree_node` on the array of predicates, in heap order. */
  method TrainNode(qs: seq<Vec>, ln: Learner, positions: seq<nat>, node: nat, depth: nat, maxDepth: nat,
                   tree: array<TreePredicate>)
    requires ValidLearner(ln) && Positions(positions, |qs|)
    requires tree.Length == Pow2(maxDepth) - 1
    requires AtLevel(node, depth)
    requires AllDisabled(tree[..], node) && AllFrom(tree[..], ln.candidates)
    modifies tree
    ensures Trained(tree[..], qs, ln, node, positions) && AllFrom(tree[..], ln.candidates)
    ensures SameOutside(old(tree[..]), tree[..], node)
    decreases tree.Length - node, 1
  {
    if depth >= maxDepth { Pow2Mono(maxDepth, depth); }
    if |positions| < 8 { TooFew(qs, positions, ln); }
    if depth >= maxDepth || node >= tree.Length || |positions| < 8 { return; }
    var best := ChooseCandidate(qs, positions, ln);
    if best.None? { return; }
    tree[node] := TreePredicate(best.value.dim, best.value.threshold, true);

    var left, right := SplitPositions(qs, positions, best.value);
    ChildLevel(node, depth);
    ghost var t0 := tree[..];
    DisabledBelow(old(tree[..]), t0, node, false);
    DisabledBelow(old(tree[..]), t0, node, true);
    TrainChildren(qs, ln, left, right, node, depth, maxDepth, tree);
    NodeTrained(old(tree[..]), best.value, t0, tree[..], qs, ln, node, positions);
  }

  /** Fewer than eight samples cannot leave four on each side. */
  lemma TooFew(qs: seq<Vec>, positions: seq<nat>, ln: Learner)
    requires ValidLearner(ln) && Positions(positions, |qs|) && |positions| < 8
    ensures Stops(qs, positions, ln)
  {
    forall j | 0 <= j < |ln.candidates| ensures !Eligible(qs, positions, ln.candidates[j]) {
      SplitSizes(qs, positions, ln.candidates[j]);
    }
  }

  /** The two recursive calls of `train_tree_node`. */
  method TrainChildren(qs: seq<Vec>, ln: Learner, left: seq<nat>, right: seq<nat>, node: nat, depth: nat, maxDepth: nat,
                       tree: array<TreePredicate>)
    requires ValidLearner(ln) && Positions(left, |qs|) && Positions(right, |qs|)
    requires tree.Length == Pow2(maxDepth) - 1 && node < tree.Length
    requires AtLevel(2 * node + 1, depth + 1) && AtLevel(2 * node + 2, depth + 1)
    requires AllDisabled(tree[..], 2 * node + 1) && AllDisabled(tree[..], 2 * node + 2)
    requires AllFrom(tree[..], ln.candidates)
    modifies tree
    ensures AllFrom(tree[..], ln.candidates)
    ensures Trained(tree[..], qs, ln, 2 * node + 1, left) && Trained(tree[..], qs, ln, 2 * node + 2, right)
    ensures SameAround(old(tree[..]), tree[..], node)
    decreases tree.Length - node, 0
  {
    TrainNode(qs, ln, left, 2 * node + 1, depth + 1, maxDepth, tree);
    ghost var t1 := tree[..];
    StillDisabled(old(tree[..]), t1, node);
    TrainNode(qs, ln, right, 2 * node + 2, depth + 1, maxDepth, tree);
    FirstStays(old(tree[..]), t1, tree[..], qs, ln, node, left);
  }

  // ----- training matches routing -----

  /** The sample positions, in order, whose routing walk visits `node`. */
  function Visitors(tree: seq<TreePredicate>, qs: seq<Vec>, node: nat, n: nat): (r: seq<nat>)
    requires ValidPredicates(tree) && n <= |qs|
    ensures Positions(r, n) && forall i :: 0 <= i < |r| ==> Visits(qs[r[i]], tree, node)
  {
    if n == 0 then []
    else
      var front := Visitors(tree, qs, node, n - 1);
      if Visits(qs[n - 1], tree, node) then front + [n - 1] else front
  }

  lemma {:induction false} ChildVisits(tree: seq<TreePredicate>, v: Vec, node: nat, side: bool)
    requires ValidPredicates(tree) && node < |tree| && tree[node].enabled
    ensures Visits(v, tree, Child(node, side))
            <==> Visits(v, tree, node) && Matches(v, AsCandidate(tree[node])) == side
  {
    assert (Child(node, side) - 1) / 2 == node;
  }

  lemma {:induction false} SplitSnoc(qs: seq<Vec>, front: seq<nat>, last: nat, c: Candidate, side: bool)
    requires c.dim < DIMS && Positions(front, |qs|) && last < |qs|
    ensures Positions(front + [last], |qs|)
    ensures Split(qs, front + [last], c, side)
            == Split(qs, front, c, side) + (if Matches(qs[last], c) == side then [last] else [])
  {
    assert (front + [last])[..|front|] == front;
  }

  lemma {:induction false} VisitorsSplit(tree: seq<TreePredicate>, qs: seq<Vec>, node: nat, side: bool, n: nat)
    requires ValidPredicates(tree) && n <= |qs| && node < |tree| && tree[node].enabled
    ensures Split(qs, Visitors(tree, qs, node, n), AsCandidate(tree[node]), side)
            == Visitors(tree, qs, Child(node, side), n)
  {
    if n > 0 {
      VisitorsSplit(tree, qs, node, side, n - 1);
      OneMoreVisitor(tree, qs, node, Child(node, side), AsCandidate(tree[node]), side, n);
    }
  }

  lemma {:induction false} OneMoreVisitor(tree: seq<TreePredicate>, qs: seq<Vec>, node: nat, child: nat, c: Candidate,
                                          side: bool, n: nat)
    requires ValidPredicates(tree) && 0 < n <= |qs| && node < |tree| && tree[node].enabled
    requires c == AsCandidate(tree[node]) && child == Child(node, side)
    requires Split(qs, Visitors(tree, qs, node, n - 1), c, side) == Visitors(tree, qs, child, n - 1)
    ensures Split(qs, Visitors(tree, qs, node, n), c, side) == Visitors(tree, qs, child, n)
  {
    ChildVisits(tree, qs[n - 1], node, side);
    if Visits(qs[n - 1], tree, node) { SplitSnoc(qs, Visitors(tree, qs, node, n - 1), n - 1, c, side); }
  }

  lemma DisabledToChild(tree: seq<TreePredicate>, node: nat)
    requires node > 0 && AllDisabled(tree, (node - 1) / 2)
    ensures AllDisabled(tree, node)
  {
    forall m | 0 <= m < |tree| && InSubtree(m, node) ensures !tree[m].enabled {
      ChildInSubtree(m, node);
    }
  }

  lemma {:induction false} TrainedSide(tree: seq<TreePredicate>, qs: seq<Vec>, ln: Learner, node: nat,
                                       positions: seq<nat>, side: bool)
    requires ValidLearner(ln) && Positions(positions, |qs|)
    requires Trained(tree, qs, ln, node, positions) && node < |tree| && tree[node].enabled
    ensures var c := AsCandidate(tree[node]);
            && c.dim < DIMS && IsBest(qs, positions, ln, c)
            && Trained(tree, qs, ln, Child(node, side), Split(qs, positions, c, side))
  {
    assert InSubtree(node, node);
  }

  /** `node` was trained on exactly the samples whose walk visits it. */
  ghost predicate TrainedHere(tree: seq<TreePredicate>, qs: seq<Vec>, ln: Learner, node: nat)
    requires ValidLearner(ln) && ValidPredicates(tree)
  {
    Trained(tree, qs, ln, node, Visitors(tree, qs, node, |qs|))
  }

  lemma TrainedChild(tree: seq<TreePredicate>, qs: seq<Vec>, ln: Learner, parent: nat, side: bool)
    requires ValidLearner(ln) && ValidPredicates(tree) && parent < |tree| && tree[parent].enabled
    requires TrainedHere(tree, qs, ln, parent)
    ensures TrainedHere(tree, qs, ln, Child(parent, side))
  {
    VisitorsSplit(tree, qs, parent, side, |qs|);
    TrainedSide(tree, qs, ln, parent, Visitors(tree, qs, parent, |qs|), side);
  }

  lemma {:induction false} TrainedOnVisitors(tree: seq<TreePredicate>, qs: seq<Vec>, ln: Learner, node: nat)
    requires ValidLearner(ln) && ValidPredicates(tree) && TrainedHere(tree, qs, ln, 0)
    ensures TrainedHere(tree, qs, ln, node) || (node > 0 && AllDisabled(tree, (node - 1) / 2))
  {
    if node > 0 {
      var parent := (node - 1) / 2;
      TrainedOnVisitors(tree, qs, ln, parent);
      if parent > 0 && AllDisabled(tree, (parent - 1) / 2) {
        DisabledToChild(tree, parent);
      } else if parent < |tree| && tree[parent].enabled {
        assert Child(parent, node % 2 == 0) == node;
        TrainedChild(tree, qs, ln, parent, node % 2 == 0);
      }
    }
  }

  predicate ParentEnabled(tree: seq<TreePredicate>, node: nat) {
    node > 0 ==> (node - 1) / 2 < |tree| && tree[(node - 1) / 2].enabled
  }

  /** An enabled node has an enabled parent and the best candidate for its visitors, of which one
      is eligible. */
  lemma {:induction false} EnabledMatchesStops(tree: seq<TreePredicate>, qs: seq<Vec>, ln: Learner, node: nat)
    requires ValidLearner(ln) && ValidPredicates(tree) && TrainedHere(tree, qs, ln, 0) && node < |tree|
    ensures var visitors := Visitors(tree, qs, node, |qs|);
            && (tree[node].enabled <==> ParentEnabled(tree, node) && !Stops(qs, visitors, ln))
            && (tree[node].enabled ==> IsBest(qs, visitors, ln, AsCandidate(tree[node])))
  {
    assert InSubtree(node, node);
    TrainedOnVisitors(tree, qs, ln, node);
    if node > 0 {
      var parent := (node - 1) / 2;
      assert InSubtree(node, parent) && InSubtree(parent, parent);
      TrainedOnVisitors(tree, qs, ln, parent);
      if parent > 0 && AllDisabled(tree, (parent - 1) / 2) { DisabledToChild(tree, parent); }
      if !tree[parent].enabled { StopsBelow(tree, qs, ln, parent); }
    }
    if tree[node].enabled { HereIsBest(tree, qs, ln, node); }
  }

  /** Of the first `n` samples, those that routing sends through `node` and the candidate would
      send on to the given side. */
  ghost function SentOn(tree: seq<TreePredicate>, qs: seq<Vec>, node: nat, c: Candidate, right: bool, n: nat): set<nat>
    requires ValidPredicates(tree) && c.dim < DIMS && n <= |qs|
  {
    set i: nat | i < n && Visits(qs[i], tree, node) && (qs[i][c.dim] > c.threshold) == right
  }

  lemma {:induction false} OneMoreSentOn(tree: seq<TreePredicate>, qs: seq<Vec>, node: nat, c: Candidate, right: bool,
                                         n: nat)
    requires ValidPredicates(tree) && c.dim < DIMS && n < |qs|
    ensures var one := Visits(qs[n], tree, node) && (qs[n][c.dim] > c.threshold) == right;
            && SentOn(tree, qs, node, c, right, n + 1)
              == SentOn(tree, qs, node, c, right, n) + (if one then {n} else {})
            && n !in SentOn(tree, qs, node, c, right, n)
  {
  }

  lemma {:induction false} OneMoreSplit(tree: seq<TreePredicate>, qs: seq<Vec>, node: nat, c: Candidate, right: bool,
                                        n: nat)
    requires ValidPredicates(tree) && c.dim < DIMS && n < |qs|
    ensures |Split(qs, Visitors(tree, qs, node, n + 1), c, right)|
            == |Split(qs, Visitors(tree, qs, node, n), c, right)|
               + if Visits(qs[n], tree, node) && (qs[n][c.dim] > c.threshold) == right then 1 else 0
  {
    if Visits(qs[n], tree, node) { SplitSnoc(qs, Visitors(tree, qs, node, n), n, c, right); }
  }

  lemma {:induction false} SplitCounts(tree: seq<TreePredicate>, qs: seq<Vec>, node: nat, c: Candidate, right: bool,
                                       n: nat)
    requires ValidPredicates(tree) && c.dim < DIMS && n <= |qs|
    ensures |Split(qs, Visitors(tree, qs, node, n), c, right)| == |SentOn(tree, qs, node, c, right, n)|
  {
    if n > 0 {
      SplitCounts(tree, qs, node, c, right, n - 1);
      OneMoreSentOn(tree, qs, node, c, right, n - 1);
      OneMoreSplit(tree, qs, node, c, right, n - 1);
    }
  }

  /** The visitors are all the samples that routing sends through the node, each once and in order. */
  lemma {:induction false} VisitorsAre(tree: seq<TreePredicate>, qs: seq<Vec>, node: nat, n: nat)
    requires ValidPredicates(tree) && n <= |qs|
    ensures var r := Visitors(tree, qs, node, n);
            && (forall p: nat :: p in r <==> p < n && Visits(qs[p], tree, node))
            && forall i, j :: 0 <= i < j < |r| ==> r[i] < r[j]
  {
    if n > 0 { VisitorsAre(tree, qs, node, n - 1); }
  }

  /** At least four of the samples that routing sends through `node` would go to each side. */
  ghost predicate Divides(tree: seq<TreePredicate>, qs: seq<Vec>, node: nat, c: Candidate)
    requires ValidPredicates(tree) && c.dim < DIMS
  {
    |SentOn(tree, qs, node, c, false, |qs|)| >= 4 && |SentOn(tree, qs, node, c, true, |qs|)| >= 4
  }

  lemma {:induction false} EligibleDivides(tree: seq<TreePredicate>, qs: seq<Vec>, node: nat, c: Candidate)
    requires ValidPredicates(tree) && c.dim < DIMS
    ensures Eligible(qs, Visitors(tree, qs, node, |qs|), c) <==> Divides(tree, qs, node, c)
  {
    SplitCounts(tree, qs, node, c, false, |qs|);
    SplitCounts(tree, qs, node, c, true, |qs|);
  }

  /** Candidate `i` divides the samples of `node`, and scores better for them than the dividing
      candidates before it and no worse than those behind it. */
  ghost predicate DividesBest(tree: seq<TreePredicate>, qs: seq<Vec>, ln: Learner, node: nat, i: nat)
    requires ValidLearner(ln) && ValidPredicates(tree)
  {
    var visitors := Visitors(tree, qs, node, |qs|);
    && i < |ln.candidates| && Divides(tree, qs, node, ln.candidates[i])
    && forall j :: 0 <= j < |ln.candidates| && Divides(tree, qs, node, ln.candidates[j]) ==>
         && (j < i ==> ln.score(visitors, ln.candidates[j]) < ln.score(visitors, ln.candidates[i]))
         && ln.score(visitors, ln.candidates[j]) <= ln.score(visitors, ln.candidates[i])
  }

  /** A node is enabled exactly when its parent is (the root has none) and some candidate divides
      the samples that routing sends through it, four at least to each side. It then has the
      first of the candidates with the best score among those. */
  ghost predicate NodeLearned(tree: seq<TreePredicate>, qs: seq<Vec>, ln: Learner, node: nat)
    requires ValidLearner(ln) && ValidPredicates(tree) && node < |tree|
  {
    && (tree[node].enabled
        <==> ParentEnabled(tree, node) && exists c :: c in ln.candidates && Divides(tree, qs, node, c))
    && (tree[node].enabled ==>
          exists i: nat :: DividesBest(tree, qs, ln, node, i) && ln.candidates[i] == AsCandidate(tree[node]))
  }

  /** Every node of a trained tree has been learned from the samples that routing sends through it. */
  lemma {:induction false} TrainingMatchesRouting(tree: seq<TreePredicate>, qs: seq<Vec>, ln: Learner, node: nat)
    requires ValidLearner(ln) && ValidPredicates(tree) && TrainedHere(tree, qs, ln, 0) && node < |tree|
    ensures NodeLearned(tree, qs, ln, node)
  {
    var visitors := Visitors(tree, qs, node, |qs|);
    EnabledMatchesStops(tree, qs, ln, node);
    forall j | 0 <= j < |ln.candidates|
      ensures Eligible(qs, visitors, ln.candidates[j]) <==> Divides(tree, qs, node, ln.candidates[j])
    {
      EligibleDivides(tree, qs, node, ln.candidates[j]);
    }
    if tree[node].enabled {
      var i :| 0 <= i < |ln.candidates| && ln.candidates[i] == AsCandidate(tree[node])
               && Wins(qs, visitors, ln, i, |ln.candidates|);
      assert DividesBest(tree, qs, ln, node, i);
    }
  }

  /** A disabled node has nothing enabled below it. */
  lemma StopsBelow(tree: seq<TreePredicate>, qs: seq<Vec>, ln: Learner, node: nat)
    requires ValidLearner(ln) && ValidPredicates(tree) && node < |tree| && !tree[node].enabled
    requires TrainedHere(tree, qs, ln, node) || AllDisabled(tree, node)
    ensures AllDisabled(tree, node)
  {
  }

  lemma {:induction false} HereIsBest(tree: seq<TreePredicate>, qs: seq<Vec>, ln: Learner, node: nat)
    requires ValidLearner(ln) && ValidPredicates(tree) && node < |tree| && tree[node].enabled
    requires TrainedHere(tree, qs, ln, node)
    ensures IsBest(qs, Visitors(tree, qs, node, |qs|), ln, AsCandidate(tree[node]))
  {
    assert InSubtree(node, node);
  }

  lemma {:induction false} RootOfAll(m: nat)
    ensures InSubtree(m, 0)
  {
    if m > 0 { RootOfAll((m - 1) / 2); }
  }

  /** The side of `node` on which `m` lies. */
  lemma SideOf(m: nat, node: nat) returns (side: bool)
    requires InSubtree(m, node)
    ensures node <= m && (m != node ==> InSubtree(m, Child(node, side)))
  {
    InSubtreeGrows(m, node);
    SubtreesDisjoint(m, node);
    side := InSubtree(m, Child(node, true));
  }

  lemma {:induction false} SameChoice(t: seq<TreePredicate>, u: seq<TreePredicate>, qs: seq<Vec>, ln: Learner,
                                      node: nat, positions: seq<nat>, side: bool)
    requires ValidLearner(ln) && Positions(positions, |qs|) && |t| == |u| && node < |t| && !Stops(qs, positions, ln)
    requires Trained(t, qs, ln, node, positions) && Trained(u, qs, ln, node, positions)
    ensures t[node] == u[node] && t[node].enabled && t[node].dim < DIMS
    ensures var part := Split(qs, positions, AsCandidate(t[node]), side);
            Trained(t, qs, ln, Child(node, side), part) && Trained(u, qs, ln, Child(node, side), part)
  {
    TrainedSide(t, qs, ln, node, positions, side);
    TrainedSide(u, qs, ln, node, positions, side);
    BestIsUnique(qs, positions, ln, AsCandidate(t[node]), AsCandidate(u[node]));
  }

  lemma {:induction false} SameBelow(t: seq<TreePredicate>, u: seq<TreePredicate>, qs: seq<Vec>, ln: Learner, node: nat,
                                     positions: seq<nat>, m: nat)
    requires ValidLearner(ln) && Positions(positions, |qs|) && |t| == |u| && m < |t| && InSubtree(m, node)
    requires Trained(t, qs, ln, node, positions) && Trained(u, qs, ln, node, positions)
    ensures t[m] == u[m] || (!t[m].enabled && !u[m].enabled)
    decreases |t| - node
  {
    if !Stops(qs, positions, ln) {
      var side := SideOf(m, node);
      SameChoice(t, u, qs, ln, node, positions, side);
      if m != node { SameBelow(t, u, qs, ln, Child(node, side), Split(qs, positions, AsCandidate(t[node]), side), m); }
    }
  }

  /** The samples and the candidates determine the tree. */
  lemma {:induction false} TrainedIsUnique(t: seq<TreePredicate>, u: seq<TreePredicate>, qs: seq<Vec>, ln: Learner,
                                           positions: seq<nat>)
    requires ValidLearner(ln) && Positions(positions, |qs|) && |t| == |u|
    requires AllFrom(t, ln.candidates) && AllFrom(u, ln.candidates)
    requires Trained(t, qs, ln, 0, positions) && Trained(u, qs, ln, 0, positions)
    ensures t == u
  {
    forall m | 0 <= m < |t| ensures t[m] == u[m] {
      RootOfAll(m);
      SameBelow(t, u, qs, ln, 0, positions, m);
    }
  }

  lemma {:induction false} AllVisitRoot(tree: seq<TreePredicate>, qs: seq<Vec>, n: nat)
    requires ValidPredicates(tree) && n <= |qs|
    ensures Visitors(tree, qs, 0, n) == seq(n, i => i)
  {
    if n > 0 { AllVisitRoot(tree, qs, n - 1); }
  }

  /** `learn_tree_predicates`, from the sampled query vectors on. */
  method LearnTree(qs: seq<Vec>, ln: Learner, treeDepth: nat) returns (tree: seq<TreePredicate>)
    requires ValidLearner(ln)
    ensures |tree| == Pow2(Min(treeDepth, LEARNED_TREE_MAX_DEPTH)) - 1
    ensures ValidPredicates(tree) && AllFrom(tree, ln.candidates) && TrainedHere(tree, qs, ln, 0)
    ensures forall node :: 0 <= node < |tree| ==> NodeLearned(tree, qs, ln, node)
  {
    var depth := Min(treeDepth, LEARNED_TREE_MAX_DEPTH);
    var nodeCount := Pow2(depth) - 1;
    Pow2Mono(0, depth);
    var a := new TreePredicate[nodeCount](_ => DISABLED);
    var positions: seq<nat> := seq(|qs|, i => i);
    assert AllDisabled(a[..], 0);
    assert Pow2(1) == 2;
    TrainNode(qs, ln, positions, 0, 0, depth, a);
    tree := a[..];
    AllVisitRoot(tree, qs, |qs|);
    forall node | 0 <= node < |tree| ensures NodeLearned(tree, qs, ln, node) {
      TrainingMatchesRouting(tree, qs, ln, node);
    }
  }
}
