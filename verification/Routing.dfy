/** The learned partition tree: heap-order routing of a vector to its partition key. */
module Routing {
  import opened Base

  const LEARNED_TREE_MAX_DEPTH := 10
  const KEY_LOOKUP_SIZE := 1024

  datatype TreePredicate = TreePredicate(dim: nat, threshold: int, enabled: bool)

  datatype Scheme = Scheme(treeDepth: nat, predicates: seq<TreePredicate>)

  /** What `load` checks and training guarantees. */
  predicate ValidPredicates(ps: seq<TreePredicate>) {
    forall n :: 0 <= n < |ps| && ps[n].enabled ==> ps[n].dim < DIMS
  }

  /** Which child a vector takes at `node`; a missing or disabled predicate sends it left. */
  predicate Side(v: Vec, ps: seq<TreePredicate>, node: nat)
    requires ValidPredicates(ps)
  {
    node < |ps| && ps[node].enabled && v[ps[node].dim] > ps[node].threshold
  }

  function Child(node: nat, right: bool): nat { 2 * node + (if right then 2 else 1) }

  /** The heap node reached after `level` steps. */
  function WalkNode(v: Vec, ps: seq<TreePredicate>, level: nat): nat
    requires ValidPredicates(ps)
  {
    if level == 0 then 0
    else var n := WalkNode(v, ps, level - 1); Child(n, Side(v, ps, n))
  }

  /** The sides taken in the first `level` steps, as a binary number. */
  function KeyPrefix(v: Vec, ps: seq<TreePredicate>, level: nat): nat
    requires ValidPredicates(ps)
  {
    if level == 0 then 0
    else 2 * KeyPrefix(v, ps, level - 1) + (if Side(v, ps, WalkNode(v, ps, level - 1)) then 1 else 0)
  }

  function KeyBits(s: Scheme): nat { Min(s.treeDepth, LEARNED_TREE_MAX_DEPTH) }

  function TreeKey(v: Vec, s: Scheme): nat
    requires ValidPredicates(s.predicates)
  {
    KeyPrefix(v, s.predicates, KeyBits(s))
  }

  /** `compute_tree_key`. The key is below 1024 for every depth, so the lookup table of
      the index has an entry for it. */
  method ComputeTreeKey(v: Vec, s: Scheme) returns (key: nat)
    requires ValidPredicates(s.predicates)
    ensures key == TreeKey(v, s) < Pow2(KeyBits(s)) <= KEY_LOOKUP_SIZE
  {
    key := 0;
    var node := 0;
    var level := 0;
    while level < Min(s.treeDepth, LEARNED_TREE_MAX_DEPTH)
      invariant 0 <= level <= KeyBits(s)
      invariant key == KeyPrefix(v, s.predicates, level) && node == WalkNode(v, s.predicates, level)
    {
      var side := if node < |s.predicates| then
          s.predicates[node].enabled && v[s.predicates[node].dim] > s.predicates[node].threshold
        else
          false;
      key := key * 2 + if side then 1 else 0;
      node := node * 2 + 1 + if side then 1 else 0;
      level := level + 1;
    }
    KeyInRange(v, s);
  }

  /** The walk is in heap order: after `level` steps the node is 2^level - 1 + key prefix. */
  lemma {:induction false} HeapOrder(v: Vec, ps: seq<TreePredicate>, level: nat)
    requires ValidPredicates(ps)
    ensures WalkNode(v, ps, level) == Pow2(level) - 1 + KeyPrefix(v, ps, level)
    ensures KeyPrefix(v, ps, level) < Pow2(level)
  {
    if level > 0 { HeapOrder(v, ps, level - 1); }
  }

  lemma KeyInRange(v: Vec, s: Scheme)
    requires ValidPredicates(s.predicates)
    ensures TreeKey(v, s) < Pow2(KeyBits(s)) <= KEY_LOOKUP_SIZE
  {
    HeapOrder(v, s.predicates, KeyBits(s));
    Pow2Mono(KeyBits(s), LEARNED_TREE_MAX_DEPTH);
    assert Pow2(5) == 32;
    assert Pow2(10) == 32 * Pow2(5);
  }

  /** A way down from the root in heap order: at an enabled node a component above the threshold
      leads right, anything else leads left, as does a missing node. */
  predicate IsDescent(v: Vec, ps: seq<TreePredicate>, nodes: seq<nat>)
    requires ValidPredicates(ps)
  {
    && nodes != [] && nodes[0] == 0
    && forall j :: 0 <= j < |nodes| - 1 ==>
      var n := nodes[j];
      var right := n < |ps| && ps[n].enabled && v[ps[n].dim] > ps[n].threshold;
      nodes[j + 1] == if right then 2 * n + 2 else 2 * n + 1
  }

  lemma {:induction false} DescentWalks(v: Vec, ps: seq<TreePredicate>, nodes: seq<nat>, level: nat)
    requires ValidPredicates(ps) && IsDescent(v, ps, nodes) && level < |nodes|
    ensures WalkNode(v, ps, level) == nodes[level]
  {
    if level > 0 { DescentWalks(v, ps, nodes, level - 1); }
  }

  /** The key is the place, among the nodes of its level, of the node that is reached after the
      levels of the tree, at most ten. */
  lemma {:induction false} KeyIsPlace(v: Vec, s: Scheme, nodes: seq<nat>)
    requires ValidPredicates(s.predicates) && IsDescent(v, s.predicates, nodes)
    requires |nodes| == 1 + if s.treeDepth < 10 then s.treeDepth else 10
    ensures TreeKey(v, s) == nodes[|nodes| - 1] + 1 - Pow2(|nodes| - 1)
  {
    DescentWalks(v, s.predicates, nodes, |nodes| - 1);
    HeapOrder(v, s.predicates, |nodes| - 1);
  }

  /** Two vectors share a partition exactly when they take the same side at every level. */
  lemma {:induction false} SameKeyIffSameSides(v: Vec, w: Vec, ps: seq<TreePredicate>, levels: nat)
    requires ValidPredicates(ps)
    ensures KeyPrefix(v, ps, levels) == KeyPrefix(w, ps, levels)
            <==> forall j: nat :: j < levels ==> SameSide(v, w, ps, j)
  {
    if levels > 0 {
      SameKeyIffSameSides(v, w, ps, levels - 1);
      OneMoreSide(v, w, ps, levels - 1);
    }
  }

  /** Both vectors take the same side at this level of their own walks. */
  predicate SameSide(v: Vec, w: Vec, ps: seq<TreePredicate>, level: nat)
    requires ValidPredicates(ps)
  {
    Side(v, ps, WalkNode(v, ps, level)) == Side(w, ps, WalkNode(w, ps, level))
  }

  lemma {:induction false} OneMoreSide(v: Vec, w: Vec, ps: seq<TreePredicate>, level: nat)
    requires ValidPredicates(ps)
    ensures KeyPrefix(v, ps, level + 1) == KeyPrefix(w, ps, level + 1)
            <==> KeyPrefix(v, ps, level) == KeyPrefix(w, ps, level) && SameSide(v, w, ps, level)
  {
  }

  // ----- the walk, seen from a node -----

  /** Does the walk of `v` pass through `node`? */
  predicate Visits(v: Vec, ps: seq<TreePredicate>, node: nat)
    requires ValidPredicates(ps)
  {
    node == 0 || (Visits(v, ps, (node - 1) / 2) && Side(v, ps, (node - 1) / 2) == (node % 2 == 0))
  }

  lemma {:induction false} WalkVisits(v: Vec, ps: seq<TreePredicate>, level: nat)
    requires ValidPredicates(ps)
    ensures Visits(v, ps, WalkNode(v, ps, level))
  {
    if level > 0 { WalkVisits(v, ps, level - 1); }
  }

  lemma {:induction false} VisitedOnWalk(v: Vec, ps: seq<TreePredicate>, node: nat) returns (level: nat)
    requires ValidPredicates(ps) && Visits(v, ps, node)
    ensures WalkNode(v, ps, level) == node
  {
    if node == 0 {
      level := 0;
    } else {
      var parent := (node - 1) / 2;
      level := VisitedOnWalk(v, ps, parent);
      assert WalkNode(v, ps, level + 1) == Child(parent, Side(v, ps, parent));
      assert node == Child(parent, node % 2 == 0);
      level := level + 1;
    }
  }

  lemma {:induction false} VisitsIffOnWalk(v: Vec, ps: seq<TreePredicate>, node: nat)
    requires ValidPredicates(ps)
    ensures Visits(v, ps, node) <==> exists level: nat :: WalkNode(v, ps, level) == node
  {
    if Visits(v, ps, node) {
      var level := VisitedOnWalk(v, ps, node);
    }
    forall level: nat | WalkNode(v, ps, level) == node ensures Visits(v, ps, node) {
      WalkVisits(v, ps, level);
    }
  }
}
