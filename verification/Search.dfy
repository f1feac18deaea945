/**
 * The depth-first search of one kd-tree with an explicit stack, and the deferral of
 * subtrees whose labels cannot change the count.
 *
 * The repository has two copies of the search, one with deferral and one that tracks the
 * partition keys of the best slots. Here is one search that does both; a deferred root
 * therefore carries its partition key.
 */
module Search {
  import opened Base
  import opened Kernel
  import opened TopK
  import opened Routing
  import opened KdTree
  import opened Index
  import opened LeafScan

  const DEFER_STACK_CAPACITY := 4096

  // ----- a subtree as the search meets it -----

  // The predicates over all references of a subtree are recursive rather than quantified:
  // the search passes them around whole and only small lemmas look inside.

  /** Every reference is at least `bound` away and belongs to the partition `key`. */
  ghost predicate Above(c: Ctx, ids: seq<nat>, bound: int, key: nat)
    requires ValidPredicates(c.scheme.predicates)
  {
    ids == [] ||
    var x := ids[|ids| - 1];
    Above(c, ids[..|ids| - 1], bound, key) && x < |c.refs| && bound <= Dist(c.q, c.refs[x].vector) && KeyAt(c, x) == key
  }

  lemma {:induction false} AboveAt(c: Ctx, ids: seq<nat>, bound: int, key: nat, x: nat)
    requires ValidPredicates(c.scheme.predicates) && Above(c, ids, bound, key) && x in ids
    ensures x < |c.refs| && bound <= Dist(c.q, c.refs[x].vector) && KeyAt(c, x) == key
  {
    if x != ids[|ids| - 1] { AboveAt(c, ids[..|ids| - 1], bound, key, x); }
  }

  lemma {:induction false} AboveAll(c: Ctx, ids: seq<nat>, bound: int, key: nat)
    requires ValidPredicates(c.scheme.predicates)
    requires forall x :: x in ids ==> x < |c.refs| && bound <= Dist(c.q, c.refs[x].vector) && KeyAt(c, x) == key
    ensures Above(c, ids, bound, key)
  {
    if ids != [] {
      var front := ids[..|ids| - 1];
      forall x | x in front ensures x in ids {}
      AboveAll(c, front, bound, key);
      assert ids[|ids| - 1] in ids;
    }
  }

  /** Every reference has the label `lbl`. */
  ghost predicate OnlyLabel(c: Ctx, ids: seq<nat>, lbl: nat) {
    ids == [] || (OnlyLabel(c, ids[..|ids| - 1], lbl) && ids[|ids| - 1] < |c.refs| && c.refs[ids[|ids| - 1]].lbl == lbl)
  }

  lemma {:induction false} OnlyLabelAt(c: Ctx, ids: seq<nat>, lbl: nat, x: nat)
    requires OnlyLabel(c, ids, lbl) && x in ids
    ensures x < |c.refs| && c.refs[x].lbl == lbl
  {
    if x != ids[|ids| - 1] { OnlyLabelAt(c, ids[..|ids| - 1], lbl, x); }
  }

  lemma {:induction false} OnlyLabelAll(c: Ctx, ids: seq<nat>, lbl: nat)
    requires forall x :: x in ids ==> x < |c.refs| && c.refs[x].lbl == lbl
    ensures OnlyLabel(c, ids, lbl)
  {
    if ids != [] {
      var front := ids[..|ids| - 1];
      forall x | x in front ensures x in ids {}
      OnlyLabelAll(c, front, lbl);
      assert ids[|ids| - 1] in ids;
    }
  }

  /** `node` encodes `t`, `bound` is below every distance in it, and its height is bounded. */
  ghost predicate SubtreeOk(ix: Index, c: Ctx, lanes: seq<Lane>, node: nat, bound: int, key: nat, t: Tree)
    requires ValidPredicates(c.scheme.predicates)
  {
    && Encodes(ix.nodes, LANES, lanes, c.refs, node, t) && Height(t) <= TREE_STACK_CAPACITY
    && Above(c, Ids(t), bound, key)
  }

  lemma BoundAdmissible(c: Ctx, ids: seq<nat>, lo: Vec, hi: Vec)
    requires Fits(c) && IsBox(c.refs, ids, lo, hi) && ids != []
    ensures forall x :: x in ids ==> x < |c.refs| && LowerBoundBox(c.q, lo, hi) <= Dist(c.q, c.refs[x].vector)
  {
    forall d | 0 <= d < PACKED_DIMS
      ensures lo[d] <= hi[d] && -MAX_SCALE <= lo[d] && hi[d] <= MAX_SCALE && (d >= DIMS ==> lo[d] == 0 == hi[d])
    {
      var x :| x in ids && x < |c.refs| && c.refs[x].vector[d] == lo[d];
      var y :| y in ids && y < |c.refs| && c.refs[y].vector[d] == hi[d];
      assert InBox(c.refs[x].vector, lo, hi);
    }
    AdmissibleIff(c.q, lo, hi);
  }

  lemma {:induction false} IdsNonEmpty(nodes: seq<Node>, unit: nat, lanes: seq<Lane>, refs: seq<Reference>, n: nat,
                                       t: Tree)
    requires Encodes(nodes, unit, lanes, refs, n, t)
    ensures Ids(t) != []
  {
    assert Attains(refs, Ids(t), 0, nodes[n].lo[0]);
  }

  /** A child of a subtree, with the bound of its own box. */
  lemma {:induction false} ChildOk(ix: Index, c: Ctx, lanes: seq<Lane>, node: nat, bound: int, key: nat, t: Tree,
                                   child: nat, ct: Tree)
    requires Fits(c) && SubtreeOk(ix, c, lanes, node, bound, key, t) && t.Branch?
    requires (child == node + 1 && ct == t.near) || (child == node + 1 + Count(t.near) && ct == t.far)
    ensures child < |ix.nodes| && Height(ct) < Height(t)
    ensures SubtreeOk(ix, c, lanes, child, LowerBoundBox(c.q, ix.nodes[child].lo, ix.nodes[child].hi), key, ct)
  {
    IdsNonEmpty(ix.nodes, LANES, lanes, c.refs, child, ct);
    BoundAdmissible(c, Ids(ct), ix.nodes[child].lo, ix.nodes[child].hi);
    forall x | x in Ids(ct) ensures x < |c.refs| && KeyAt(c, x) == key {
      AboveAt(c, Ids(t), bound, key, x);
    }
    AboveAll(c, Ids(ct), LowerBoundBox(c.q, ix.nodes[child].lo, ix.nodes[child].hi), key);
  }

  /** A subtree whose bound exceeds the last distance has nothing to offer. */
  lemma {:induction false} Prune(ix: Index, c: Ctx, lanes: seq<Lane>, node: nat, bound: int, key: nat, t: Tree,
                                 b: seq<Slot>, seen: set<Slot>)
    requires ValidPredicates(c.scheme.predicates) && SubtreeOk(ix, c, lanes, node, bound, key, t)
    requires IsTopK(b, seen) && bound > b[K - 1].dist
    ensures IsTopK(b, seen + Slots(c, multiset(Ids(t))))
  {
    forall s | s in Slots(c, multiset(Ids(t))) ensures !Before(s, b[K - 1]) {
      var x: nat :| x in multiset(Ids(t)) && x < |c.refs| && s == RefSlot(c, x);
      AboveAt(c, Ids(t), bound, key, x);
    }
    Skip(b, seen, Slots(c, multiset(Ids(t))), true);
  }

  // ----- deferred subtrees -----

  datatype Deferred = Deferred(root: nat, bound: int, key: nat)

  /** The label all K slots agree on, once all are filled. */
  function ConsensusLabel(b: seq<Slot>): (r: Option<nat>)
    requires |b| == K
  {
    if b[K - 1].dist == I64_MAX then None
    else
      var sum := LabelSum(b);
      if sum == 0 then Some(0) else if sum == K then Some(1) else None
  }

  ghost function TreeIds(trees: seq<Tree>): multiset<nat> {
    if trees == [] then multiset{} else TreeIds(trees[..|trees| - 1]) + multiset(Ids(trees[|trees| - 1]))
  }

  /** `PendingSubtrees`. The ghost trees are what the deferred roots encode. */
  class Pending {
    const enabled: bool
    const entries: array<Deferred>
    var lbl: Option<nat>
    var len: nat
    ghost var trees: seq<Tree>

    ghost predicate Valid()
      reads this, entries
    {
      entries.Length == DEFER_STACK_CAPACITY && len == |trees| <= DEFER_STACK_CAPACITY
    }

    /** Every pending subtree holds only the pending label. */
    ghost predicate Uniform(ix: Index, c: Ctx, lanes: seq<Lane>)
      requires ValidPredicates(c.scheme.predicates)
      reads this, entries
    {
      && Valid() && (len > 0 ==> lbl.Some?)
      && forall i :: 0 <= i < len ==>
           && SubtreeOk(ix, c, lanes, entries[i].root, entries[i].bound, entries[i].key, trees[i])
           && OnlyLabel(c, Ids(trees[i]), lbl.value)
    }

    constructor (enabled: bool)
      ensures Valid() && trees == [] && lbl == None && this.enabled == enabled && fresh(entries)
    {
      this.enabled := enabled;
      entries := new Deferred[DEFER_STACK_CAPACITY](_ => Deferred(0, 0, 0));
      lbl, len, trees := None, 0, [];
    }

    /** `try_defer`: only when the K labels agree and the subtree has no other label. */
    method TryDefer(node: nat, bound: int, key: nat, best: array<Slot>, classBits: set<nat>, ghost ix: Index,
                    ghost c: Ctx, ghost lanes: seq<Lane>, ghost t: Tree) returns (deferred: bool)
      requires Fits(c) && Uniform(ix, c, lanes) && SubtreeOk(ix, c, lanes, node, bound, key, t)
      requires best.Length == K && best as object != entries && IsBits(c.refs, Ids(t), classBits)
      modifies this, entries
      ensures Uniform(ix, c, lanes)
      ensures deferred ==> trees == old(trees) + [t] && ConsensusLabel(best[..]) == lbl
      ensures !deferred ==> trees == old(trees)
      ensures !enabled ==> !deferred
    {
      if !enabled || len >= DEFER_STACK_CAPACITY { return false; }
      var consensus := ConsensusLabel(best[..]);
      if consensus.None? { return false; }
      var needed := 1 - consensus.value;
      if classBits == {} || needed in classBits { return false; }
      if lbl.None? { lbl := consensus; }
      if lbl != consensus { return false; }
      forall x | x in Ids(t) ensures x < |c.refs| && c.refs[x].lbl == consensus.value {
        AboveAt(c, Ids(t), bound, key, x);
        assert HasLabel(c.refs, Ids(t), ClassOf(c.refs[x].lbl));
      }
      OnlyLabelAll(c, Ids(t), consensus.value);
      entries[len] := Deferred(node, bound, key);
      len := len + 1;
      trees := trees + [t];
      deferred := true;
    }

    /** `should_replay`. */
    method ShouldReplay(best: array<Slot>) returns (replay: bool)
      requires Valid() && best.Length == K
      ensures replay <==> trees != [] && ConsensusLabel(best[..]) != lbl
    {
      replay := len > 0 && ConsensusLabel(best[..]) != lbl;
    }

    /** `pop`; popping from the empty list forgets the label. */
    method Pop(ghost ix: Index, ghost c: Ctx, ghost lanes: seq<Lane>) returns (r: Option<Deferred>, ghost t: Tree)
      requires ValidPredicates(c.scheme.predicates) && Uniform(ix, c, lanes)
      modifies this
      ensures Uniform(ix, c, lanes) && (r.None? <==> old(len) == 0)
      ensures r.None? ==> lbl == None && trees == [] == old(trees)
      ensures r.Some? ==> trees + [t] == old(trees) && len == old(len) - 1 && lbl == old(lbl)
      ensures r.Some? ==> SubtreeOk(ix, c, lanes, r.value.root, r.value.bound, r.value.key, t)
    {
      if len == 0 {
        lbl := None;
        return None, Leaf([]);
      }
      len := len - 1;
      r, t, trees := Some(entries[len]), trees[len], trees[..len];
    }
  }

  // ----- the explicit-stack search -----

  datatype Entry = Entry(node: nat, bound: int)

  function TotalCount(trees: seq<Tree>): nat {
    if trees == [] then 0 else TotalCount(trees[..|trees| - 1]) + Count(trees[|trees| - 1])
  }

  /** The search of `t` started from the top K of `seen`. */
  datatype Job = Job(ix: Index, c: Ctx, lanes: seq<Lane>, key: nat, t: Tree, seen: set<Slot>)

  /** Distinct references whose slots are not in `seen`. */
  ghost predicate AllNew(c: Ctx, ids: seq<nat>, seen: set<Slot>)
    requires ValidPredicates(c.scheme.predicates)
  {
    ids == [] ||
    var front, x := ids[..|ids| - 1], ids[|ids| - 1];
    AllNew(c, front, seen) && x !in front && x < |c.refs| && RefSlot(c, x) !in seen
  }

  lemma {:induction false} AllNewAt(c: Ctx, ids: seq<nat>, seen: set<Slot>, x: nat)
    requires ValidPredicates(c.scheme.predicates) && AllNew(c, ids, seen)
    ensures multiset(ids)[x] <= 1
    ensures x in ids ==> x < |c.refs| && RefSlot(c, x) !in seen
  {
    if ids != [] {
      var front, last := ids[..|ids| - 1], ids[|ids| - 1];
      AllNewAt(c, front, seen, x);
      assert ids == front + [last];
      assert x in front <==> x in multiset(front);
    }
  }

  ghost predicate JobOk(j: Job) {
    && Fits(j.c) && Sections(j.ix.vectors, j.ix.labels, j.ix.refIndices, j.lanes)
    && Height(j.t) <= TREE_STACK_CAPACITY && AllNew(j.c, Ids(j.t), j.seen)
    && Candidates(j.seen + Slots(j.c, multiset(Ids(j.t))))
  }

  /** Entry `i` of the stack lies at least `i + 1` levels below the root, so the stack is
      never deeper than the tree is high. */
  ghost predicate StackOk(j: Job, stack: seq<Entry>, trees: seq<Tree>)
    requires ValidPredicates(j.c.scheme.predicates)
  {
    && |stack| == |trees|
    && (stack == [] ||
        var n := |stack| - 1;
        && StackOk(j, stack[..n], trees[..n]) && n + 1 + Height(trees[n]) <= Height(j.t)
        && SubtreeOk(j.ix, j.c, j.lanes, stack[n].node, stack[n].bound, j.key, trees[n]))
  }

  /** Between two nodes: `kept` is accounted for in `b`, `deferred` is pending, and the
      stack holds the rest. */
  ghost predicate Idle(j: Job, kept: multiset<nat>, deferred: multiset<nat>, stack: seq<Entry>, trees: seq<Tree>,
                       b: seq<Slot>)
    requires ValidPredicates(j.c.scheme.predicates)
  {
    && kept + deferred + TreeIds(trees) == multiset(Ids(j.t))
    && StackOk(j, stack, trees) && IsTopK(b, j.seen + Slots(j.c, kept))
  }

  /** At a node: `ct` is the subtree there. */
  ghost predicate At(j: Job, kept: multiset<nat>, deferred: multiset<nat>, stack: seq<Entry>, trees: seq<Tree>,
                     b: seq<Slot>, node: nat, bound: int, ct: Tree)
    requires ValidPredicates(j.c.scheme.predicates)
  {
    && kept + deferred + multiset(Ids(ct)) + TreeIds(trees) == multiset(Ids(j.t))
    && StackOk(j, stack, trees) && IsTopK(b, j.seen + Slots(j.c, kept))
    && SubtreeOk(j.ix, j.c, j.lanes, node, bound, j.key, ct) && |trees| + Height(ct) <= Height(j.t)
  }

  lemma Start(j: Job, node: nat, bound: int, b: seq<Slot>)
    requires ValidPredicates(j.c.scheme.predicates) && SubtreeOk(j.ix, j.c, j.lanes, node, bound, j.key, j.t)
    requires IsTopK(b, j.seen)
    ensures At(j, multiset{}, multiset{}, [], [], b, node, bound, j.t)
  {
    assert j.seen + Slots(j.c, multiset{}) == j.seen;
  }

  lemma Finish(j: Job, kept: multiset<nat>, deferred: multiset<nat>, stack: seq<Entry>, trees: seq<Tree>, b: seq<Slot>)
    requires ValidPredicates(j.c.scheme.predicates) && Idle(j, kept, deferred, stack, trees, b) && stack == []
    ensures kept + deferred == multiset(Ids(j.t)) && IsTopK(b, j.seen + Slots(j.c, kept))
  {
  }

  lemma PopStack(j: Job, kept: multiset<nat>, deferred: multiset<nat>, stack: seq<Entry>, trees: seq<Tree>,
                 b: seq<Slot>)
    requires ValidPredicates(j.c.scheme.predicates) && Idle(j, kept, deferred, stack, trees, b) && stack != []
    ensures var n := |stack| - 1;
            At(j, kept, deferred, stack[..n], trees[..n], b, stack[n].node, stack[n].bound, trees[n])
  {
    var n := |stack| - 1;
    assert kept + deferred + multiset(Ids(trees[n])) + TreeIds(trees[..n]) == multiset(Ids(j.t));
  }

  lemma KeptGrows(j: Job, kept: multiset<nat>, more: multiset<nat>)
    requires ValidPredicates(j.c.scheme.predicates)
    ensures j.seen + Slots(j.c, kept) + Slots(j.c, more) == j.seen + Slots(j.c, kept + more)
  {
    SlotsSum(j.c, kept, more);
  }

  /** The node's whole subtree is accounted for by the new best arrays. */
  lemma {:induction false} Absorb(j: Job, kept: multiset<nat>, deferred: multiset<nat>, stack: seq<Entry>,
                                  trees: seq<Tree>, b: seq<Slot>, node: nat, bound: int, ct: Tree, b': seq<Slot>)
    requires ValidPredicates(j.c.scheme.predicates) && At(j, kept, deferred, stack, trees, b, node, bound, ct)
    requires IsTopK(b', j.seen + Slots(j.c, kept) + Slots(j.c, multiset(Ids(ct))))
    ensures Idle(j, kept + multiset(Ids(ct)), deferred, stack, trees, b')
  {
    KeptGrows(j, kept, multiset(Ids(ct)));
  }

  lemma {:induction false} PruneHere(j: Job, kept: multiset<nat>, deferred: multiset<nat>, stack: seq<Entry>,
                                     trees: seq<Tree>, b: seq<Slot>, node: nat, bound: int, ct: Tree)
    requires ValidPredicates(j.c.scheme.predicates) && At(j, kept, deferred, stack, trees, b, node, bound, ct)
    requires bound > b[K - 1].dist
    ensures Idle(j, kept + multiset(Ids(ct)), deferred, stack, trees, b)
  {
    Prune(j.ix, j.c, j.lanes, node, bound, j.key, ct, b, j.seen + Slots(j.c, kept));
    Absorb(j, kept, deferred, stack, trees, b, node, bound, ct, b);
  }

  /** Going to the near child with the far one on the stack. */
  lemma {:induction false} Descend(j: Job, kept: multiset<nat>, deferred: multiset<nat>, stack: seq<Entry>,
                                   trees: seq<Tree>, b: seq<Slot>, node: nat, bound: int, ct: Tree, near: Entry,
                                   nt: Tree, far: Entry, ft: Tree)
    requires ValidPredicates(j.c.scheme.predicates) && At(j, kept, deferred, stack, trees, b, node, bound, ct)
    requires SubtreeOk(j.ix, j.c, j.lanes, near.node, near.bound, j.key, nt) && Height(nt) < Height(ct)
    requires SubtreeOk(j.ix, j.c, j.lanes, far.node, far.bound, j.key, ft) && Height(ft) < Height(ct)
    requires multiset(Ids(nt)) + multiset(Ids(ft)) == multiset(Ids(ct))
    ensures At(j, kept, deferred, stack + [far], trees + [ft], b, near.node, near.bound, nt)
    ensures TotalCount(trees + [ft]) == TotalCount(trees) + Count(ft)
  {
    PushStack(j, stack, trees, far, ft);
    DescendIds(kept, deferred, multiset(Ids(j.t)), trees, ct, nt, ft);
  }

  lemma Regroup(a: multiset<nat>, near: multiset<nat>, far: multiset<nat>, rest: multiset<nat>)
    ensures a + (near + far) + rest == a + near + (rest + far)
  {
  }

  lemma {:induction false} DescendIds(kept: multiset<nat>, deferred: multiset<nat>, all: multiset<nat>,
                                      trees: seq<Tree>, ct: Tree, nt: Tree, ft: Tree)
    requires kept + deferred + multiset(Ids(ct)) + TreeIds(trees) == all
    requires multiset(Ids(nt)) + multiset(Ids(ft)) == multiset(Ids(ct))
    ensures kept + deferred + multiset(Ids(nt)) + TreeIds(trees + [ft]) == all
    ensures TotalCount(trees + [ft]) == TotalCount(trees) + Count(ft)
  {
    assert (trees + [ft])[..|trees|] == trees;
    Regroup(kept + deferred, multiset(Ids(nt)), multiset(Ids(ft)), TreeIds(trees));
  }

  lemma {:induction false} PushStack(j: Job, stack: seq<Entry>, trees: seq<Tree>, far: Entry, ft: Tree)
    requires ValidPredicates(j.c.scheme.predicates) && StackOk(j, stack, trees)
    requires SubtreeOk(j.ix, j.c, j.lanes, far.node, far.bound, j.key, ft) && |trees| + 1 + Height(ft) <= Height(j.t)
    ensures StackOk(j, stack + [far], trees + [ft])
  {
    assert (trees + [ft])[..|trees|] == trees && (stack + [far])[..|stack|] == stack;
  }

  /** Going to the near child with the far one pruned. */
  lemma {:induction false} DescendOnly(j: Job, kept: multiset<nat>, deferred: multiset<nat>, stack: seq<Entry>,
                                       trees: seq<Tree>, b: seq<Slot>, node: nat, bound: int, ct: Tree, near: Entry,
                                       nt: Tree, far: Entry, ft: Tree)
    requires ValidPredicates(j.c.scheme.predicates) && At(j, kept, deferred, stack, trees, b, node, bound, ct)
    requires SubtreeOk(j.ix, j.c, j.lanes, near.node, near.bound, j.key, nt) && Height(nt) < Height(ct)
    requires SubtreeOk(j.ix, j.c, j.lanes, far.node, far.bound, j.key, ft) && far.bound > b[K - 1].dist
    requires multiset(Ids(nt)) + multiset(Ids(ft)) == multiset(Ids(ct))
    ensures At(j, kept + multiset(Ids(ft)), deferred, stack, trees, b, near.node, near.bound, nt)
  {
    Prune(j.ix, j.c, j.lanes, far.node, far.bound, j.key, ft, b, j.seen + Slots(j.c, kept));
    KeptGrows(j, kept, multiset(Ids(ft)));
    KeepIds(kept, deferred, multiset(Ids(j.t)), trees, ct, nt, ft);
  }

  lemma {:induction false} KeepIds(kept: multiset<nat>, deferred: multiset<nat>, all: multiset<nat>, trees: seq<Tree>,
                                   ct: Tree, nt: Tree, ft: Tree)
    requires kept + deferred + multiset(Ids(ct)) + TreeIds(trees) == all
    requires multiset(Ids(nt)) + multiset(Ids(ft)) == multiset(Ids(ct))
    ensures kept + multiset(Ids(ft)) + deferred + multiset(Ids(nt)) + TreeIds(trees) == all
  {
  }

  /** What is on its way has not been offered before. */
  lemma LeafIsNew(j: Job, kept: multiset<nat>, deferred: multiset<nat>, stack: seq<Entry>, trees: seq<Tree>,
                  b: seq<Slot>, node: nat, bound: int, ct: Tree)
    requires JobOk(j) && At(j, kept, deferred, stack, trees, b, node, bound, ct) && ct.Leaf?
    ensures LeafOk(j.ix, j.c.q, j.ix.nodes[node].start, j.key, j.c, j.lanes, ct.ids, j.seen + Slots(j.c, kept))
  {
    var ids, seen := ct.ids, j.seen + Slots(j.c, kept);
    var rest := deferred + TreeIds(trees);
    assert kept + multiset(ids) + rest == multiset(Ids(j.t));
    forall x | x in ids ensures x < |j.c.refs| && RefSlot(j.c, x) !in seen && multiset(ids)[x] == 1 {
      Accounted(j, kept, ids, rest, x);
    }
    MakeNew(j.c, ids, seen);
    OfferedCandidates(j, kept, ids, rest);
    forall i | 0 <= i < |ids| ensures KeyAt(j.c, ids[i]) == j.key {
      assert ids[i] in ids;
      AboveAt(j.c, ids, bound, j.key, ids[i]);
    }
  }

  lemma {:induction false} OfferedCandidates(j: Job, kept: multiset<nat>, ids: seq<nat>, rest: multiset<nat>)
    requires JobOk(j) && kept + multiset(ids) + rest == multiset(Ids(j.t)) && New(j.c, ids, j.seen + Slots(j.c, kept))
    ensures Candidates(Offered(j.c, ids, j.seen + Slots(j.c, kept), |ids|))
  {
    OfferedAll(j.c, ids, j.seen + Slots(j.c, kept));
    SlotsSum(j.c, kept, multiset(ids));
    SlotsSum(j.c, kept + multiset(ids), rest);
  }

  /** A reference on its way has not been accounted for yet. */
  lemma Accounted(j: Job, kept: multiset<nat>, ids: seq<nat>, rest: multiset<nat>, x: nat)
    requires JobOk(j) && kept + multiset(ids) + rest == multiset(Ids(j.t)) && x in ids
    ensures x < |j.c.refs| && RefSlot(j.c, x) !in j.seen + Slots(j.c, kept) && multiset(ids)[x] == 1
  {
    assert x in multiset(ids) && multiset(Ids(j.t))[x] == kept[x] + multiset(ids)[x] + rest[x];
    assert x in multiset(Ids(j.t));
    AllNewAt(j.c, Ids(j.t), j.seen, x);
  }

  lemma MakeNew(c: Ctx, ids: seq<nat>, seen: set<Slot>)
    requires ValidPredicates(c.scheme.predicates)
    requires forall x :: x in ids ==> x < |c.refs| && RefSlot(c, x) !in seen && multiset(ids)[x] == 1
    ensures New(c, ids, seen)
  {
    forall i, k | 0 <= i < k < |ids| ensures ids[i] != ids[k] {
      assert ids == ids[..k] + [ids[k]] + ids[k + 1..];
      assert ids[i] in ids[..k] && ids[i] in multiset(ids[..k]);
      assert ids[i] in ids;
    }
    forall i | 0 <= i < |ids| ensures ids[i] < |c.refs| && RefSlot(c, ids[i]) !in seen {
      assert ids[i] in ids;
    }
  }

  /** A child with its bound. */
  method ChildEntry(ix: Index, q: Vec, child: nat, ghost node: nat, ghost j: Job, ghost bound: int, ghost ct: Tree,
                    ghost t: Tree)
    returns (e: Entry)
    requires Fits(j.c) && j.ix == ix && q == j.c.q && SubtreeOk(ix, j.c, j.lanes, node, bound, j.key, ct) && ct.Branch?
    requires (child == node + 1 && t == ct.near) || (child == node + 1 + Count(ct.near) && t == ct.far)
    ensures SubtreeOk(ix, j.c, j.lanes, e.node, e.bound, j.key, t) && Height(t) < Height(ct)
  {
    ChildOk(ix, j.c, j.lanes, node, bound, j.key, ct, child, t);
    e := Entry(child, LowerBoundBox(q, ix.nodes[child].lo, ix.nodes[child].hi));
  }

  /** The two children, nearer one first, with their bounds. */
  method Children(ix: Index, q: Vec, node: nat, ghost j: Job, ghost bound: int, ghost ct: Tree)
    returns (near: Entry, far: Entry, ghost nt: Tree, ghost ft: Tree)
    requires Fits(j.c) && j.ix == ix && q == j.c.q && SubtreeOk(ix, j.c, j.lanes, node, bound, j.key, ct) && ct.Branch?
    ensures near.bound <= far.bound && Height(nt) < Height(ct) && Height(ft) < Height(ct)
    ensures SubtreeOk(ix, j.c, j.lanes, near.node, near.bound, j.key, nt)
    ensures SubtreeOk(ix, j.c, j.lanes, far.node, far.bound, j.key, ft)
    ensures multiset(Ids(nt)) + multiset(Ids(ft)) == multiset(Ids(ct)) && Count(nt) + Count(ft) < Count(ct)
  {
    near := ChildEntry(ix, q, ix.nodes[node].left as nat, node, j, bound, ct, ct.near);
    far := ChildEntry(ix, q, ix.nodes[node].right as nat, node, j, bound, ct, ct.far);
    nt, ft := ct.near, ct.far;
    if near.bound > far.bound {
      near, far, nt, ft := far, near, ft, nt;
    }
  }

  /** The branch case: the far child goes on the stack unless it is pruned. The test for
      stack space never fails (`StackOk`). */
  method VisitBranch(ix: Index, q: Vec, node: nat, best: array<Slot>, stack: array<Entry>, stackLen: nat, ghost j: Job,
                     ghost bound: int, ghost ct: Tree, ghost kept: multiset<nat>, ghost deferred: multiset<nat>,
                     ghost trees: seq<Tree>)
    returns (near: Entry, stackLen': nat, ghost nt: Tree, ghost kept': multiset<nat>, ghost trees': seq<Tree>)
    requires JobOk(j) && j.ix == ix && q == j.c.q && ct.Branch? && best.Length == K
    requires stack.Length == TREE_STACK_CAPACITY && stackLen <= TREE_STACK_CAPACITY && stack as object != best
    requires At(j, kept, deferred, stack[..stackLen], trees, best[..], node, bound, ct)
    modifies stack
    ensures stackLen' <= TREE_STACK_CAPACITY
    ensures At(j, kept', deferred, stack[..stackLen'], trees', best[..], near.node, near.bound, nt)
    ensures TotalCount(trees') + Count(nt) < TotalCount(trees) + Count(ct)
  {
    ghost var entries := stack[..stackLen];
    var far;
    ghost var ft;
    near, far, nt, ft := Children(ix, q, node, j, bound, ct);
    if far.bound <= best[K - 1].dist && stackLen < TREE_STACK_CAPACITY {
      Descend(j, kept, deferred, entries, trees, best[..], node, bound, ct, near, nt, far, ft);
      TakeUpdated(stack[..], stackLen, far);
      stack[stackLen] := far;
      stackLen' := stackLen + 1;
      kept', trees' := kept, trees + [ft];
      assert stack[..stackLen'] == entries + [far];
    } else {
      DescendOnly(j, kept, deferred, entries, trees, best[..], node, bound, ct, near, nt, far, ft);
      stackLen', kept', trees' := stackLen, kept + multiset(Ids(ft)), trees;
    }
  }

  /** The leaf case. */
  method VisitLeaf(ix: Index, q: Vec, key: nat, node: nat, best: array<Slot>, ghost j: Job, ghost bound: int,
                   ghost ct: Tree, ghost kept: multiset<nat>, ghost deferred: multiset<nat>, ghost stack: seq<Entry>,
                   ghost trees: seq<Tree>)
    requires JobOk(j) && j.ix == ix && q == j.c.q && j.key == key && ct.Leaf? && best.Length == K
    requires At(j, kept, deferred, stack, trees, best[..], node, bound, ct)
    modifies best
    ensures Idle(j, kept + multiset(Ids(ct)), deferred, stack, trees, best[..])
  {
    LeafIsNew(j, kept, deferred, stack, trees, best[..], node, bound, ct);
    ghost var b := best[..];
    ScanLeaf(ix, node, q, key, best, j.c, j.lanes, ct.ids, j.seen + Slots(j.c, kept));
    Absorb(j, kept, deferred, stack, trees, b, node, bound, ct, best[..]);
  }

  lemma {:induction false} DeferHere(j: Job, kept: multiset<nat>, deferred: multiset<nat>, stack: seq<Entry>,
                                     trees: seq<Tree>, b: seq<Slot>, node: nat, bound: int, ct: Tree,
                                     pending: seq<Tree>, base: multiset<nat>)
    requires ValidPredicates(j.c.scheme.predicates) && At(j, kept, deferred, stack, trees, b, node, bound, ct)
    requires TreeIds(pending) == base + deferred
    ensures Idle(j, kept, deferred + multiset(Ids(ct)), stack, trees, b)
    ensures TreeIds(pending + [ct]) == base + (deferred + multiset(Ids(ct)))
  {
    assert (pending + [ct])[..|pending|] == pending;
  }

  /** One node: pruned, deferred, scanned, or left for its near child. */
  method Visit(ix: Index, q: Vec, key: nat, node: nat, bound: int, best: array<Slot>, stack: array<Entry>,
               stackLen: nat, pending: Pending, defer: bool, ghost j: Job, ghost ct: Tree, ghost kept: multiset<nat>,
               ghost deferred: multiset<nat>, ghost trees: seq<Tree>, ghost base: multiset<nat>)
    returns (next: Option<Entry>, stackLen': nat, ghost nt: Tree,
             ghost kept': multiset<nat>, ghost deferred': multiset<nat>, ghost trees': seq<Tree>)
    requires JobOk(j) && j.ix == ix && q == j.c.q && j.key == key && best.Length == K
    requires stack.Length == TREE_STACK_CAPACITY && stackLen <= TREE_STACK_CAPACITY && stack as object != best
    requires stack as object != pending.entries && best as object != pending.entries
    requires At(j, kept, deferred, stack[..stackLen], trees, best[..], node, bound, ct)
    requires pending.Uniform(ix, j.c, j.lanes) && TreeIds(pending.trees) == base + deferred
    modifies best, stack, pending, pending.entries
    ensures stackLen' <= TREE_STACK_CAPACITY
    ensures next.Some? ==>
              && At(j, kept', deferred', stack[..stackLen'], trees', best[..], next.value.node, next.value.bound, nt)
              && TotalCount(trees') + Count(nt) < TotalCount(trees) + Count(ct)
    ensures next.None? ==>
              && Idle(j, kept', deferred', stack[..stackLen'], trees', best[..])
              && TotalCount(trees') < TotalCount(trees) + Count(ct)
    ensures pending.Uniform(ix, j.c, j.lanes) && TreeIds(pending.trees) == base + deferred'
    ensures !defer || !pending.enabled ==> deferred' == deferred && pending.trees == old(pending.trees)
    ensures !defer ==> unchanged(pending) && unchanged(pending.entries)
  {
    ghost var entries := stack[..stackLen];
    next, stackLen', nt, kept', deferred', trees' := None, stackLen, ct, kept, deferred, trees;
    CountPositive(ct);
    if bound > best[K - 1].dist {
      PruneHere(j, kept, deferred, entries, trees, best[..], node, bound, ct);
      kept' := kept + multiset(Ids(ct));
      return;
    }
    if defer {
      var d := pending.TryDefer(node, bound, key, best, ix.nodes[node].classBits, ix, j.c, j.lanes, ct);
      if d {
        DeferHere(j, kept, deferred, entries, trees, best[..], node, bound, ct, old(pending.trees), base);
        deferred' := deferred + multiset(Ids(ct));
        return;
      }
    }
    if ix.nodes[node].left < 0 || ix.nodes[node].right < 0 {
      VisitLeaf(ix, q, key, node, best, j, bound, ct, kept, deferred, entries, trees);
      kept' := kept + multiset(Ids(ct));
    } else {
      var near;
      near, stackLen', nt, kept', trees' :=
        VisitBranch(ix, q, node, best, stack, stackLen, j, bound, ct, kept, deferred, trees);
      if near.bound <= best[K - 1].dist {
        next := Some(near);
      } else {
        PruneHere(j, kept', deferred, stack[..stackLen'], trees', best[..], near.node, near.bound, nt);
        kept' := kept' + multiset(Ids(nt));
      }
    }
  }

  method PopEntry(stack: array<Entry>, stackLen: nat, best: array<Slot>, ghost j: Job, ghost kept: multiset<nat>,
                  ghost deferred: multiset<nat>, ghost trees: seq<Tree>)
    returns (e: Entry, stackLen': nat, ghost ct: Tree, ghost trees': seq<Tree>)
    requires ValidPredicates(j.c.scheme.predicates) && 0 < stackLen <= stack.Length
    requires Idle(j, kept, deferred, stack[..stackLen], trees, best[..])
    ensures stackLen' == stackLen - 1
    ensures At(j, kept, deferred, stack[..stackLen'], trees', best[..], e.node, e.bound, ct)
    ensures TotalCount(trees') + Count(ct) == TotalCount(trees)
  {
    PopStack(j, kept, deferred, stack[..stackLen], trees, best[..]);
    stackLen' := stackLen - 1;
    e := stack[stackLen'];
    ct, trees' := trees[stackLen'], trees[..stackLen'];
    assert stack[..stackLen'] == stack[..stackLen][..stackLen'];
  }

  lemma TakeUpdated<T>(s: seq<T>, n: nat, x: T)
    requires n < |s|
    ensures s[n := x][..n + 1] == s[..n] + [x]
  {
  }

  lemma {:induction false} CountPositive(t: Tree)
    ensures Count(t) > 0
  {
  }

  /** `search_node_iterative` and `search_node_iterative_fast`. From the top K of the
      candidates seen before it makes the top K of those and of the subtree's references,
      except for the subtrees it defers. It terminates because the subtrees still to be
      explored shrink, and no far child is dropped for want of stack space. */
  method SearchNode(ix: Index, root: nat, rootBound: int, q: Vec, key: nat, best: array<Slot>, pending: Pending,
                    defer: bool, ghost j: Job)
    returns (ghost kept: multiset<nat>, ghost deferred: multiset<nat>)
    requires JobOk(j) && j.ix == ix && j.c.q == q && j.key == key
    requires SubtreeOk(ix, j.c, j.lanes, root, rootBound, key, j.t)
    requires best.Length == K && IsTopK(best[..], j.seen)
    requires best as object != pending.entries && pending.Uniform(ix, j.c, j.lanes)
    modifies best, pending, pending.entries
    ensures kept + deferred == multiset(Ids(j.t)) && IsTopK(best[..], j.seen + Slots(j.c, kept))
    ensures pending.Uniform(ix, j.c, j.lanes) && TreeIds(pending.trees) == old(TreeIds(pending.trees)) + deferred
    ensures !defer || !pending.enabled ==> deferred == multiset{} && pending.trees == old(pending.trees)
    ensures !defer ==> unchanged(pending) && unchanged(pending.entries)
  {
    var stack := new Entry[TREE_STACK_CAPACITY](_ => Entry(0, 0));
    var stackLen := 0;
    var current := Entry(root, rootBound);
    ghost var trees: seq<Tree>, ct := [], j.t;
    kept, deferred := multiset{}, multiset{};
    Start(j, root, rootBound, best[..]);
    assert stack[..0] == [];
    ghost var base := TreeIds(pending.trees);
    while true
      invariant 0 <= stackLen <= TREE_STACK_CAPACITY
      invariant At(j, kept, deferred, stack[..stackLen], trees, best[..], current.node, current.bound, ct)
      invariant pending.Uniform(ix, j.c, j.lanes) && TreeIds(pending.trees) == base + deferred
      invariant !defer || !pending.enabled ==> deferred == multiset{} && pending.trees == old(pending.trees)
      invariant !defer ==> unchanged(pending) && unchanged(pending.entries)
      decreases TotalCount(trees) + Count(ct)
    {
      var next;
      next, stackLen, ct, kept, deferred, trees :=
        Visit(ix, q, key, current.node, current.bound, best, stack, stackLen, pending, defer, j, ct,
              kept, deferred, trees, base);
      if next.Some? {
        current := next.value;
      } else if stackLen == 0 {
        Finish(j, kept, deferred, stack[..stackLen], trees, best[..]);
        break;
      } else {
        current, stackLen, ct, trees := PopEntry(stack, stackLen, best, j, kept, deferred, trees);
      }
    }
  }
}
