/**
 * The whole search: the home partition first, the other partitions by ascending lower
 * bound, deferred subtrees replayed when the labels stop agreeing, optional early exit,
 * optional restriction to a set of partitions.
 */
module Predict {
  import opened Base
  import opened Kernel
  import opened TopK
  import opened Routing
  import opened KdTree
  import opened Index
  import opened Search

  /** A loaded index, the query's context, and what the index encodes. */
  datatype World = World(ix: Index, c: Ctx, lanes: seq<Lane>, trees: seq<Tree>)

  ghost predicate WorldOk(w: World) {
    Ground(w) && w.c.scheme == w.ix.scheme && IndexOf(w.ix, w.c.refs, w.lanes, w.trees)
  }

  /** The part of `WorldOk` that searching a subtree needs. */
  ghost predicate Ground(w: World) {
    Fits(w.c) && Sections(w.ix.vectors, w.ix.labels, w.ix.refIndices, w.lanes)
  }

  /** The references of the searched partitions are offered or pending, and the slots are
      a valid K-nearest set of the offered ones. */
  ghost predicate State(w: World, searched: set<nat>, done: multiset<nat>, pending: seq<Tree>, b: seq<Slot>)
    requires ValidPredicates(w.c.scheme.predicates)
  {
    done + TreeIds(pending) == Owned(w.c.refs, w.c.scheme, searched) && IsKNearest(b, Slots(w.c, done))
  }

  // ----- one subtree, searched from a state -----

  lemma {:induction false} AllNewIntro(c: Ctx, ids: seq<nat>, seen: set<Slot>)
    requires ValidPredicates(c.scheme.predicates)
    requires forall x :: x in ids ==> multiset(ids)[x] <= 1 && x < |c.refs| && RefSlot(c, x) !in seen
    ensures AllNew(c, ids, seen)
  {
    if ids != [] {
      var front, last := ids[..|ids| - 1], ids[|ids| - 1];
      assert ids == front + [last];
      assert multiset(ids)[last] == multiset(front)[last] + 1 && last in ids;
      forall x | x in front ensures multiset(front)[x] <= 1 && x < |c.refs| && RefSlot(c, x) !in seen {
        assert x in ids;
      }
      AllNewIntro(c, front, seen);
    }
  }

  /** References that are not done yet can be searched from the current best slots. */
  lemma {:induction false} NotDoneIsNew(w: World, done: multiset<nat>, rest: multiset<nat>, keys: set<nat>,
                                        ids: seq<nat>, b: seq<Slot>)
    requires Fits(w.c) && IsKNearest(b, Slots(w.c, done))
    requires done + multiset(ids) + rest == Owned(w.c.refs, w.c.scheme, keys)
    ensures AllNew(w.c, ids, Real(b))
  {
    forall x | x in ids ensures multiset(ids)[x] <= 1 && x < |w.c.refs| && RefSlot(w.c, x) !in Real(b) {
      assert x in multiset(ids) && (done + multiset(ids) + rest)[x] == done[x] + multiset(ids)[x] + rest[x];
      assert x !in done && x in Owned(w.c.refs, w.c.scheme, keys);
      assert RefSlot(w.c, x) !in Slots(w.c, done);
    }
    AllNewIntro(w.c, ids, Real(b));
  }

  lemma {:induction false} FreshJob(w: World, done: multiset<nat>, key: nat, t: Tree, b: seq<Slot>)
    requires Ground(w) && IsKNearest(b, Slots(w.c, done)) && Height(t) <= TREE_STACK_CAPACITY
    requires AllNew(w.c, Ids(t), Real(b))
    ensures JobOk(Job(w.ix, w.c, w.lanes, key, t, Real(b))) && IsTopK(b, Real(b))
  {
    SlotsAreCandidates(w.c, done + multiset(Ids(t)));
    SlotsSum(w.c, done, multiset(Ids(t)));
    assert Real(b) + Slots(w.c, multiset(Ids(t))) <= Slots(w.c, done + multiset(Ids(t)));
  }

  /** The result of such a search, as a K-nearest set of everything offered so far. */
  lemma AfterSearch(w: World, done: multiset<nat>, b: seq<Slot>, kept: multiset<nat>, b': seq<Slot>)
    requires Fits(w.c) && IsKNearest(b, Slots(w.c, done)) && IsTopK(b', Real(b) + Slots(w.c, kept))
    ensures IsKNearest(b', Slots(w.c, done + kept)) && b'[K - 1].dist <= b[K - 1].dist
  {
    SlotsSum(w.c, done, kept);
    SlotsAreCandidates(w.c, done + kept);
    Extend(b, Slots(w.c, done), Slots(w.c, kept), b', false);
  }

  /** Searching one subtree from a K-nearest set of what is done. */
  method SearchFrom(ix: Index, q: Vec, node: nat, bound: int, key: nat, best: array<Slot>, pending: Pending,
                    defer: bool, ghost w: World, ghost done: multiset<nat>, ghost t: Tree)
    returns (ghost kept: multiset<nat>, ghost deferred: multiset<nat>)
    requires Ground(w) && w.ix == ix && w.c.q == q && SubtreeOk(ix, w.c, w.lanes, node, bound, key, t)
    requires best.Length == K && IsKNearest(best[..], Slots(w.c, done)) && AllNew(w.c, Ids(t), Real(best[..]))
    requires best as object != pending.entries && pending.Uniform(ix, w.c, w.lanes)
    modifies best, pending, pending.entries
    ensures kept + deferred == multiset(Ids(t)) && IsKNearest(best[..], Slots(w.c, done + kept))
    ensures IsTopK(best[..], Real(old(best[..])) + Slots(w.c, kept)) && best[K - 1].dist <= old(best[K - 1].dist)
    ensures pending.Uniform(ix, w.c, w.lanes) && TreeIds(pending.trees) == old(TreeIds(pending.trees)) + deferred
    ensures !defer || !pending.enabled ==> deferred == multiset{} && pending.trees == old(pending.trees)
    ensures !defer ==> unchanged(pending) && unchanged(pending.entries)
  {
    ghost var b := best[..];
    FreshJob(w, done, key, t, b);
    kept, deferred := SearchNode(ix, node, bound, q, key, best, pending, defer, Job(ix, w.c, w.lanes, key, t, Real(b)));
    AfterSearch(w, done, b, kept, best[..]);
  }

  // ----- replaying -----

  /** After a partition: nothing is pending, or all K labels agree with the pending label. */
  ghost predicate Settled(p: Pending, b: seq<Slot>)
    requires |b| == K
    reads p
  {
    p.trees == [] || ConsensusLabel(b) == p.lbl
  }

  lemma {:induction false} Prunable(w: World, done: multiset<nat>, t: Tree, node: nat, bound: int, key: nat,
                                    b: seq<Slot>)
    requires Fits(w.c) && IsKNearest(b, Slots(w.c, done)) && SubtreeOk(w.ix, w.c, w.lanes, node, bound, key, t)
    requires bound >= b[K - 1].dist
    ensures IsKNearest(b, Slots(w.c, done + multiset(Ids(t))))
  {
    forall s | s in Slots(w.c, multiset(Ids(t))) ensures s.dist >= b[K - 1].dist {
      var x: nat :| x in multiset(Ids(t)) && x < |w.c.refs| && s == RefSlot(w.c, x);
      AboveAt(w.c, Ids(t), bound, key, x);
    }
    SlotsSum(w.c, done, multiset(Ids(t)));
    Skip(b, Slots(w.c, done), Slots(w.c, multiset(Ids(t))), false);
  }

  lemma {:induction false} LastOfPending(done: multiset<nat>, pending: seq<Tree>, t: Tree)
    ensures done + TreeIds(pending + [t]) == done + multiset(Ids(t)) + TreeIds(pending)
  {
    assert (pending + [t])[..|pending|] == pending;
  }

  /** One pending subtree: searched without deferral, or pruned. */
  method ReplayOne(ix: Index, q: Vec, d: Deferred, best: array<Slot>, pending: Pending, ghost w: World,
                   ghost searched: set<nat>, ghost done: multiset<nat>, ghost t: Tree)
    returns (ghost done': multiset<nat>)
    requires Ground(w) && w.ix == ix && w.c.q == q && best.Length == K
    requires best as object != pending.entries && pending.Uniform(ix, w.c, w.lanes)
    requires SubtreeOk(ix, w.c, w.lanes, d.root, d.bound, d.key, t)
    requires State(w, searched, done, pending.trees + [t], best[..])
    modifies best, pending, pending.entries
    ensures State(w, searched, done', pending.trees, best[..]) && best[K - 1].dist <= old(best[K - 1].dist)
    ensures unchanged(pending) && unchanged(pending.entries)
  {
    LastOfPending(done, pending.trees, t);
    done' := done + multiset(Ids(t));
    if d.bound > best[K - 1].dist {
      Prunable(w, done, t, d.root, d.bound, d.key, best[..]);
    } else {
      NotDoneIsNew(w, done, TreeIds(pending.trees), searched, Ids(t), best[..]);
      ghost var kept, deferred := SearchFrom(ix, q, d.root, d.bound, d.key, best, pending, false, w, done, t);
      assert kept == multiset(Ids(t));
    }
  }

  /** `replay_pending_if_needed`. */
  method ReplayPendingIfNeeded(ix: Index, q: Vec, best: array<Slot>, pending: Pending, ghost w: World,
                               ghost searched: set<nat>, ghost done: multiset<nat>)
    returns (ghost done': multiset<nat>)
    requires Ground(w) && w.ix == ix && w.c.q == q && best.Length == K
    requires best as object != pending.entries && pending.Uniform(ix, w.c, w.lanes)
    requires State(w, searched, done, pending.trees, best[..])
    modifies best, pending, pending.entries
    ensures pending.Uniform(ix, w.c, w.lanes) && Settled(pending, best[..])
    ensures State(w, searched, done', pending.trees, best[..]) && best[K - 1].dist <= old(best[K - 1].dist)
    ensures old(pending.trees) == [] ==> pending.trees == [] && best[..] == old(best[..])
  {
    done' := done;
    var replay := pending.ShouldReplay(best);
    if !replay { return; }
    while true
      invariant pending.Uniform(ix, w.c, w.lanes)
      invariant State(w, searched, done', pending.trees, best[..]) && best[K - 1].dist <= old(best[K - 1].dist)
      decreases pending.len
    {
      var next;
      ghost var t;
      next, t := pending.Pop(ix, w.c, w.lanes);
      if next.None? { return; }
      done' := ReplayOne(ix, q, next.value, best, pending, w, searched, done', t);
    }
  }

  // ----- one partition -----

  /** Partition `i` with its lower bound, ready to be searched. */
  ghost predicate PartitionReady(w: World, i: nat, bound: int)
    requires ValidPredicates(w.c.scheme.predicates)
  {
    i < |w.ix.partitions| && i < |w.trees| &&
    var p := w.ix.partitions[i];
    && SubtreeOk(w.ix, w.c, w.lanes, p.root, bound, p.key, w.trees[i])
    && multiset(Ids(w.trees[i])) == Owned(w.c.refs, w.c.scheme, {p.key})
  }

  lemma PartitionSubtree(w: World, i: nat)
    requires WorldOk(w) && i < |w.ix.partitions|
    ensures PartitionReady(w, i, LowerBoundBox(w.c.q, w.ix.partitions[i].lo, w.ix.partitions[i].hi))
  {
    var p, t := w.ix.partitions[i], w.trees[i];
    assert PartitionOk(w.ix, w.c.refs, w.lanes, p, t);
    PartitionAbove(w.ix, w.c, w.lanes, p, t);
  }

  lemma {:induction false} PartitionAbove(ix: Index, c: Ctx, lanes: seq<Lane>, p: Partition, t: Tree)
    requires Fits(c) && c.scheme == ix.scheme && PartitionOk(ix, c.refs, lanes, p, t)
    ensures Above(c, Ids(t), LowerBoundBox(c.q, p.lo, p.hi), p.key)
  {
    IdsNonEmpty(ix.nodes, LANES, lanes, c.refs, p.root, t);
    BoundAdmissible(c, Ids(t), p.lo, p.hi);
    forall x | x in Ids(t) ensures x < |c.refs| && KeyAt(c, x) == p.key {
      assert x in multiset(Ids(t));
    }
    AboveAll(c, Ids(t), LowerBoundBox(c.q, p.lo, p.hi), p.key);
  }

  /** Searching a partition and then replaying what it disturbed. */
  method SearchPartition(ix: Index, q: Vec, i: nat, bound: int, best: array<Slot>, pending: Pending, ghost w: World,
                         ghost searched: set<nat>, ghost done: multiset<nat>)
    returns (ghost done': multiset<nat>)
    requires Ground(w) && w.ix == ix && w.c.q == q && best.Length == K && PartitionReady(w, i, bound)
    requires ix.partitions[i].key !in searched
    requires best as object != pending.entries && pending.Uniform(ix, w.c, w.lanes)
    requires State(w, searched, done, pending.trees, best[..])
    modifies best, pending, pending.entries
    ensures pending.Uniform(ix, w.c, w.lanes) && Settled(pending, best[..])
    ensures State(w, searched + {ix.partitions[i].key}, done', pending.trees, best[..])
    ensures best[K - 1].dist <= old(best[K - 1].dist)
    ensures !pending.enabled && old(pending.trees) == [] ==>
              pending.trees == []
              && IsTopK(best[..], Real(old(best[..])) + Slots(w.c, Owned(w.c.refs, w.c.scheme, {ix.partitions[i].key})))
  {
    ghost var key, t, before := ix.partitions[i].key, w.trees[i], TreeIds(pending.trees);
    OwnedMore(w.c.refs, w.c.scheme, searched, key);
    assert done + multiset(Ids(t)) + before == Owned(w.c.refs, w.c.scheme, searched + {key});
    NotDoneIsNew(w, done, before, searched + {key}, Ids(t), best[..]);
    ghost var kept, deferred :=
      SearchFrom(ix, q, ix.partitions[i].root, bound, ix.partitions[i].key, best, pending, true, w, done, t);
    SplitIds(done, kept, deferred, before, multiset(Ids(t)));
    done' := ReplayPendingIfNeeded(ix, q, best, pending, w, searched + {key}, done + kept);
  }

  lemma SplitIds(done: multiset<nat>, kept: multiset<nat>, deferred: multiset<nat>, before: multiset<nat>,
                 ids: multiset<nat>)
    requires kept + deferred == ids
    ensures done + kept + (before + deferred) == done + ids + before
  {
  }

  // ----- the other partitions -----

  /** A partition still to be searched, with its lower bound. */
  datatype Bounded = Bounded(bound: int, idx: nat)

  predicate SortedByBound(s: seq<Bounded>) { forall i, j :: 0 <= i < j < |s| ==> s[i].bound <= s[j].bound }

  /** Sorted but for the element at `j`, which may belong further left. */
  ghost predicate AlmostSorted(s: seq<Bounded>, j: nat) {
    && (forall p, r :: 0 <= p < r < |s| && r != j ==> s[p].bound <= s[r].bound)
  }

  function Swapped(s: seq<Bounded>, j: nat): seq<Bounded>
    requires 0 < j < |s|
  {
    s[j - 1 := s[j]][j := s[j - 1]]
  }

  lemma SwapKeepsMultiset(s: seq<Bounded>, j: nat)
    requires 0 < j < |s|
    ensures multiset(Swapped(s, j)) == multiset(s)
  {
  }

  lemma SwapMovesGap(s: seq<Bounded>, j: nat)
    requires 0 < j < |s| && AlmostSorted(s, j) && s[j - 1].bound > s[j].bound
    ensures AlmostSorted(Swapped(s, j), j - 1)
  {
  }

  /** `sort_partition_entries`: insertion sort in place. Above 32 entries the source calls
      the library's sort, for which any sorted permutation would do. */
  method SortEntries(a: array<Bounded>, n: nat)
    requires n <= a.Length
    modifies a
    ensures multiset(a[..n]) == multiset(old(a[..n])) && SortedByBound(a[..n])
  {
    var i := 1;
    while i < n
      invariant n <= 1 || 1 <= i <= n
      invariant multiset(a[..n]) == multiset(old(a[..n])) && SortedByBound(a[..Min(i, n)])
    {
      SiftDown(a, n, i);
      i := i + 1;
    }
  }

  lemma StartsAlmostSorted(s: seq<Bounded>, i: nat)
    requires |s| == i + 1 && SortedByBound(s[..i])
    ensures AlmostSorted(s, i)
  {
    forall p, r | 0 <= p < r < |s| && r != i
      ensures s[p].bound <= s[r].bound
    {
      assert s[..i][p] == s[p] && s[..i][r] == s[r];
    }
  }

  lemma EndsSorted(s: seq<Bounded>, j: nat)
    requires j < |s| && AlmostSorted(s, j) && (j == 0 || s[j - 1].bound <= s[j].bound)
    ensures SortedByBound(s)
  {
    forall p, r | 0 <= p < r < |s| ensures s[p].bound <= s[r].bound {
      if r == j && p < j - 1 { assert s[p].bound <= s[j - 1].bound; }
    }
  }

  method SiftDown(a: array<Bounded>, n: nat, i: nat)
    requires 0 < i < n <= a.Length && SortedByBound(a[..i])
    modifies a
    ensures multiset(a[..n]) == multiset(old(a[..n])) && SortedByBound(a[..i + 1])
  {
    var j := i;
    assert a[..i + 1][..i] == a[..i];
    StartsAlmostSorted(a[..i + 1], i);
    while j > 0 && a[j - 1].bound > a[j].bound
      invariant 0 <= j <= i && AlmostSorted(a[..i + 1], j)
      invariant multiset(a[..n]) == multiset(old(a[..n]))
    {
      SwapMovesGap(a[..i + 1], j);
      SwapLeft(a, n, j, i);
      j := j - 1;
    }
    EndsSorted(a[..i + 1], j);
  }

  method SwapLeft(a: array<Bounded>, n: nat, j: nat, ghost i: nat)
    requires 0 < j <= i < n <= a.Length
    modifies a
    ensures multiset(a[..n]) == multiset(old(a[..n]))
    ensures a[..i + 1] == Swapped(old(a[..i + 1]), j)
  {
    SwapKeepsMultiset(a[..n], j);
    ghost var s, t := a[..n], a[..i + 1];
    a[j - 1], a[j] := a[j], a[j - 1];
    assert a[..n] == Swapped(s, j);
    assert a[..i + 1] == Swapped(t, j);
  }

  // ----- which partitions may be searched -----

  predicate Permitted(allowed: Option<set<nat>>, key: nat) { allowed.None? || key in allowed.value }

  /** The slots of every reference in a permitted partition. */
  ghost function AllSlots(c: Ctx, allowed: Option<set<nat>>): set<Slot>
    requires ValidPredicates(c.scheme.predicates)
  {
    set x: nat | x < |c.refs| && Permitted(allowed, KeyAt(c, x)) :: RefSlot(c, x)
  }

  /** The permitted references outside the partitions `keys` are at least `d` away. */
  ghost predicate FarOff(c: Ctx, allowed: Option<set<nat>>, keys: set<nat>, d: int)
    requires ValidPredicates(c.scheme.predicates)
  {
    forall x: nat :: x < |c.refs| && Permitted(allowed, KeyAt(c, x)) && KeyAt(c, x) !in keys ==>
      Dist(c.q, c.refs[x].vector) >= d
  }

  /** The candidate keys: those in use, and permitted when there is a restriction. */
  ghost predicate CandidateKeys(ix: Index, allowed: Option<set<nat>>, keys: seq<nat>)
    requires |ix.keyToPartition| == KEY_LOOKUP_SIZE
  {
    && Ascending(keys)
    && (forall i :: 0 <= i < |keys| ==> keys[i] < KEY_LOOKUP_SIZE)
    && (forall k: nat :: k < KEY_LOOKUP_SIZE ==> (k in keys <==> ix.keyToPartition[k] >= 0 && Permitted(allowed, k)))
  }

  /** `allowed_active_keys`. */
  method AllowedActiveKeys(ix: Index, allowed: set<nat>) returns (keys: seq<nat>)
    requires |ix.keyToPartition| == KEY_LOOKUP_SIZE
    ensures CandidateKeys(ix, Some(allowed), keys)
  {
    keys := [];
    var key := 0;
    while key < KEY_LOOKUP_SIZE
      invariant 0 <= key <= KEY_LOOKUP_SIZE && Ascending(keys)
      invariant forall i :: 0 <= i < |keys| ==> keys[i] < key
      invariant forall k: nat :: k < key ==> (k in keys <==> ix.keyToPartition[k] >= 0 && k in allowed)
    {
      if key in allowed && ix.keyToPartition[key] >= 0 {
        keys := keys + [key];
      }
      key := key + 1;
    }
  }

  /** No permitted partition but the query's own has a bound below `d`. */
  ghost predicate OthersFar(w: World, allowed: Option<set<nat>>, queryKey: nat, d: int) {
    forall i :: 0 <= i < |w.ix.partitions| ==>
      var p := w.ix.partitions[i];
      p.key != queryKey && Permitted(allowed, p.key) ==> LowerBoundBox(w.c.q, p.lo, p.hi) >= d
  }

  /** The partition an entry stands for, with its own lower bound. */
  ghost predicate EntryOk(w: World, allowed: Option<set<nat>>, queryKey: nat, e: Bounded)
    requires ValidPredicates(w.c.scheme.predicates)
  {
    && PartitionReady(w, e.idx, e.bound)
    && w.ix.partitions[e.idx].key != queryKey && Permitted(allowed, w.ix.partitions[e.idx].key)
  }

  ghost function EntryKeys(ix: Index, entries: seq<Bounded>): set<nat> {
    set e | e in entries && e.idx < |ix.partitions| :: ix.partitions[e.idx].key
  }

  /** What gathering leaves: distinct partitions, and everything else far off. */
  ghost predicate Gathered(w: World, allowed: Option<set<nat>>, queryKey: nat, entries: seq<Bounded>)
    requires ValidPredicates(w.c.scheme.predicates)
  {
    && (forall i :: 0 <= i < |entries| ==> EntryOk(w, allowed, queryKey, entries[i]))
    && (forall i, j :: 0 <= i < j < |entries| ==> entries[i].idx != entries[j].idx)
  }

  /** Every reference of a ready partition is at least the bound away. */
  lemma ReadyBound(w: World, i: nat, bound: int, x: nat)
    requires WorldOk(w) && PartitionReady(w, i, bound) && x < |w.c.refs| && KeyAt(w.c, x) == w.ix.partitions[i].key
    ensures Dist(w.c.q, w.c.refs[x].vector) >= bound
  {
    assert x in Owned(w.c.refs, w.c.scheme, {w.ix.partitions[i].key});
    assert x in multiset(Ids(w.trees[i]));
    AboveAt(w.c, Ids(w.trees[i]), bound, w.ix.partitions[i].key, x);
  }

  /** A candidate key is the query's own, gathered, or too far. */
  ghost predicate KeyHandled(w: World, queryKey: nat, key: nat, entries: seq<Bounded>, last: int)
    requires ValidPredicates(w.c.scheme.predicates)
  {
    || key == queryKey || key in EntryKeys(w.ix, entries)
    || exists i: nat, bound :: PartitionReady(w, i, bound) && w.ix.partitions[i].key == key && bound >= last
  }

  lemma HandledFar(w: World, queryKey: nat, entries: seq<Bounded>, last: int, x: nat)
    requires WorldOk(w) && x < |w.c.refs| && KeyHandled(w, queryKey, KeyAt(w.c, x), entries, last)
    requires KeyAt(w.c, x) !in {queryKey} + EntryKeys(w.ix, entries)
    ensures Dist(w.c.q, w.c.refs[x].vector) >= last
  {
    var i: nat, bound :| PartitionReady(w, i, bound) && w.ix.partitions[i].key == KeyAt(w.c, x) && bound >= last;
    ReadyBound(w, i, bound, x);
  }

  /** The gathering loop after the candidates `keys[..i]`. */
  ghost predicate GatheredTo(w: World, allowed: Option<set<nat>>, queryKey: nat, keys: seq<nat>, i: nat,
                             entries: seq<Bounded>, last: int)
    requires ValidPredicates(w.c.scheme.predicates) && i <= |keys|
  {
    && |entries| <= i && Gathered(w, allowed, queryKey, entries)
    && (forall j :: 0 <= j < |entries| ==> w.ix.partitions[entries[j].idx].key in keys[..i])
    && (forall j :: 0 <= j < i ==> KeyHandled(w, queryKey, keys[j], entries, last))
  }

  /** The partition of a candidate key. */
  lemma CandidatePartition(w: World, allowed: Option<set<nat>>, keys: seq<nat>, i: nat)
    requires WorldOk(w) && CandidateKeys(w.ix, allowed, keys) && i < |keys|
    ensures 0 <= w.ix.keyToPartition[keys[i]] < |w.ix.partitions|
    ensures var p := w.ix.keyToPartition[keys[i]];
            && w.ix.partitions[p].key == keys[i] && Permitted(allowed, keys[i])
            && PartitionReady(w, p, LowerBoundBox(w.c.q, w.ix.partitions[p].lo, w.ix.partitions[p].hi))
  {
    assert keys[i] in keys;
    PartitionSubtree(w, w.ix.keyToPartition[keys[i]]);
  }

  lemma GatherSkip(w: World, allowed: Option<set<nat>>, queryKey: nat, keys: seq<nat>, i: nat, entries: seq<Bounded>,
                   last: int)
    requires ValidPredicates(w.c.scheme.predicates) && i < |keys|
    requires GatheredTo(w, allowed, queryKey, keys, i, entries, last) && KeyHandled(w, queryKey, keys[i], entries, last)
    ensures GatheredTo(w, allowed, queryKey, keys, i + 1, entries, last)
  {
    assert keys[..i + 1] == keys[..i] + [keys[i]];
  }

  lemma GatherPush(w: World, allowed: Option<set<nat>>, queryKey: nat, keys: seq<nat>, i: nat, entries: seq<Bounded>,
                   last: int, e: Bounded)
    requires ValidPredicates(w.c.scheme.predicates) && i < |keys| && Ascending(keys)
    requires GatheredTo(w, allowed, queryKey, keys, i, entries, last)
    requires EntryOk(w, allowed, queryKey, e) && w.ix.partitions[e.idx].key == keys[i]
    ensures GatheredTo(w, allowed, queryKey, keys, i + 1, entries + [e], last)
  {
    var more := entries + [e];
    assert keys[..i + 1] == keys[..i] + [keys[i]];
    NewEntry(w, allowed, queryKey, keys, i, entries, e);
    MoreHandled(w, queryKey, keys, i, entries, last, e);
    forall j | 0 <= j < |more| ensures w.ix.partitions[more[j].idx].key in keys[..i + 1] {
      assert j < |entries| ==> w.ix.partitions[entries[j].idx].key in keys[..i];
    }
  }

  lemma NewEntry(w: World, allowed: Option<set<nat>>, queryKey: nat, keys: seq<nat>, i: nat, entries: seq<Bounded>,
                 e: Bounded)
    requires ValidPredicates(w.c.scheme.predicates) && i < |keys| && Ascending(keys)
    requires Gathered(w, allowed, queryKey, entries)
    requires forall j :: 0 <= j < |entries| ==> w.ix.partitions[entries[j].idx].key in keys[..i]
    requires EntryOk(w, allowed, queryKey, e) && w.ix.partitions[e.idx].key == keys[i]
    ensures Gathered(w, allowed, queryKey, entries + [e])
  {
    forall j | 0 <= j < |entries| ensures entries[j].idx != e.idx {
      assert w.ix.partitions[entries[j].idx].key in keys[..i];
    }
  }

  lemma MoreHandled(w: World, queryKey: nat, keys: seq<nat>, i: nat, entries: seq<Bounded>, last: int, e: Bounded)
    requires ValidPredicates(w.c.scheme.predicates) && i < |keys| && e.idx < |w.ix.partitions|
    requires w.ix.partitions[e.idx].key == keys[i]
    requires forall j :: 0 <= j < i ==> KeyHandled(w, queryKey, keys[j], entries, last)
    ensures forall j :: 0 <= j <= i ==> KeyHandled(w, queryKey, keys[j], entries + [e], last)
  {
    var more := entries + [e];
    assert EntryKeys(w.ix, entries) <= EntryKeys(w.ix, more);
    assert e in more && keys[i] in EntryKeys(w.ix, more);
  }

  lemma GatherDone(w: World, allowed: Option<set<nat>>, queryKey: nat, keys: seq<nat>, entries: seq<Bounded>, last: int)
    requires WorldOk(w) && CandidateKeys(w.ix, allowed, keys)
    requires GatheredTo(w, allowed, queryKey, keys, |keys|, entries, last)
    ensures FarOff(w.c, allowed, {queryKey} + EntryKeys(w.ix, entries), last)
  {
    forall x: nat | x < |w.c.refs| && Permitted(allowed, KeyAt(w.c, x))
      && KeyAt(w.c, x) !in {queryKey} + EntryKeys(w.ix, entries)
      ensures Dist(w.c.q, w.c.refs[x].vector) >= last
    {
      assert KeyAt(w.c, x) in keys;
      HandledFar(w, queryKey, entries, last, x);
    }
  }

  /** One candidate: computed, and kept if its bound is below the last distance. */
  method GatherOne(ix: Index, q: Vec, keys: seq<nat>, i: nat, queryKey: nat, last: int, entries: array<Bounded>, n: nat,
                   ghost w: World, ghost allowed: Option<set<nat>>)
    returns (n': nat)
    requires WorldOk(w) && w.ix == ix && w.c.q == q && CandidateKeys(ix, allowed, keys)
    requires n <= i < |keys| && i < entries.Length && GatheredTo(w, allowed, queryKey, keys, i, entries[..n], last)
    modifies entries
    ensures n' <= i + 1 && GatheredTo(w, allowed, queryKey, keys, i + 1, entries[..n'], last)
    ensures OthersFar(w, allowed, queryKey, last) ==> n' == n
  {
    var key := keys[i];
    CandidatePartition(w, allowed, keys, i);
    var idx := ix.keyToPartition[key];
    var bound := LowerBoundBox(q, ix.partitions[idx].lo, ix.partitions[idx].hi);
    if key != queryKey && bound < last {
      GatherPush(w, allowed, queryKey, keys, i, entries[..n], last, Bounded(bound, idx));
      TakeUpdated(entries[..], n, Bounded(bound, idx));
      entries[n] := Bounded(bound, idx);
      n' := n + 1;
    } else {
      GatherSkip(w, allowed, queryKey, keys, i, entries[..n], last);
      n' := n;
    }
  }

  /** The gathering loop: the partitions whose lower bound is below the last distance. */
  method Gather(ix: Index, q: Vec, keys: seq<nat>, queryKey: nat, last: int, ghost w: World,
                ghost allowed: Option<set<nat>>)
    returns (entries: array<Bounded>, n: nat)
    requires WorldOk(w) && w.ix == ix && w.c.q == q && CandidateKeys(ix, allowed, keys)
    ensures fresh(entries) && n <= entries.Length
    ensures Gathered(w, allowed, queryKey, entries[..n])
    ensures FarOff(w.c, allowed, {queryKey} + EntryKeys(ix, entries[..n]), last)
    ensures OthersFar(w, allowed, queryKey, last) ==> n == 0
  {
    AscendingCount(keys, KEY_LOOKUP_SIZE);
    entries := new Bounded[KEY_LOOKUP_SIZE](_ => Bounded(0, 0));
    n := 0;
    assert entries[..0] == [];
    var i := 0;
    while i < |keys|
      invariant 0 <= i <= |keys| && n <= i && GatheredTo(w, allowed, queryKey, keys, i, entries[..n], last)
      invariant OthersFar(w, allowed, queryKey, last) ==> n == 0
    {
      n := GatherOne(ix, q, keys, i, queryKey, last, entries, n, w, allowed);
      i := i + 1;
    }
    GatherDone(w, allowed, queryKey, keys, entries[..n], last);
  }

  lemma SameGathered(w: World, allowed: Option<set<nat>>, queryKey: nat, a: seq<Bounded>, b: seq<Bounded>)
    requires ValidPredicates(w.c.scheme.predicates)
    requires Gathered(w, allowed, queryKey, a) && multiset(a) == multiset(b)
    ensures Gathered(w, allowed, queryKey, b) && EntryKeys(w.ix, b) == EntryKeys(w.ix, a)
  {
    SameMembers(a, b);
    forall i | 0 <= i < |b| ensures EntryOk(w, allowed, queryKey, b[i]) {
      assert b[i] in a;
    }
    forall i, j | 0 <= i < j < |b| ensures b[i].idx != b[j].idx {
      var p, r := TwoApart(a, b, i, j);
    }
  }

  lemma TwoIn(s: seq<Bounded>, i: nat, j: nat)
    requires i < j < |s|
    ensures multiset{s[i]} + multiset{s[j]} <= multiset(s)
  {
    assert s == s[..j] + s[j..] && s[j..] == [s[j]] + s[j + 1..];
    assert s[i] in s[..j];
  }

  lemma {:induction false} TwoAt(s: seq<Bounded>, x: Bounded, y: Bounded) returns (p: nat, r: nat)
    requires multiset{x} + multiset{y} <= multiset(s)
    ensures p < |s| && r < |s| && p != r && s[p] == x && s[r] == y
  {
    var n := |s| - 1;
    assert s != [] by { assert x in multiset(s); }
    assert s == s[..n] + [s[n]];
    if s[n] == y {
      assert x in multiset(s[..n]);
      p, r :| 0 <= p < n && s[p] == x && r == n;
    } else if s[n] == x {
      assert multiset(s)[y] >= 1 && y in multiset(s[..n]);
      r, p :| 0 <= r < n && s[r] == y && p == n;
    } else {
      p, r := TwoAt(s[..n], x, y);
    }
  }

  /** Two positions of a permutation come from two positions. */
  lemma TwoApart(a: seq<Bounded>, b: seq<Bounded>, i: nat, j: nat) returns (p: nat, r: nat)
    requires multiset(a) == multiset(b) && i < j < |b|
    ensures p < |a| && r < |a| && p != r && a[p] == b[i] && a[r] == b[j]
  {
    TwoIn(b, i, j);
    p, r := TwoAt(a, b[i], b[j]);
  }

  // ----- the whole search -----

  /** Between two partitions: the home partition and `entries[..i]` have been searched. */
  ghost predicate Progress(w: World, allowed: Option<set<nat>>, home: set<nat>, entries: seq<Bounded>, i: nat,
                           done: multiset<nat>, pending: seq<Tree>, b: seq<Slot>)
    requires ValidPredicates(w.c.scheme.predicates) && i <= |entries|
  {
    && State(w, home + EntryKeys(w.ix, entries[..i]), done, pending, b)
    && FarOff(w.c, allowed, home + EntryKeys(w.ix, entries), b[K - 1].dist)
  }

  lemma EntryKeysMore(ix: Index, entries: seq<Bounded>, i: nat)
    requires i < |entries| && entries[i].idx < |ix.partitions|
    ensures EntryKeys(ix, entries[..i + 1]) == EntryKeys(ix, entries[..i]) + {ix.partitions[entries[i].idx].key}
  {
    assert entries[..i + 1] == entries[..i] + [entries[i]];
  }

  /** Different partitions have different keys. */
  lemma KeysDiffer(ix: Index, i: nat, j: nat)
    requires LookupOk(ix) && i < |ix.partitions| && j < |ix.partitions| && i != j
    ensures ix.partitions[i].key != ix.partitions[j].key
  {
  }

  lemma NewKey(ix: Index, entries: seq<Bounded>, i: nat)
    requires LookupOk(ix) && i < |entries| && entries[i].idx < |ix.partitions|
    requires forall j :: 0 <= j < i ==> entries[j].idx != entries[i].idx
    ensures ix.partitions[entries[i].idx].key !in EntryKeys(ix, entries[..i])
  {
    forall e | e in entries[..i] && e.idx < |ix.partitions|
      ensures ix.partitions[e.idx].key != ix.partitions[entries[i].idx].key
    {
      var j :| 0 <= j < i && entries[j] == e;
      KeysDiffer(ix, e.idx, entries[i].idx);
    }
  }

  lemma NextEntry(w: World, allowed: Option<set<nat>>, queryKey: nat, home: set<nat>, entries: seq<Bounded>, i: nat)
    requires WorldOk(w) && Gathered(w, allowed, queryKey, entries) && i < |entries| && home <= {queryKey}
    ensures PartitionReady(w, entries[i].idx, entries[i].bound)
    ensures w.ix.partitions[entries[i].idx].key !in home + EntryKeys(w.ix, entries[..i])
    ensures EntryKeys(w.ix, entries[..i + 1]) == EntryKeys(w.ix, entries[..i]) + {w.ix.partitions[entries[i].idx].key}
  {
    assert EntryOk(w, allowed, queryKey, entries[i]);
    EntryKeysMore(w.ix, entries, i);
    NewKey(w.ix, entries, i);
  }

  lemma Nearer(c: Ctx, allowed: Option<set<nat>>, keys: set<nat>, d: int, d': int)
    requires ValidPredicates(c.scheme.predicates) && FarOff(c, allowed, keys, d) && d' <= d
    ensures FarOff(c, allowed, keys, d')
  {
  }

  /** The entries that were not searched are too far, because the bounds ascend. */
  lemma RestTooFar(w: World, allowed: Option<set<nat>>, queryKey: nat, home: set<nat>, entries: seq<Bounded>, i: nat,
                   d: int)
    requires WorldOk(w) && Gathered(w, allowed, queryKey, entries) && SortedByBound(entries) && i <= |entries|
    requires i < |entries| ==> entries[i].bound >= d
    requires FarOff(w.c, allowed, home + EntryKeys(w.ix, entries), d)
    ensures FarOff(w.c, allowed, home + EntryKeys(w.ix, entries[..i]), d)
  {
    forall x: nat | x < |w.c.refs| && Permitted(allowed, KeyAt(w.c, x))
      && KeyAt(w.c, x) !in home + EntryKeys(w.ix, entries[..i])
      ensures Dist(w.c.q, w.c.refs[x].vector) >= d
    {
      if KeyAt(w.c, x) in EntryKeys(w.ix, entries) { EntryTooFar(w, allowed, queryKey, entries, i, d, x); }
    }
  }

  lemma EntryTooFar(w: World, allowed: Option<set<nat>>, queryKey: nat, entries: seq<Bounded>, i: nat, d: int, x: nat)
    requires WorldOk(w) && Gathered(w, allowed, queryKey, entries) && SortedByBound(entries) && i <= |entries|
    requires i < |entries| ==> entries[i].bound >= d
    requires x < |w.c.refs| && KeyAt(w.c, x) in EntryKeys(w.ix, entries)
    requires KeyAt(w.c, x) !in EntryKeys(w.ix, entries[..i])
    ensures Dist(w.c.q, w.c.refs[x].vector) >= d
  {
    var e :| e in entries && e.idx < |w.ix.partitions| && w.ix.partitions[e.idx].key == KeyAt(w.c, x);
    var j :| 0 <= j < |entries| && entries[j] == e;
    InPrefix(w.ix, entries, i, j);
    FarEntry(w, allowed, queryKey, entries, j, x);
  }

  lemma InPrefix(ix: Index, entries: seq<Bounded>, i: nat, j: nat)
    requires j < |entries| && i <= |entries| && entries[j].idx < |ix.partitions|
    ensures j < i ==> ix.partitions[entries[j].idx].key in EntryKeys(ix, entries[..i])
  {
    if j < i { assert entries[..i][j] == entries[j] && entries[j] in entries[..i]; }
  }

  lemma FarEntry(w: World, allowed: Option<set<nat>>, queryKey: nat, entries: seq<Bounded>, j: nat, x: nat)
    requires WorldOk(w) && Gathered(w, allowed, queryKey, entries) && j < |entries|
    requires entries[j].idx < |w.ix.partitions|
    requires x < |w.c.refs| && w.ix.partitions[entries[j].idx].key == KeyAt(w.c, x)
    ensures entries[j].bound <= Dist(w.c.q, w.c.refs[x].vector)
  {
    assert EntryOk(w, allowed, queryKey, entries[j]);
    ReadyBound(w, entries[j].idx, entries[j].bound, x);
  }

  // ----- what the slots at the end mean -----

  lemma {:induction false} SameLabels(b: seq<Slot>, l: nat)
    requires l <= 1 && forall i :: 0 <= i < |b| ==> b[i].lbl <= 1
    ensures LabelSum(b) == |b| * l <==> forall i :: 0 <= i < |b| ==> b[i].lbl == l
    ensures LabelSum(b) <= |b|
  {
    if b != [] { SameLabels(b[..|b| - 1], l); }
  }

  lemma {:induction false} PendingLabels(c: Ctx, trees: seq<Tree>, l: nat, x: nat)
    requires forall i :: 0 <= i < |trees| ==> OnlyLabel(c, Ids(trees[i]), l)
    requires x in TreeIds(trees)
    ensures x < |c.refs| && c.refs[x].lbl == l
  {
    var n := |trees| - 1;
    if x in multiset(Ids(trees[n])) {
      OnlyLabelAt(c, Ids(trees[n]), l, x);
    } else {
      PendingLabels(c, trees[..n], l, x);
    }
  }

  /** Everything permitted is offered or too far. */
  lemma AddTooFar(w: World, allowed: Option<set<nat>>, searched: set<nat>, all: multiset<nat>, b: seq<Slot>)
    requires Fits(w.c) && all == Owned(w.c.refs, w.c.scheme, searched) && IsKNearest(b, Slots(w.c, all))
    requires FarOff(w.c, allowed, searched, b[K - 1].dist) && forall k :: k in searched ==> Permitted(allowed, k)
    ensures IsKNearest(b, AllSlots(w.c, allowed))
  {
    forall s | s in AllSlots(w.c, allowed) ensures s in Slots(w.c, all) || s.dist >= b[K - 1].dist {
      var x: nat :| x < |w.c.refs| && Permitted(allowed, KeyAt(w.c, x)) && s == RefSlot(w.c, x);
      if KeyAt(w.c, x) in searched { assert x in all; }
    }
    forall s | s in Slots(w.c, all) ensures s in AllSlots(w.c, allowed) {
      var x: nat :| x in all && x < |w.c.refs| && s == RefSlot(w.c, x);
      assert Permitted(allowed, KeyAt(w.c, x));
    }
  }

  lemma {:induction false} ConsensusMeans(c: Ctx, done: multiset<nat>, b: seq<Slot>, l: nat)
    requires Fits(c) && Holds(b, Slots(c, done)) && ConsensusLabel(b) == Some(l)
    ensures l <= 1 && b[K - 1].dist < I64_MAX && LabelSum(b) == K * l
    ensures forall i :: 0 <= i < K ==> b[i] != EMPTY && b[i].lbl == l
  {
    SlotsAreCandidates(c, done);
    assert forall i :: 0 <= i < K ==> b[i].lbl <= 1;
    SameLabels(b, l);
    assert forall i :: 0 <= i < K - 1 ==> !Before(b[K - 1], b[i]);
  }

  /** The top K of K agreeing slots and more references with the same label. */
  lemma {:induction false} AgreeingTop(all: set<Slot>, b: seq<Slot>, answer: seq<Slot>, l: nat)
    requires Candidates(all) && IsTopK(answer, all) && Holds(b, all) && b[K - 1].dist < I64_MAX && l <= 1
    requires forall s :: s in all ==> s.lbl == l
    ensures LabelSum(answer) == K * l
  {
    Pointwise(answer, all, b, K - 1, true);
    forall i | 0 <= i < K ensures answer[i].lbl == l {
      assert !Before(answer[K - 1], answer[i]) || i == K - 1;
      assert answer[i] != EMPTY;
    }
    SameLabels(answer, l);
  }

  /** With all labels agreeing, the pending references change nothing about the count. */
  lemma PendingHarmless(w: World, done: multiset<nat>, rest: multiset<nat>, b: seq<Slot>, l: nat)
    returns (answer: seq<Slot>)
    requires Fits(w.c) && IsKNearest(b, Slots(w.c, done)) && ConsensusLabel(b) == Some(l)
    requires forall x :: x in rest ==> x < |w.c.refs| && w.c.refs[x].lbl == l
    ensures IsKNearest(answer, Slots(w.c, done + rest)) && LabelSum(answer) == LabelSum(b)
    ensures answer[K - 1].dist <= b[K - 1].dist
  {
    ConsensusMeans(w.c, done, b, l);
    var all := Real(b) + Slots(w.c, rest);
    CandidatesOfBoth(w.c, done, rest, b);
    answer := TopKExists(all);
    AfterSearch(w, done, b, rest, answer);
    AgreeingTop(all, b, answer, l);
  }

  lemma CandidatesOfBoth(c: Ctx, done: multiset<nat>, rest: multiset<nat>, b: seq<Slot>)
    requires Fits(c) && Holds(b, Slots(c, done))
    ensures Candidates(Real(b) + Slots(c, rest))
  {
    SlotsSum(c, done, rest);
    SlotsAreCandidates(c, done + rest);
    assert Real(b) + Slots(c, rest) <= Slots(c, done + rest);
  }

  /** The count at the end is that of a valid K-nearest set of the permitted references;
      with nothing pending the slots themselves are that set. */
  lemma Conclude(w: World, allowed: Option<set<nat>>, searched: set<nat>, done: multiset<nat>, pending: seq<Tree>,
                 lbl: Option<nat>, b: seq<Slot>) returns (answer: seq<Slot>)
    requires Fits(w.c) && State(w, searched, done, pending, b)
    requires FarOff(w.c, allowed, searched, b[K - 1].dist) && forall k :: k in searched ==> Permitted(allowed, k)
    requires pending != [] ==>
               lbl.Some? && ConsensusLabel(b) == lbl
               && forall i :: 0 <= i < |pending| ==> OnlyLabel(w.c, Ids(pending[i]), lbl.value)
    ensures IsKNearest(answer, AllSlots(w.c, allowed)) && LabelSum(answer) == LabelSum(b)
    ensures pending == [] ==> answer == b
  {
    if pending == [] {
      answer := b;
      assert done == Owned(w.c.refs, w.c.scheme, searched);
    } else {
      forall x | x in TreeIds(pending) ensures x < |w.c.refs| && w.c.refs[x].lbl == lbl.value {
        PendingLabels(w.c, pending, lbl.value, x);
      }
      answer := PendingHarmless(w, done, TreeIds(pending), b, lbl.value);
      Nearer(w.c, allowed, searched, b[K - 1].dist, answer[K - 1].dist);
    }
    AddTooFar(w, allowed, searched, done + TreeIds(pending), answer);
  }

  /** Whatever has been searched, the slots hold distinct permitted references. */
  lemma SlotsPermitted(w: World, allowed: Option<set<nat>>, searched: set<nat>, done: multiset<nat>, pending: seq<Tree>,
                       b: seq<Slot>)
    requires Fits(w.c) && State(w, searched, done, pending, b) && forall k :: k in searched ==> Permitted(allowed, k)
    ensures Holds(b, AllSlots(w.c, allowed))
  {
    forall s | s in Slots(w.c, done) ensures s in AllSlots(w.c, allowed) {
      var x: nat :| x in done && x < |w.c.refs| && s == RefSlot(w.c, x);
      assert x in done + TreeIds(pending);
      assert x in Owned(w.c.refs, w.c.scheme, searched);
    }
  }

  // ----- the search -----

  /** Looking a key up finds its partition, or there is no reference with that key. */
  ghost predicate LookupFinds(w: World, key: nat)
    requires ValidPredicates(w.c.scheme.predicates)
  {
    key < |w.ix.keyToPartition| &&
    var i := w.ix.keyToPartition[key];
    if i >= 0 then
      i < |w.ix.partitions| && w.ix.partitions[i].key == key
      && PartitionReady(w, i, LowerBoundBox(w.c.q, w.ix.partitions[i].lo, w.ix.partitions[i].hi))
    else
      Owned(w.c.refs, w.c.scheme, {key}) == multiset{}
  }

  lemma HomeLookup(w: World, key: nat)
    requires WorldOk(w) && key < KEY_LOOKUP_SIZE
    ensures LookupFinds(w, key)
  {
    var i := w.ix.keyToPartition[key];
    if i >= 0 {
      PartitionSubtree(w, i);
    } else {
      assert (set x: nat | x < |w.c.refs| && TreeKey(w.c.refs[x].vector, w.c.scheme) in {key}) == {};
    }
  }

  lemma EmptyState(w: World, home: set<nat>)
    requires ValidPredicates(w.c.scheme.predicates) && (home == {} || Owned(w.c.refs, w.c.scheme, home) == multiset{})
    ensures State(w, home, multiset{}, [], NOTHING) && IsTopK(NOTHING, Slots(w.c, Owned(w.c.refs, w.c.scheme, home)))
  {
    assert home == {} ==> (set x: nat | x < |w.c.refs| && TreeKey(w.c.refs[x].vector, w.c.scheme) in home) == {};
    assert Slots(w.c, multiset{}) == {};
    TopKOfNothing();
    TopKIsKNearest(NOTHING, {});
  }

  /** The home partition: searched if it exists and is permitted. */
  method SearchHome(ix: Index, q: Vec, allowed: Option<set<nat>>, key: nat, best: array<Slot>, pending: Pending,
                    ghost w: World)
    returns (ghost done: multiset<nat>)
    requires Ground(w) && w.ix == ix && w.c.q == q && LookupFinds(w, key)
    requires best.Length == K && best[..] == NOTHING && best as object != pending.entries
    requires pending.Uniform(ix, w.c, w.lanes) && pending.trees == []
    modifies best, pending, pending.entries
    ensures pending.Uniform(ix, w.c, w.lanes) && Settled(pending, best[..])
    ensures State(w, Home(allowed, key), done, pending.trees, best[..])
    ensures !pending.enabled ==> pending.trees == [] && IsTopK(best[..], HomeSlots(w.c, allowed, key))
  {
    done := multiset{};
    var i := ix.keyToPartition[key];
    if i >= 0 && Permitted(allowed, ix.partitions[i].key) {
      EmptyState(w, {});
      ghost var none: set<nat> := {};
      assert none + {key} == Home(allowed, key);
      var bound := LowerBoundBox(q, ix.partitions[i].lo, ix.partitions[i].hi);
      done := SearchPartition(ix, q, i, bound, best, pending, w, none, done);
    } else {
      EmptyState(w, Home(allowed, key));
    }
  }

  /** The slots of the references that share the query's partition. */
  ghost function HomeSlots(c: Ctx, allowed: Option<set<nat>>, key: nat): set<Slot>
    requires ValidPredicates(c.scheme.predicates)
  {
    Slots(c, Owned(c.refs, c.scheme, Home(allowed, key)))
  }

  /** The query's own key, if it may be searched. */
  function Home(allowed: Option<set<nat>>, key: nat): set<nat> { if Permitted(allowed, key) then {key} else {} }

  lemma OneMoreSearched(w: World, home: set<nat>, entries: seq<Bounded>, i: nat, key: nat)
    requires i < |entries| && EntryKeys(w.ix, entries[..i + 1]) == EntryKeys(w.ix, entries[..i]) + {key}
    ensures home + EntryKeys(w.ix, entries[..i]) + {key} == home + EntryKeys(w.ix, entries[..i + 1])
  {
  }

  /** The predicates that use this unfold where it is asked and nowhere else. */
  predicate Asked(x: int) { true }

  /** The entries are the gathered partitions of this world. */
  ghost predicate GatheredAll(w: World, allowed: Option<set<nat>>, queryKey: nat, home: set<nat>, entries: seq<Bounded>)
  {
    forall x :: Asked(x) ==> WorldOk(w) && home <= {queryKey} && Gathered(w, allowed, queryKey, entries)
  }

  /** The search stands before entry `i`. */
  ghost predicate Stands(w: World, allowed: Option<set<nat>>, home: set<nat>, entries: seq<Bounded>, i: nat,
                         done: multiset<nat>, pending: Pending, best: array<Slot>)
    reads pending, pending.entries, best
  {
    forall x :: Asked(x) ==>
      && best.Length == K && i <= |entries| && ValidPredicates(w.c.scheme.predicates)
      && pending.Uniform(w.ix, w.c, w.lanes) && Settled(pending, best[..])
      && Progress(w, allowed, home, entries, i, done, pending.trees, best[..])
  }

  /** One of the other partitions. */
  method SearchEntry(ix: Index, q: Vec, e: Bounded, best: array<Slot>, pending: Pending, ghost w: World,
                     ghost allowed: Option<set<nat>>, ghost queryKey: nat, ghost home: set<nat>,
                     ghost entries: seq<Bounded>, ghost i: nat, ghost done: multiset<nat>)
    returns (ghost done': multiset<nat>)
    requires w.ix == ix && w.c.q == q && GatheredAll(w, allowed, queryKey, home, entries)
    requires best.Length == K && best as object != pending.entries && i < |entries| && entries[i] == e
    requires Stands(w, allowed, home, entries, i, done, pending, best)
    modifies best, pending, pending.entries
    ensures Stands(w, allowed, home, entries, i + 1, done', pending, best)
    ensures !pending.enabled && old(pending.trees) == [] ==> pending.trees == []
  {
    assert Asked(0);
    NextEntry(w, allowed, queryKey, home, entries, i);
    ghost var before := best[K - 1].dist;
    done' := SearchPartition(ix, q, e.idx, e.bound, best, pending, w, home + EntryKeys(ix, entries[..i]), done);
    Nearer(w.c, allowed, home + EntryKeys(ix, entries), before, best[K - 1].dist);
    OneMoreSearched(w, home, entries, i, ix.partitions[e.idx].key);
  }

  /** The loop over the other partitions, nearest bound first: how many are searched, and why no more. */
  method SearchEntries(ix: Index, q: Vec, earlyExit: int, entries: array<Bounded>, n: nat, best: array<Slot>,
                       pending: Pending, ghost w: World, ghost allowed: Option<set<nat>>, ghost queryKey: nat,
                       ghost home: set<nat>, ghost es: seq<Bounded>, ghost done: multiset<nat>)
    returns (i: nat, ghost done': multiset<nat>)
    requires w.ix == ix && w.c.q == q && GatheredAll(w, allowed, queryKey, home, es)
    requires n <= entries.Length && es == entries[..n]
    requires best.Length == K && best as object != pending.entries && entries as object != best
    requires entries as object != pending.entries && Stands(w, allowed, home, es, 0, done, pending, best)
    modifies best, pending, pending.entries
    ensures i <= |es| && Stands(w, allowed, home, es, i, done', pending, best)
    ensures i == |es| || es[i].bound >= best[K - 1].dist || (earlyExit > 0 && best[K - 1].dist < earlyExit)
    ensures !pending.enabled && old(pending.trees) == [] ==> pending.trees == []
    ensures n == 0 ==> best[..] == old(best[..])
  {
    done' := done;
    i := 0;
    while i < n
      invariant 0 <= i <= n && entries[..n] == es
      invariant Stands(w, allowed, home, es, i, done', pending, best)
      invariant !pending.enabled && old(pending.trees) == [] ==> pending.trees == []
      invariant i == 0 ==> best[..] == old(best[..])
    {
      var e := entries[i];
      assert e == es[i];
      if e.bound >= best[K - 1].dist {
        break;
      }
      done' := SearchEntry(ix, q, e, best, pending, w, allowed, queryKey, home, es, i, done');
      i := i + 1;
      if earlyExit > 0 && best[K - 1].dist < earlyExit { return; }
    }
  }

  /** The other partitions, nearest bound first, until the bounds are too large. */
  method SearchOthers(ix: Index, q: Vec, earlyExit: int, entries: array<Bounded>, n: nat, best: array<Slot>,
                      pending: Pending, ghost w: World, ghost allowed: Option<set<nat>>, ghost queryKey: nat,
                      ghost home: set<nat>, ghost done: multiset<nat>)
    returns (ghost searched: set<nat>, ghost done': multiset<nat>)
    requires WorldOk(w) && w.ix == ix && w.c.q == q && n <= entries.Length && home <= {queryKey}
    requires Gathered(w, allowed, queryKey, entries[..n]) && SortedByBound(entries[..n])
    requires best.Length == K && best as object != pending.entries && entries as object != best
    requires entries as object != pending.entries
    requires pending.Uniform(ix, w.c, w.lanes) && Settled(pending, best[..])
    requires Progress(w, allowed, home, entries[..n], 0, done, pending.trees, best[..])
    modifies best, pending, pending.entries
    ensures pending.Uniform(ix, w.c, w.lanes) && Settled(pending, best[..])
    ensures State(w, searched, done', pending.trees, best[..]) && searched <= home + EntryKeys(ix, entries[..n])
    ensures (earlyExit > 0 && best[K - 1].dist < earlyExit) || FarOff(w.c, allowed, searched, best[K - 1].dist)
    ensures !pending.enabled && old(pending.trees) == [] ==> pending.trees == []
    ensures n == 0 ==> best[..] == old(best[..])
  {
    ghost var es := entries[..n];
    var i;
    assert GatheredAll(w, allowed, queryKey, home, es) && Stands(w, allowed, home, es, 0, done, pending, best);
    i, done' := SearchEntries(ix, q, earlyExit, entries, n, best, pending, w, allowed, queryKey, home, es, done);
    assert Asked(0);
    searched := home + EntryKeys(ix, es[..i]);
    if i == |es| || es[i].bound >= best[K - 1].dist {
      RestTooFar(w, allowed, queryKey, home, es, i, best[K - 1].dist);
    }
  }

  /** From the gathered entries to the whole complement of the home partition. */
  lemma StartOthers(w: World, allowed: Option<set<nat>>, queryKey: nat, entries: seq<Bounded>, done: multiset<nat>,
                    pending: seq<Tree>, b: seq<Slot>)
    requires Fits(w.c) && State(w, Home(allowed, queryKey), done, pending, b)
    requires FarOff(w.c, allowed, {queryKey} + EntryKeys(w.ix, entries), b[K - 1].dist)
    ensures Progress(w, allowed, Home(allowed, queryKey), entries, 0, done, pending, b)
  {
    assert EntryKeys(w.ix, entries[..0]) == {};
    assert Home(allowed, queryKey) + {} == Home(allowed, queryKey);
  }

  lemma EntriesPermitted(w: World, allowed: Option<set<nat>>, queryKey: nat, entries: seq<Bounded>, searched: set<nat>)
    requires ValidPredicates(w.c.scheme.predicates) && Gathered(w, allowed, queryKey, entries)
    requires searched <= Home(allowed, queryKey) + EntryKeys(w.ix, entries)
    ensures forall k :: k in searched ==> Permitted(allowed, k)
  {
    forall k | k in searched ensures Permitted(allowed, k) {
      if k in EntryKeys(w.ix, entries) {
        var e :| e in entries && e.idx < |w.ix.partitions| && w.ix.partitions[e.idx].key == k;
        var i :| 0 <= i < |entries| && entries[i] == e;
        assert EntryOk(w, allowed, queryKey, entries[i]);
      }
    }
  }

  /** What a search has to show for itself at the end. */
  ghost predicate Outcome(w: World, allowed: Option<set<nat>>, threshold: int, b: seq<Slot>, searched: set<nat>,
                          done: multiset<nat>, pending: seq<Tree>)
    requires ValidPredicates(w.c.scheme.predicates)
  {
    && State(w, searched, done, pending, b) && (forall k :: k in searched ==> Permitted(allowed, k))
    && ((allowed.None? && 0 < threshold && b[K - 1].dist < threshold) || FarOff(w.c, allowed, searched, b[K - 1].dist))
  }

  method CandidateKeysOf(ix: Index, allowed: Option<set<nat>>, ghost w: World) returns (keys: seq<nat>)
    requires WorldOk(w) && w.ix == ix
    ensures |ix.keyToPartition| == KEY_LOOKUP_SIZE && CandidateKeys(ix, allowed, keys)
  {
    keys := ix.activeKeys;
    if allowed.Some? {
      keys := AllowedActiveKeys(ix, allowed.value);
    }
  }

  method Others(ix: Index, q: Vec, allowed: Option<set<nat>>, queryKey: nat, threshold: int, best: array<Slot>,
                pending: Pending, ghost w: World, ghost done: multiset<nat>)
    returns (ghost searched: set<nat>, ghost done': multiset<nat>)
    requires WorldOk(w) && w.ix == ix && w.c.q == q && best.Length == K && best as object != pending.entries
    requires pending.Uniform(ix, w.c, w.lanes) && Settled(pending, best[..])
    requires State(w, Home(allowed, queryKey), done, pending.trees, best[..])
    modifies best, pending, pending.entries
    ensures pending.Uniform(ix, w.c, w.lanes) && Settled(pending, best[..])
    ensures Outcome(w, allowed, threshold, best[..], searched, done', pending.trees)
    ensures !pending.enabled && old(pending.trees) == [] ==> pending.trees == []
    ensures OthersFar(w, allowed, queryKey, old(best[K - 1].dist)) ==> best[..] == old(best[..])
  {
    var keys := CandidateKeysOf(ix, allowed, w);
    var entries, n := Gather(ix, q, keys, queryKey, best[K - 1].dist, w, allowed);
    ghost var gathered := entries[..n];
    SortEntries(entries, n);
    SameGathered(w, allowed, queryKey, gathered, entries[..n]);
    StartOthers(w, allowed, queryKey, entries[..n], done, pending.trees, best[..]);
    var earlyExit := if allowed.Some? then 0 else threshold;
    searched, done' :=
      SearchOthers(ix, q, earlyExit, entries, n, best, pending, w, allowed, queryKey, Home(allowed, queryKey), done);
    EntriesPermitted(w, allowed, queryKey, entries[..n], searched);
  }

  /** `predict_fraud_count`, and with a restriction or without deferral the inner search of
      its three variants. The returned arrays are the best slots at the end. */
  method Predict(ix: Index, q: Vec, allowed: Option<set<nat>>, labelDefer: bool, threshold: int, ghost w: World)
    returns (count: nat, best: array<Slot>, ghost answer: seq<Slot>, ghost home: seq<Slot>)
    requires WorldOk(w) && w.ix == ix && w.c.q == q
    ensures fresh(best) && best.Length == K && count == LabelSum(best[..]) && Holds(best[..], AllSlots(w.c, allowed))
    ensures (allowed.None? && 0 < threshold && best[K - 1].dist < threshold)
            || (IsKNearest(answer, AllSlots(w.c, allowed)) && LabelSum(answer) == count
                && (!labelDefer ==> answer == best[..]))
    ensures !labelDefer ==> IsTopK(home, HomeSlots(w.c, allowed, TreeKey(q, ix.scheme)))
    ensures |home| == K && (OthersFar(w, allowed, TreeKey(q, ix.scheme), home[K - 1].dist) ==> best[..] == home)
  {
    best := new Slot[K](_ => EMPTY);
    assert best[..] == NOTHING;
    var pending := new Pending(labelDefer);
    var queryKey := ComputeTreeKey(q, ix.scheme);
    var earlyExit := if allowed.Some? then 0 else threshold;
    ghost var searched := Home(allowed, queryKey);
    HomeLookup(w, queryKey);
    ghost var done := SearchHome(ix, q, allowed, queryKey, best, pending, w);
    if earlyExit > 0 && best[K - 1].dist < earlyExit {
      SlotsPermitted(w, allowed, searched, done, pending.trees, best[..]);
      return LabelSum(best[..]), best, best[..], best[..];
    }
    home := best[..];
    searched, done := Others(ix, q, allowed, queryKey, threshold, best, pending, w, done);
    SlotsPermitted(w, allowed, searched, done, pending.trees, best[..]);
    count := LabelSum(best[..]);
    if earlyExit > 0 && best[K - 1].dist < earlyExit {
      answer := best[..];
    } else {
      answer := Conclude(w, allowed, searched, done, pending.trees, pending.lbl, best[..]);
    }
  }
}
