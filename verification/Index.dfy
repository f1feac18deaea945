/**
 * The loaded index as the search sees it, and what makes it the index of a given list of
 * references: the trees that the node records encode, and which references each holds.
 */
module Index {
  import opened Base
  import opened Kernel
  import opened TopK
  import opened Routing
  import opened KdTree

  const TREE_STACK_CAPACITY := 128

  datatype Partition = Partition(key: nat, root: nat, len: nat, lo: Vec, hi: Vec)

  datatype Index = Index(partitions: seq<Partition>, nodes: seq<Node>, vectors: seq<int>, labels: seq<nat>,
                         refIndices: seq<nat>, keyToPartition: seq<int>, activeKeys: seq<nat>, scheme: Scheme)

  /** A query against a list of references. */
  datatype Ctx = Ctx(q: Vec, refs: seq<Reference>, scheme: Scheme)

  /** What the exactness results need: padding is zero and the distances fit 31 bits. Neither the
      loader of references nor the parsers see to the latter (Kernel.StrayedIsNearest). */
  ghost predicate Fits(c: Ctx) {
    && ValidPredicates(c.scheme.predicates) && Small(c.q) && PaddingZero(c.q) && |c.refs| <= I32_MAX
    && forall x :: 0 <= x < |c.refs| ==>
         && Small(c.refs[x].vector) && PaddingZero(c.refs[x].vector)
         && Dist(c.q, c.refs[x].vector) <= I32_MAX && c.refs[x].lbl <= 1
  }

  function KeyAt(c: Ctx, x: nat): nat
    requires ValidPredicates(c.scheme.predicates) && x < |c.refs|
  {
    TreeKey(c.refs[x].vector, c.scheme)
  }

  /** What a scan of reference `x` offers to the best arrays. */
  function RefSlot(c: Ctx, x: nat): Slot
    requires ValidPredicates(c.scheme.predicates) && x < |c.refs|
  {
    Slot(Dist(c.q, c.refs[x].vector), c.refs[x].lbl, x, KeyAt(c, x))
  }

  ghost function Slots(c: Ctx, ids: multiset<nat>): set<Slot>
    requires ValidPredicates(c.scheme.predicates)
  {
    set x: nat | x in ids && x < |c.refs| :: RefSlot(c, x)
  }

  lemma SlotsAreCandidates(c: Ctx, ids: multiset<nat>)
    requires Fits(c)
    ensures Candidates(Slots(c, ids))
  {
  }

  lemma SlotsSum(c: Ctx, a: multiset<nat>, b: multiset<nat>)
    requires ValidPredicates(c.scheme.predicates)
    ensures Slots(c, a + b) == Slots(c, a) + Slots(c, b)
  {
    forall s ensures s in Slots(c, a + b) <==> s in Slots(c, a) + Slots(c, b) {
      if s in Slots(c, a) {
        var x: nat :| x in a && x < |c.refs| && s == RefSlot(c, x);
        assert x in a + b;
      }
      if s in Slots(c, b) {
        var x: nat :| x in b && x < |c.refs| && s == RefSlot(c, x);
        assert x in a + b;
      }
    }
  }

  // ----- the block sections -----

  function BlockLane(vectors: seq<int>, b: nat, l: nat): seq<int>
    requires l < LANES && (b + 1) * (DIMS * LANES) <= |vectors|
  {
    LaneVec(vectors, b * (DIMS * LANES), l)
  }

  /** The vector, label and reference-index sections hold the lanes, block by block. */
  ghost predicate Sections(vectors: seq<int>, labels: seq<nat>, refIndices: seq<nat>, lanes: seq<Lane>) {
    && |lanes| % LANES == 0 && |vectors| == |lanes| * DIMS && |labels| == |refIndices| == |lanes|
    && (forall k :: 0 <= k < |lanes| ==> labels[k] == lanes[k].lbl && refIndices[k] == lanes[k].refIndex)
    && (forall b, l :: 0 <= b < |lanes| / LANES && 0 <= l < LANES ==>
          BlockLane(vectors, b, l) == lanes[b * LANES + l].vector[..DIMS])
  }

  // ----- the index of a list of references -----

  /** The references whose partition key is in `keys`, each once. */
  ghost function Owned(refs: seq<Reference>, scheme: Scheme, keys: set<nat>): multiset<nat>
    requires ValidPredicates(scheme.predicates)
  {
    multiset(set x: nat | x < |refs| && TreeKey(refs[x].vector, scheme) in keys)
  }

  lemma OwnedMore(refs: seq<Reference>, scheme: Scheme, keys: set<nat>, key: nat)
    requires ValidPredicates(scheme.predicates) && key !in keys
    ensures Owned(refs, scheme, keys + {key}) == Owned(refs, scheme, keys) + Owned(refs, scheme, {key})
  {
  }

  ghost predicate PartitionOk(ix: Index, refs: seq<Reference>, lanes: seq<Lane>, p: Partition, t: Tree)
    requires ValidPredicates(ix.scheme.predicates)
  {
    && p.key < KEY_LOOKUP_SIZE && Encodes(ix.nodes, LANES, lanes, refs, p.root, t)
    && p.lo == ix.nodes[p.root].lo && p.hi == ix.nodes[p.root].hi
    && Height(t) <= TREE_STACK_CAPACITY && multiset(Ids(t)) == Owned(refs, ix.scheme, {p.key})
  }

  /** The lookup table finds every partition by its key, and lists the keys in use. */
  ghost predicate LookupOk(ix: Index) {
    && |ix.keyToPartition| == KEY_LOOKUP_SIZE
    && (forall i :: 0 <= i < |ix.partitions| ==>
          ix.partitions[i].key < KEY_LOOKUP_SIZE && ix.keyToPartition[ix.partitions[i].key] == i)
    && (forall k :: 0 <= k < KEY_LOOKUP_SIZE && ix.keyToPartition[k] >= 0 ==>
          ix.keyToPartition[k] < |ix.partitions| && ix.partitions[ix.keyToPartition[k]].key == k)
    && (forall i :: 0 <= i < |ix.activeKeys| ==>
          ix.activeKeys[i] < KEY_LOOKUP_SIZE && ix.keyToPartition[ix.activeKeys[i]] >= 0)
    && (forall k :: 0 <= k < KEY_LOOKUP_SIZE && ix.keyToPartition[k] >= 0 ==> k in ix.activeKeys)
    && (forall i, j :: 0 <= i < j < |ix.activeKeys| ==> ix.activeKeys[i] < ix.activeKeys[j])
  }

  ghost predicate IndexOf(ix: Index, refs: seq<Reference>, lanes: seq<Lane>, trees: seq<Tree>) {
    && ValidPredicates(ix.scheme.predicates)
    && Sections(ix.vectors, ix.labels, ix.refIndices, lanes)
    && |trees| == |ix.partitions|
    && (forall i :: 0 <= i < |trees| ==> PartitionOk(ix, refs, lanes, ix.partitions[i], trees[i]))
    && LookupOk(ix)
    && (forall x :: 0 <= x < |refs| ==>
          var key := TreeKey(refs[x].vector, ix.scheme); key < KEY_LOOKUP_SIZE && ix.keyToPartition[key] >= 0)
  }
}
