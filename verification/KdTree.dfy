/**
 * The kd-tree of one partition, as the flat arrays hold it: node records in preorder and
 * leaf blocks of eight lanes. `Tree` is the abstract tree that a run of records encodes.
 */
module KdTree {
  import opened Base
  import opened Kernel

  /** One position of a leaf block: a reference, or padding. */
  datatype Lane = Lane(vector: Vec, lbl: nat, refIndex: nat)

  const PADDING := Lane(ZERO_VECTOR, 0, U32_MAX)

  datatype Node = Node(left: int, right: int, start: nat, len: nat, lo: Vec, hi: Vec, classBits: set<nat>)

  datatype Tree = Leaf(ids: seq<nat>) | Branch(dim: nat, near: Tree, far: Tree)

  function Ids(t: Tree): seq<nat> {
    match t
    case Leaf(ids) => ids
    case Branch(_, l, r) => Ids(l) + Ids(r)
  }

  /** How many node records the tree takes. */
  function Count(t: Tree): nat {
    match t
    case Leaf(_) => 1
    case Branch(_, l, r) => 1 + Count(l) + Count(r)
  }

  function Height(t: Tree): nat {
    match t
    case Leaf(_) => 0
    case Branch(_, l, r) => 1 + Max(Height(l), Height(r))
  }

  // ----- what a node record says -----

  ghost predicate Attains(refs: seq<Reference>, ids: seq<nat>, d: nat, v: int)
    requires d < PACKED_DIMS
  {
    exists x :: x in ids && x < |refs| && refs[x].vector[d] == v
  }

  /** The tight bounding box of the references `ids`. */
  ghost predicate IsBox(refs: seq<Reference>, ids: seq<nat>, lo: Vec, hi: Vec) {
    && (forall x :: x in ids ==> x < |refs| && InBox(refs[x].vector, lo, hi))
    && (forall d :: 0 <= d < PACKED_DIMS ==> Attains(refs, ids, d, lo[d]) && Attains(refs, ids, d, hi[d]))
  }

  function ClassOf(lbl: nat): nat { if lbl <= 7 then lbl else 7 }

  ghost predicate HasLabel(refs: seq<Reference>, ids: seq<nat>, l: nat) {
    exists x :: x in ids && x < |refs| && ClassOf(refs[x].lbl) == l
  }

  /** The class bits, as the set of bit positions, are exactly the labels (capped at 7)
      of the references `ids`. */
  ghost predicate IsBits(refs: seq<Reference>, ids: seq<nat>, bits: set<nat>) {
    forall l :: l in bits <==> HasLabel(refs, ids, l)
  }

  function Blocks(n: nat): nat { (n + LANES - 1) / LANES }

  function LaneOf(refs: seq<Reference>, ids: seq<nat>, j: nat): Lane {
    if j < |ids| && ids[j] < |refs| then Lane(refs[ids[j]].vector, refs[ids[j]].lbl, ids[j]) else PADDING
  }

  /** The whole blocks from lane `start` hold `ids` and then padding. */
  ghost predicate LeafLanes(lanes: seq<Lane>, start: nat, refs: seq<Reference>, ids: seq<nat>) {
    && start % LANES == 0 && start + Blocks(|ids|) * LANES <= |lanes|
    && forall j :: 0 <= j < Blocks(|ids|) * LANES ==> lanes[start + j] == LaneOf(refs, ids, j)
  }

  /** Record `n` and those after it encode `t` in preorder. `unit` is the number of lanes a
      `start` counts: 1 while building, LANES in the file. */
  ghost predicate Encodes(nodes: seq<Node>, unit: nat, lanes: seq<Lane>, refs: seq<Reference>, n: nat, t: Tree)
    decreases t
  {
    && n < |nodes| && nodes[n].len == |Ids(t)| && IsBox(refs, Ids(t), nodes[n].lo, nodes[n].hi)
    && IsBits(refs, Ids(t), nodes[n].classBits)
    && match t
       case Leaf(ids) =>
         nodes[n].left == -1 && nodes[n].right == -1 && LeafLanes(lanes, nodes[n].start * unit, refs, ids)
       case Branch(_, l, r) =>
         && nodes[n].left == n + 1 && Encodes(nodes, unit, lanes, refs, n + 1, l)
         && nodes[n].right == n + 1 + Count(l) && Encodes(nodes, unit, lanes, refs, n + 1 + Count(l), r)
         && nodes[n].start == nodes[n + 1].start
  }

  /** What building promises about the form of the tree. */
  ghost predicate Shape(t: Tree, refs: seq<Reference>, leafSize: nat) {
    match t
    case Leaf(ids) => 0 < |ids| <= leafSize
    case Branch(dim, l, r) =>
      && |Ids(t)| > leafSize && |Ids(l)| == |Ids(t)| / 2 && SplitAt(refs, dim, Ids(l), Ids(r))
      && Shape(l, refs, leafSize) && Shape(r, refs, leafSize)
  }

  /** No reference on the left exceeds one on the right in dimension `dim`. */
  ghost predicate SplitAt(refs: seq<Reference>, dim: nat, left: seq<nat>, right: seq<nat>) {
    dim < DIMS && forall x, y :: x in left && y in right && x < |refs| && y < |refs| ==>
      refs[x].vector[dim] <= refs[y].vector[dim]
  }

  // ----- consequences of the shape -----

  /** Halving gives logarithmic height. */
  lemma {:induction false} HeightBound(t: Tree, refs: seq<Reference>, leafSize: nat, h: nat)
    requires Shape(t, refs, leafSize) && LANES <= leafSize && |Ids(t)| <= leafSize * Pow2(h)
    ensures Height(t) <= h
  {
    if t.Branch? {
      assert h > 0;
      assert leafSize * Pow2(h) == 2 * (leafSize * Pow2(h - 1));
      HeightBound(t.near, refs, leafSize, h - 1);
      HeightBound(t.far, refs, leafSize, h - 1);
    }
  }

  lemma {:induction false} CountBound(t: Tree, refs: seq<Reference>, leafSize: nat)
    requires Shape(t, refs, leafSize) && LANES <= leafSize
    ensures Count(t) <= |Ids(t)| && (|Ids(t)| >= 2 ==> Count(t) < |Ids(t)|)
  {
    if t.Branch? {
      CountBound(t.near, refs, leafSize);
      CountBound(t.far, refs, leafSize);
    }
  }

  /** For every index with i32-sized counts a search stack of 28 entries would do. */
  lemma {:induction false} HeightFits(t: Tree, refs: seq<Reference>, leafSize: nat)
    requires Shape(t, refs, leafSize) && LANES <= leafSize && |Ids(t)| <= I32_MAX
    ensures Height(t) <= 28
  {
    assert Pow2(7) == 128;
    assert Pow2(14) == 128 * Pow2(7);
    assert Pow2(21) == 128 * Pow2(14);
    assert Pow2(28) == 128 * Pow2(21);
    assert leafSize * Pow2(28) >= LANES * Pow2(28);
    HeightBound(t, refs, leafSize, 28);
  }

  // ----- stability -----

  lemma {:induction false} EncodesInRange(nodes: seq<Node>, unit: nat, lanes: seq<Lane>, refs: seq<Reference>, n: nat,
                                          t: Tree)
    requires Encodes(nodes, unit, lanes, refs, n, t)
    ensures n + Count(t) <= |nodes|
    decreases t
  {
    if t.Branch? {
      EncodesInRange(nodes, unit, lanes, refs, n + 1, t.near);
      EncodesInRange(nodes, unit, lanes, refs, n + 1 + Count(t.near), t.far);
    }
  }

  /** Later records and lanes do not disturb an encoded tree. */
  lemma {:induction false} EncodesStable(nodes: seq<Node>, lanes: seq<Lane>, nodes': seq<Node>, lanes': seq<Lane>,
                                         unit: nat, refs: seq<Reference>, n: nat, t: Tree)
    requires Encodes(nodes, unit, lanes, refs, n, t) && |nodes| <= |nodes'| && lanes <= lanes'
    requires forall i :: n <= i < n + Count(t) && i < |nodes| ==> nodes'[i] == nodes[i]
    ensures Encodes(nodes', unit, lanes', refs, n, t)
    decreases t
  {
    if t.Branch? {
      EncodesInRange(nodes, unit, lanes, refs, n + 1, t.near);
      EncodesInRange(nodes, unit, lanes, refs, n + 1 + Count(t.near), t.far);
      EncodesStable(nodes, lanes, nodes', lanes', unit, refs, n + 1, t.near);
      EncodesStable(nodes, lanes, nodes', lanes', unit, refs, n + 1 + Count(t.near), t.far);
    }
  }

  /** The record as it goes to the file, where `start` counts blocks. */
  function OnDisk(n: Node): Node { n.(start := n.start / LANES) }

  function AllOnDisk(nodes: seq<Node>): seq<Node> { seq(|nodes|, i requires 0 <= i < |nodes| => OnDisk(nodes[i])) }

  lemma {:induction false} EncodesOnDisk(nodes: seq<Node>, lanes: seq<Lane>, refs: seq<Reference>, n: nat, t: Tree)
    requires Encodes(nodes, 1, lanes, refs, n, t)
    ensures Encodes(AllOnDisk(nodes), LANES, lanes, refs, n, t)
    decreases t
  {
    if t.Branch? {
      EncodesOnDisk(nodes, lanes, refs, n + 1, t.near);
      EncodesOnDisk(nodes, lanes, refs, n + 1 + Count(t.near), t.far);
    } else {
      assert nodes[n].start % LANES == 0;
      assert nodes[n].start / LANES * LANES == nodes[n].start;
    }
  }

  /** A box and class bits depend only on which references there are. */
  lemma SameBox(refs: seq<Reference>, a: seq<nat>, b: seq<nat>, lo: Vec, hi: Vec)
    requires IsBox(refs, a, lo, hi) && multiset(a) == multiset(b)
    ensures IsBox(refs, b, lo, hi)
  {
    SameMembers(a, b);
    forall d, v | 0 <= d < PACKED_DIMS && Attains(refs, a, d, v) ensures Attains(refs, b, d, v) {
      var x :| x in a && x < |refs| && refs[x].vector[d] == v;
      assert x in b;
    }
  }

  lemma SameMembers<T>(a: seq<T>, b: seq<T>)
    requires multiset(a) == multiset(b)
    ensures forall x :: x in a <==> x in b
  {
    forall x ensures x in a <==> x in b {
      assert x in a <==> x in multiset(a);
      assert x in b <==> x in multiset(b);
    }
  }

  lemma OrBits(refs: seq<Reference>, a: seq<nat>, x: set<nat>, b: seq<nat>, y: set<nat>)
    requires IsBits(refs, a, x) && IsBits(refs, b, y)
    ensures IsBits(refs, a + b, x + y)
  {
    forall l ensures l in x + y <==> HasLabel(refs, a + b, l) {
      if HasLabel(refs, a + b, l) {
        var i :| i in a + b && i < |refs| && ClassOf(refs[i].lbl) == l;
        assert i in a || i in b;
      }
      if i :| i in a && i < |refs| && ClassOf(refs[i].lbl) == l { assert i in a + b; }
      if i :| i in b && i < |refs| && ClassOf(refs[i].lbl) == l { assert i in a + b; }
    }
  }

  lemma OneBit(refs: seq<Reference>, x: nat)
    requires x < |refs|
    ensures IsBits(refs, [x], {ClassOf(refs[x].lbl)})
  {
    assert x in [x];
  }

  // ----- which lanes are references -----

  /** The reference indices of the lanes that are not padding, in order. */
  function RealIds(lanes: seq<Lane>): seq<nat> {
    if lanes == [] then []
    else
      var last := lanes[|lanes| - 1].refIndex;
      RealIds(lanes[..|lanes| - 1]) + (if last == U32_MAX then [] else [last])
  }
}
