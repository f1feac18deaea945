/** Building the kd-tree of one partition: `build_node` and what it calls. */
module Builder {
  import opened Base
  import opened Kernel
  import opened KdTree
  import opened Splits

  /** Vectors whose components fit the 16-bit integers they are stored in. */
  predicate Storable(refs: seq<Reference>) {
    |refs| <= I32_MAX && forall i :: 0 <= i < |refs| ==>
      refs[i].lbl < 256 && forall d :: 0 <= d < PACKED_DIMS ==> -0x8000 <= refs[i].vector[d] <= I16_MAX
  }

  // ----- the bounding box -----

  /** The box in one dimension, with the initial values for no reference at all. */
  ghost predicate DimBox(refs: seq<Reference>, ids: seq<nat>, d: nat, l: int, h: int)
    requires d < PACKED_DIMS
  {
    && (forall x :: x in ids && x < |refs| ==> l <= refs[x].vector[d] <= h)
    && (if ids == [] then l == I16_MAX && h == -0x8000 else Attains(refs, ids, d, l) && Attains(refs, ids, d, h))
  }

  lemma DimBoxStep(refs: seq<Reference>, ids: seq<nat>, k: nat, d: nat, l: int, h: int)
    requires Storable(refs) && Within(ids, |refs|) && k < |ids| && d < PACKED_DIMS
    requires DimBox(refs, ids[..k], d, l, h)
    ensures var v := refs[ids[k]].vector[d]; DimBox(refs, ids[..k + 1], d, Min(l, v), Max(h, v))
  {
    var v := refs[ids[k]].vector[d];
    assert ids[..k + 1] == ids[..k] + [ids[k]];
    assert ids[k] in ids[..k + 1];
    forall w | Attains(refs, ids[..k], d, w) ensures Attains(refs, ids[..k + 1], d, w) {
      var x :| x in ids[..k] && x < |refs| && refs[x].vector[d] == w;
      assert x in ids[..k + 1];
    }
  }

  method TightBox(refs: seq<Reference>, ids: seq<nat>) returns (lo: Vec, hi: Vec)
    requires Storable(refs) && Within(ids, |refs|) && ids != []
    ensures IsBox(refs, ids, lo, hi)
  {
    lo := seq(PACKED_DIMS, _ => I16_MAX);
    hi := seq(PACKED_DIMS, _ => -0x8000);
    var k := 0;
    while k < |ids|
      invariant 0 <= k <= |ids|
      invariant forall d :: 0 <= d < PACKED_DIMS ==> DimBox(refs, ids[..k], d, lo[d], hi[d])
    {
      var v := refs[ids[k]].vector;
      var d := 0;
      while d < PACKED_DIMS
        invariant 0 <= d <= PACKED_DIMS
        invariant forall e :: 0 <= e < d ==> DimBox(refs, ids[..k + 1], e, lo[e], hi[e])
        invariant forall e :: d <= e < PACKED_DIMS ==> DimBox(refs, ids[..k], e, lo[e], hi[e])
      {
        DimBoxStep(refs, ids, k, d, lo[d], hi[d]);
        lo, hi := lo[d := Min(lo[d], v[d])], hi[d := Max(hi[d], v[d])];
        d := d + 1;
      }
      k := k + 1;
    }
    assert ids[..k] == ids;
    forall x | x in ids ensures x < |refs| && InBox(refs[x].vector, lo, hi) {
      forall d | 0 <= d < PACKED_DIMS ensures lo[d] <= refs[x].vector[d] <= hi[d] {
        assert DimBox(refs, ids, d, lo[d], hi[d]);
      }
    }
  }

  // ----- sorting by one dimension -----

  function KeyOf(refs: seq<Reference>, x: nat, d: nat): int
    requires x < |refs| && d < DIMS
  {
    refs[x].vector[d]
  }

  predicate SortedBy(refs: seq<Reference>, ids: seq<nat>, d: nat)
    requires Within(ids, |refs|) && d < DIMS
  {
    forall i, j :: 0 <= i < j < |ids| ==> KeyOf(refs, ids[i], d) <= KeyOf(refs, ids[j], d)
  }

  /** `x` put where it belongs in a sorted sequence. */
  function InsertByKey(refs: seq<Reference>, ids: seq<nat>, x: nat, d: nat): (r: seq<nat>)
    requires Within(ids, |refs|) && d < DIMS && SortedBy(refs, ids, d) && x < |refs|
    ensures Within(r, |refs|) && multiset(r) == multiset(ids) + multiset{x}
    ensures forall y :: y in r ==> y == x || y in ids
    ensures SortedBy(refs, r, d)
  {
    if ids == [] || KeyOf(refs, ids[|ids| - 1], d) <= KeyOf(refs, x, d) then ids + [x]
    else
      var front, last := ids[..|ids| - 1], ids[|ids| - 1];
      assert ids == front + [last];
      SortedSnoc(refs, InsertByKey(refs, front, x, d), last, d);
      InsertByKey(refs, front, x, d) + [last]
  }

  lemma SortedSnoc(refs: seq<Reference>, ids: seq<nat>, last: nat, d: nat)
    requires Within(ids, |refs|) && d < DIMS && SortedBy(refs, ids, d) && last < |refs|
    requires forall y :: y in ids ==> KeyOf(refs, y, d) <= KeyOf(refs, last, d)
    ensures SortedBy(refs, ids + [last], d)
  {
  }

  /** Stands for the library sort: any sorted permutation would do. */
  method SortByDimension(refs: seq<Reference>, ids: seq<nat>, d: nat) returns (sorted: seq<nat>)
    requires Within(ids, |refs|) && d < DIMS
    ensures Within(sorted, |refs|) && SortedBy(refs, sorted, d) && multiset(sorted) == multiset(ids)
  {
    sorted := [];
    var k := 0;
    while k < |ids|
      invariant 0 <= k <= |ids| && Within(sorted, |refs|) && SortedBy(refs, sorted, d)
      invariant multiset(sorted) == multiset(ids[..k])
    {
      sorted := InsertByKey(refs, sorted, ids[k], d);
      assert ids[..k + 1] == ids[..k] + [ids[k]];
      k := k + 1;
    }
    assert ids[..k] == ids;
  }

  // ----- the leaf blocks -----

  function LeafBlock(refs: seq<Reference>, ids: seq<nat>, n: nat): (r: seq<Lane>)
    ensures |r| == n && forall j :: 0 <= j < n ==> r[j] == LaneOf(refs, ids, j)
  {
    seq(n, j requires 0 <= j => LaneOf(refs, ids, j))
  }

  lemma {:induction false} RealIdsSnoc(lanes: seq<Lane>, x: Lane)
    ensures RealIds(lanes + [x]) == RealIds(lanes) + (if x.refIndex == U32_MAX then [] else [x.refIndex])
  {
    assert (lanes + [x])[..|lanes|] == lanes;
  }

  /** The first `n` lanes of a leaf have been pushed onto `lanes`. */
  ghost predicate Pushed(lanes: seq<Lane>, lanes': seq<Lane>, refs: seq<Reference>, ids: seq<nat>, n: nat,
                         classBits: set<nat>)
  {
    && lanes' == lanes + LeafBlock(refs, ids, n)
    && IsBits(refs, Taken(ids, n), classBits)
    && RealIds(lanes') == RealIds(lanes) + Taken(ids, n)
  }

  function Taken(ids: seq<nat>, n: nat): seq<nat> { if n <= |ids| then ids[..n] else ids }

  /** A lane holds a reference's own vector and label, or padding. */
  predicate Stored(refs: seq<Reference>, l: Lane) {
    l == Lane(ZERO_VECTOR, 0, 0xffff_ffff)
      || (l.refIndex < |refs| && l == Lane(refs[l.refIndex].vector, refs[l.refIndex].lbl, l.refIndex))
  }

  /** At most one block for each of `n` references has been appended. */
  predicate Appended(lanes: seq<Lane>, lanes': seq<Lane>, refs: seq<Reference>, n: nat) {
    lanes <= lanes' && |lanes'| <= |lanes| + LANES * n && forall k :: |lanes| <= k < |lanes'| ==>
      Stored(refs, lanes'[k])
  }

  lemma BlockAppended(lanes: seq<Lane>, lanes': seq<Lane>, refs: seq<Reference>, ids: seq<nat>)
    requires lanes' == lanes + LeafBlock(refs, ids, Blocks(|ids|) * LANES) && ids != []
    ensures Appended(lanes, lanes', refs, |ids|)
  {
    forall k | |lanes| <= k < |lanes'| ensures Stored(refs, lanes'[k]) {
      assert lanes'[k] == LaneOf(refs, ids, k - |lanes|);
    }
  }

  lemma AppendedTwice(lanes: seq<Lane>, lanes1: seq<Lane>, lanes2: seq<Lane>, refs: seq<Reference>, m: nat, n: nat)
    requires Appended(lanes, lanes1, refs, m) && Appended(lanes1, lanes2, refs, n)
    ensures Appended(lanes, lanes2, refs, m + n)
  {
    assert forall k :: 0 <= k < |lanes1| ==> lanes2[k] == lanes1[k];
  }

  lemma PushAny(lanes: seq<Lane>, lanes': seq<Lane>, refs: seq<Reference>, ids: seq<nat>, n: nat)
    requires lanes' == lanes + LeafBlock(refs, ids, n)
    ensures lanes' + [LaneOf(refs, ids, n)] == lanes + LeafBlock(refs, ids, n + 1)
  {
  }

  lemma PushPadding(lanes: seq<Lane>, lanes': seq<Lane>, refs: seq<Reference>, ids: seq<nat>, n: nat,
                    classBits: set<nat>)
    requires Pushed(lanes, lanes', refs, ids, n, classBits) && n >= |ids|
    ensures Pushed(lanes, lanes' + [PADDING], refs, ids, n + 1, classBits)
  {
    PushAny(lanes, lanes', refs, ids, n);
    RealIdsSnoc(lanes', PADDING);
    assert Taken(ids, n + 1) == Taken(ids, n);
  }

  lemma PushReference(lanes: seq<Lane>, lanes': seq<Lane>, refs: seq<Reference>, ids: seq<nat>, n: nat,
                      classBits: set<nat>, ref: Reference)
    requires Storable(refs) && Within(ids, |refs|) && Pushed(lanes, lanes', refs, ids, n, classBits)
    requires n < |ids| && ref == refs[ids[n]]
    ensures Pushed(lanes, lanes' + [Lane(ref.vector, ref.lbl, ids[n])], refs, ids, n + 1,
                   classBits + {ClassOf(ref.lbl)})
  {
    PushAny(lanes, lanes', refs, ids, n);
    RealIdsSnoc(lanes', Lane(ref.vector, ref.lbl, ids[n]));
    ConcatAssoc(RealIds(lanes), Taken(ids, n), [ids[n]]);
    assert Taken(ids, n + 1) == Taken(ids, n) + [ids[n]];
    OneBit(refs, ids[n]);
    OrBits(refs, Taken(ids, n), classBits, [ids[n]], {ClassOf(ref.lbl)});
  }

  class Builder {
    var lanes: seq<Lane>
    var nodes: seq<Node>

    constructor ()
      ensures lanes == [] && nodes == []
    {
      lanes, nodes := [], [];
    }

    /** One lane of a leaf block: a reference, or padding after the last one. */
    method PushLane(ghost before: seq<Lane>, refs: seq<Reference>, ids: seq<nat>, i: nat, classBits: set<nat>)
      returns (classBits': set<nat>)
      requires Storable(refs) && Within(ids, |refs|) && Pushed(before, lanes, refs, ids, i, classBits)
      modifies `lanes
      ensures Pushed(before, lanes, refs, ids, i + 1, classBits')
    {
      if i < |ids| {
        var ref := refs[ids[i]];
        PushReference(before, lanes, refs, ids, i, classBits, ref);
        classBits' := classBits + {ClassOf(ref.lbl)};
        lanes := lanes + [Lane(ref.vector, ref.lbl, ids[i])];
      } else {
        PushPadding(before, lanes, refs, ids, i, classBits);
        classBits' := classBits;
        lanes := lanes + [PADDING];
      }
    }

    /** One block of lanes. */
    method PushBlock(ghost before: seq<Lane>, refs: seq<Reference>, ids: seq<nat>, start: nat, ghost end: nat,
                     bits: set<nat>)
      returns (classBits: set<nat>)
      requires Storable(refs) && Within(ids, |refs|) && Pushed(before, lanes, refs, ids, start, bits)
      requires end == start + LANES
      modifies `lanes
      ensures Pushed(before, lanes, refs, ids, end, classBits)
    {
      classBits := bits;
      var l, i := 0, start;
      while l < LANES
        invariant 0 <= l <= LANES && i == start + l && Pushed(before, lanes, refs, ids, i, classBits)
      {
        classBits := PushLane(before, refs, ids, i, classBits);
        l, i := l + 1, i + 1;
      }
      assert i == end;
    }

    /** Whole blocks of lanes, padded at the end. */
    method PushLeaf(refs: seq<Reference>, ids: seq<nat>) returns (classBits: set<nat>)
      requires Storable(refs) && Within(ids, |refs|) && ids != [] && |lanes| % LANES == 0
      modifies `lanes
      ensures Pushed(old(lanes), lanes, refs, ids, Blocks(|ids|) * LANES, classBits)
      ensures Appended(old(lanes), lanes, refs, |ids|)
    {
      classBits := {};
      var b := 0;
      while b < Blocks(|ids|)
        invariant 0 <= b <= Blocks(|ids|)
        invariant Pushed(old(lanes), lanes, refs, ids, b * LANES, classBits)
      {
        var start := b * LANES;
        classBits := PushBlock(old(lanes), refs, ids, start, start + LANES, classBits);
        b := b + 1;
      }
      BlockAppended(old(lanes), lanes, refs, ids);
    }

    /** `build_node`: the records and lanes of one subtree, in preorder. */
    method BuildNode(refs: seq<Reference>, ids: seq<nat>, leafSize: nat, strategy: SplitStrategy)
      returns (nodeIdx: nat, ghost t: Tree)
      requires Storable(refs) && Within(ids, |refs|) && ids != []
      requires LANES <= leafSize && |lanes| % LANES == 0
      modifies this
      ensures nodeIdx == |old(nodes)|
      ensures Built(old(nodes), old(lanes), nodes, lanes, refs, ids, leafSize, t) && SplitsBy(t, refs, strategy)
      ensures Appended(old(lanes), lanes, refs, |ids|)
      decreases |ids|, 1
    {
      var lo, hi := TightBox(refs, ids);
      nodeIdx := |nodes|;
      nodes := nodes + [Node(-1, -1, 0, 0, lo, hi, {})];

      if |ids| <= leafSize {
        BuildLeaf(old(nodes), refs, ids, leafSize, lo, hi);
        t := Leaf(ids);
        return;
      }

      ghost var dim;
      var left, right;
      dim, left, right := SplitIndices(refs, ids, strategy, lo, hi);
      t := BuildBranch(old(nodes), refs, ids, left, right, dim, leafSize, strategy, lo, hi);
      BranchChosen(refs, ids, leafSize, strategy, lo, hi, dim, old(nodes), old(lanes), nodes, lanes, t);
    }

    /** The leaf case of `build_node`. */
    method BuildLeaf(ghost before: seq<Node>, refs: seq<Reference>, ids: seq<nat>, leafSize: nat, lo: Vec, hi: Vec)
      requires Storable(refs) && Within(ids, |refs|) && 0 < |ids| <= leafSize && IsBox(refs, ids, lo, hi)
      requires |lanes| % LANES == 0 && nodes == before + [Node(-1, -1, 0, 0, lo, hi, {})]
      modifies this
      ensures Built(before, old(lanes), nodes, lanes, refs, ids, leafSize, Leaf(ids))
      ensures Appended(old(lanes), lanes, refs, |ids|)
    {
      var leafStart := |lanes|;
      var classBits := PushLeaf(refs, ids);
      nodes := nodes[|nodes| - 1 := Node(-1, -1, leafStart, |ids|, lo, hi, classBits)];
      assert nodes == before + [Node(-1, -1, leafStart, |ids|, lo, hi, classBits)];
      BuiltLeaf(before, old(lanes), lanes, refs, ids, leafSize, lo, hi, classBits);
    }

    /** Choosing the dimension, sorting by it and cutting in the middle. */
    method SplitIndices(refs: seq<Reference>, ids: seq<nat>, strategy: SplitStrategy, lo: Vec, hi: Vec)
      returns (dim: nat, left: seq<nat>, right: seq<nat>)
      requires Within(ids, |refs|) && IsBox(refs, ids, lo, hi) && |ids| > 1
      ensures Chooses(refs, ids, strategy, lo, hi, dim)
      ensures Within(left, |refs|) && Within(right, |refs|) && left != [] && right != []
      ensures dim < DIMS && SortedBy(refs, left + right, dim) && IsBox(refs, left + right, lo, hi)
      ensures multiset(left + right) == multiset(ids) && |left| == |left + right| / 2 && |left + right| == |ids|
    {
      match strategy {
        case Widest => dim := WidestDimension(lo, hi);
        case Variance => dim := VarianceDimension(refs, ids, lo, hi);
      }
      var sorted := SortByDimension(refs, ids, dim);
      left, right := sorted[..|sorted| / 2], sorted[|sorted| / 2..];
      Halves(refs, ids, sorted, left, right, dim, lo, hi);
    }

    /** The recursive calls of `build_node`, and the record overwritten after them. */
    method BuildBranch(ghost before: seq<Node>, refs: seq<Reference>, ghost ids: seq<nat>, left: seq<nat>,
                       right: seq<nat>, ghost dim: nat, leafSize: nat, strategy: SplitStrategy, lo: Vec, hi: Vec)
      returns (ghost t: Tree)
      requires Storable(refs) && Within(left, |refs|) && Within(right, |refs|) && left != [] && right != []
      requires LANES <= leafSize && |lanes| % LANES == 0 && nodes == before + [Node(-1, -1, 0, 0, lo, hi, {})]
      requires dim < DIMS && SortedBy(refs, left + right, dim) && IsBox(refs, left + right, lo, hi)
      requires multiset(left + right) == multiset(ids) && |left| == |left + right| / 2 && |left + right| > leafSize
      modifies this
      ensures Built(before, old(lanes), nodes, lanes, refs, ids, leafSize, t)
      ensures t.Branch? && t.dim == dim && SplitsBy(t.near, refs, strategy) && SplitsBy(t.far, refs, strategy)
      ensures Appended(old(lanes), lanes, refs, |left| + |right|)
      decreases |left| + |right|, 0
    {
      var nodeIdx := |nodes| - 1;
      var leftNode, l := BuildNode(refs, left, leafSize, strategy);
      ghost var nodes1, lanes1 := nodes, lanes;
      var rightNode, r := BuildNode(refs, right, leafSize, strategy);
      JoinBuilt(before, Node(-1, -1, 0, 0, lo, hi, {}), old(lanes), nodes1, lanes1, nodes, lanes,
                refs, ids, left, right, leafSize, dim, l, r, lo, hi);
      AppendedTwice(old(lanes), lanes1, lanes, refs, |left|, |right|);
      var rec := ParentOf(leftNode, nodes[leftNode], rightNode, nodes[rightNode], lo, hi);
      nodes := nodes[nodeIdx := rec];
      t := Branch(dim, l, r);
    }
  }

  lemma {:induction false} BranchChosen(refs: seq<Reference>, ids: seq<nat>, leafSize: nat, strategy: SplitStrategy,
                                        lo: Vec, hi: Vec, dim: nat, nodes: seq<Node>, lanes: seq<Lane>,
                                        nodes': seq<Node>, lanes': seq<Lane>, t: Tree)
    requires Within(ids, |refs|) && IsBox(refs, ids, lo, hi) && Chooses(refs, ids, strategy, lo, hi, dim)
    requires Built(nodes, lanes, nodes', lanes', refs, ids, leafSize, t) && t.Branch? && t.dim == dim
    requires SplitsBy(t.near, refs, strategy) && SplitsBy(t.far, refs, strategy)
    ensures SplitsBy(t, refs, strategy)
  {
    ChosenInAnyOrder(refs, ids, Ids(t), strategy, lo, hi, dim);
  }

  lemma Halves(refs: seq<Reference>, ids: seq<nat>, sorted: seq<nat>, left: seq<nat>, right: seq<nat>, dim: nat,
               lo: Vec, hi: Vec)
    requires Within(sorted, |refs|) && dim < DIMS && SortedBy(refs, sorted, dim)
    requires multiset(sorted) == multiset(ids) && IsBox(refs, ids, lo, hi)
    requires left == sorted[..|sorted| / 2] && right == sorted[|sorted| / 2..]
    ensures Within(left, |refs|) && Within(right, |refs|) && |left + right| == |ids| && |left| == |left + right| / 2
    ensures SortedBy(refs, left + right, dim) && IsBox(refs, left + right, lo, hi)
    ensures multiset(left + right) == multiset(ids)
  {
    HalvesJoin(sorted, left, right, |sorted| / 2);
    SameBox(refs, ids, sorted, lo, hi);
    SameLength(sorted, ids);
  }

  lemma HalvesJoin(sorted: seq<nat>, left: seq<nat>, right: seq<nat>, middle: nat)
    requires middle <= |sorted| && left == sorted[..middle] && right == sorted[middle..]
    ensures left + right == sorted && |left| == middle
    ensures forall i :: 0 <= i < |left| ==> left[i] == sorted[i]
    ensures forall i :: 0 <= i < |right| ==> right[i] == sorted[middle + i]
  {
  }

  lemma SameLength(a: seq<nat>, b: seq<nat>)
    requires multiset(a) == multiset(b)
    ensures |a| == |b|
  {
    assert |a| == |multiset(a)| && |b| == |multiset(b)|;
  }

  function ParentOf(leftNode: nat, left: Node, rightNode: nat, right: Node, lo: Vec, hi: Vec): Node {
    Node(leftNode, rightNode, left.start, left.len + right.len, lo, hi, left.classBits + right.classBits)
  }

  /** What `build_node` added to the arrays: the encoded tree of the given references, each
      of them in exactly one lane that is not padding. */
  ghost predicate Built(nodes: seq<Node>, lanes: seq<Lane>, nodes': seq<Node>, lanes': seq<Lane>, refs: seq<Reference>,
                        ids: seq<nat>, leafSize: nat, t: Tree)
  {
    && nodes <= nodes' && |nodes'| == |nodes| + Count(t) && lanes <= lanes' && |lanes'| % LANES == 0
    && Encodes(nodes', 1, lanes', refs, |nodes|, t)
    && Shape(t, refs, leafSize) && multiset(Ids(t)) == multiset(ids)
    && RealIds(lanes') == RealIds(lanes) + Ids(t)
  }

  /** The record of a branch, written once its two subtrees are complete. */
  lemma JoinRecords(refs: seq<Reference>, nodes1: seq<Node>, lanes1: seq<Lane>, nodes2: seq<Node>, lanes2: seq<Lane>,
                    n: nat, dim: nat, l: Tree, r: Tree, rec: Node)
    requires Encodes(nodes1, 1, lanes1, refs, n + 1, l) && |nodes1| == n + 1 + Count(l)
    requires Encodes(nodes2, 1, lanes2, refs, |nodes1|, r)
    requires nodes1 <= nodes2 && lanes1 <= lanes2
    requires IsBox(refs, Ids(l) + Ids(r), rec.lo, rec.hi) && IsBits(refs, Ids(l) + Ids(r), rec.classBits)
    requires rec.left == n + 1 && rec.right == |nodes1| && rec.start == nodes1[n + 1].start
    requires rec.len == |Ids(l)| + |Ids(r)|
    ensures Encodes(nodes2[n := rec], 1, lanes2, refs, n, Branch(dim, l, r))
  {
    EncodesStable(nodes1, lanes1, nodes2[n := rec], lanes2, 1, refs, n + 1, l);
    EncodesStable(nodes2, lanes2, nodes2[n := rec], lanes2, 1, refs, n + 1 + Count(l), r);
  }

  lemma PushedLeafLanes(lanes: seq<Lane>, lanes': seq<Lane>, refs: seq<Reference>, ids: seq<nat>)
    requires lanes' == lanes + LeafBlock(refs, ids, Blocks(|ids|) * LANES) && |lanes| % LANES == 0
    ensures LeafLanes(lanes', |lanes|, refs, ids) && |lanes'| % LANES == 0
  {
    var width := Blocks(|ids|) * LANES;
    assert forall j :: 0 <= j < width ==> lanes'[|lanes| + j] == LeafBlock(refs, ids, width)[j];
    WholeBlocks(|lanes|, Blocks(|ids|));
  }

  lemma WholeBlocks(n: nat, blocks: nat)
    requires n % LANES == 0
    ensures (n + blocks * LANES) % LANES == 0
  {
  }

  lemma BuiltLeaf(nodes: seq<Node>, lanes: seq<Lane>, lanes': seq<Lane>, refs: seq<Reference>, ids: seq<nat>,
                  leafSize: nat, lo: Vec, hi: Vec, classBits: set<nat>)
    requires Pushed(lanes, lanes', refs, ids, Blocks(|ids|) * LANES, classBits) && |lanes| % LANES == 0
    requires IsBox(refs, ids, lo, hi) && 0 < |ids| <= leafSize
    ensures Built(nodes, lanes, nodes + [Node(-1, -1, |lanes|, |ids|, lo, hi, classBits)], lanes', refs, ids, leafSize,
                  Leaf(ids))
  {
    PushedLeafLanes(lanes, lanes', refs, ids);
    assert Taken(ids, Blocks(|ids|) * LANES) == ids;
    var rec := Node(-1, -1, |lanes|, |ids|, lo, hi, classBits);
    assert (nodes + [rec])[|nodes|] == rec && rec.start * 1 == |lanes|;
    assert Encodes(nodes + [rec], 1, lanes', refs, |nodes|, Leaf(ids));
  }

  /** Two built subtrees and a record for their parent make a built tree. */
  lemma {:induction false} JoinBuilt(nodes: seq<Node>, placeholder: Node, lanes: seq<Lane>, nodes1: seq<Node>,
                                     lanes1: seq<Lane>, nodes2: seq<Node>, lanes2: seq<Lane>, refs: seq<Reference>,
                                     ids: seq<nat>, left: seq<nat>, right: seq<nat>, leafSize: nat, dim: nat, l: Tree,
                                     r: Tree, lo: Vec, hi: Vec)
    requires Built(nodes + [placeholder], lanes, nodes1, lanes1, refs, left, leafSize, l)
    requires Built(nodes1, lanes1, nodes2, lanes2, refs, right, leafSize, r)
    requires Within(left + right, |refs|) && dim < DIMS && SortedBy(refs, left + right, dim)
    requires multiset(left + right) == multiset(ids)
    requires |left| == |left + right| / 2 && |left + right| > leafSize && IsBox(refs, left + right, lo, hi)
    ensures |nodes| + 1 < |nodes1| < |nodes2| && |nodes| + 1 + Count(l) == |nodes1|
    ensures Built(nodes, lanes,
                  nodes2[|nodes| := ParentOf(|nodes| + 1, nodes2[|nodes| + 1], |nodes1|, nodes2[|nodes1|], lo, hi)],
                  lanes2, refs, ids, leafSize, Branch(dim, l, r))
  {
    var rec := ParentOf(|nodes| + 1, nodes2[|nodes| + 1], |nodes1|, nodes2[|nodes1|], lo, hi);
    JoinArrays(nodes, placeholder, lanes, nodes1, lanes1, nodes2, lanes2, refs, left, right, leafSize, l, r, rec);
    BuiltParts(nodes + [placeholder], lanes, nodes1, lanes1, refs, left, leafSize, l);
    BuiltParts(nodes1, lanes1, nodes2, lanes2, refs, right, leafSize, r);
    JoinSubtrees(refs, left, right, leafSize, dim, l, r);
    JoinEncoded(refs, nodes1, lanes1, nodes2, lanes2, |nodes|, dim, left, right, l, r, lo, hi, rec);
  }

  lemma {:induction false} JoinEncoded(refs: seq<Reference>, nodes1: seq<Node>, lanes1: seq<Lane>, nodes2: seq<Node>,
                                       lanes2: seq<Lane>, n: nat, dim: nat, left: seq<nat>, right: seq<nat>, l: Tree,
                                       r: Tree, lo: Vec, hi: Vec, rec: Node)
    requires Encodes(nodes1, 1, lanes1, refs, n + 1, l) && |nodes1| == n + 1 + Count(l)
    requires Encodes(nodes2, 1, lanes2, refs, |nodes1|, r) && nodes1 <= nodes2 && lanes1 <= lanes2
    requires multiset(left + right) == multiset(Ids(l) + Ids(r)) && IsBox(refs, left + right, lo, hi)
    requires rec == ParentOf(n + 1, nodes2[n + 1], |nodes1|, nodes2[|nodes1|], lo, hi)
    ensures Encodes(nodes2[n := rec], 1, lanes2, refs, n, Branch(dim, l, r))
  {
    EncodedRecord(nodes1, lanes1, refs, n + 1, l);
    EncodedRecord(nodes2, lanes2, refs, |nodes1|, r);
    assert nodes1[n + 1] == nodes2[n + 1];
    ParentFits(refs, left, right, l, r, nodes2[n + 1], nodes2[|nodes1|], lo, hi, rec, n + 1, |nodes1|);
    JoinRecords(refs, nodes1, lanes1, nodes2, lanes2, n, dim, l, r, rec);
  }

  lemma {:induction false} EncodedRecord(nodes: seq<Node>, lanes: seq<Lane>, refs: seq<Reference>, n: nat, t: Tree)
    requires Encodes(nodes, 1, lanes, refs, n, t)
    ensures n < |nodes| && nodes[n].len == |Ids(t)| && IsBits(refs, Ids(t), nodes[n].classBits)
  {
  }

  /** The record, the shape and the references of a built tree. */
  lemma {:induction false} BuiltParts(nodes: seq<Node>, lanes: seq<Lane>, nodes1: seq<Node>, lanes1: seq<Lane>,
                                      refs: seq<Reference>, ids: seq<nat>, leafSize: nat, t: Tree)
    requires Built(nodes, lanes, nodes1, lanes1, refs, ids, leafSize, t)
    ensures Encodes(nodes1, 1, lanes1, refs, |nodes|, t) && Shape(t, refs, leafSize)
    ensures multiset(Ids(t)) == multiset(ids)
  {
  }

  /** What stays of the records and lanes, and what comes behind them. */
  lemma {:induction false} JoinArrays(nodes: seq<Node>, placeholder: Node, lanes: seq<Lane>, nodes1: seq<Node>,
                                      lanes1: seq<Lane>, nodes2: seq<Node>, lanes2: seq<Lane>, refs: seq<Reference>,
                                      left: seq<nat>, right: seq<nat>, leafSize: nat, l: Tree, r: Tree, rec: Node)
    requires Built(nodes + [placeholder], lanes, nodes1, lanes1, refs, left, leafSize, l)
    requires Built(nodes1, lanes1, nodes2, lanes2, refs, right, leafSize, r)
    ensures |nodes| + 1 < |nodes1| < |nodes2| && |nodes| + 1 + Count(l) == |nodes1| && |nodes1| + Count(r) == |nodes2|
    ensures nodes1 <= nodes2 && nodes1[|nodes| + 1] == nodes2[|nodes| + 1] && nodes <= nodes2[|nodes| := rec]
    ensures lanes <= lanes1 <= lanes2 && |lanes2| % LANES == 0
    ensures RealIds(lanes2) == RealIds(lanes) + (Ids(l) + Ids(r))
  {
    ConcatAssoc(RealIds(lanes), Ids(l), Ids(r));
  }

  /** The box and the class bits of the parent. */
  lemma {:induction false} ParentFits(refs: seq<Reference>, left: seq<nat>, right: seq<nat>, l: Tree, r: Tree,
                                      near: Node, far: Node, lo: Vec, hi: Vec, rec: Node, n: nat, m: nat)
    requires rec == ParentOf(n, near, m, far, lo, hi) && IsBox(refs, left + right, lo, hi)
    requires multiset(left + right) == multiset(Ids(l) + Ids(r))
    requires IsBits(refs, Ids(l), near.classBits) && IsBits(refs, Ids(r), far.classBits)
    ensures IsBits(refs, Ids(l) + Ids(r), rec.classBits) && IsBox(refs, Ids(l) + Ids(r), rec.lo, rec.hi)
  {
    SameBox(refs, left + right, Ids(l) + Ids(r), lo, hi);
    OrBits(refs, Ids(l), near.classBits, Ids(r), far.classBits);
  }

  lemma {:induction false} JoinSubtrees(refs: seq<Reference>, left: seq<nat>, right: seq<nat>, leafSize: nat, dim: nat,
                                        l: Tree, r: Tree)
    requires Within(left + right, |refs|) && dim < DIMS && SortedBy(refs, left + right, dim)
    requires |left| == |left + right| / 2 && |left + right| > leafSize
    requires multiset(Ids(l)) == multiset(left) && multiset(Ids(r)) == multiset(right)
    requires Shape(l, refs, leafSize) && Shape(r, refs, leafSize)
    ensures multiset(Ids(l) + Ids(r)) == multiset(left + right) && Shape(Branch(dim, l, r), refs, leafSize)
  {
    assert |Ids(l)| == |multiset(Ids(l))| == |left| && |Ids(r)| == |multiset(Ids(r))| == |right|;
    SameMembers(Ids(l), left);
    SameMembers(Ids(r), right);
    forall x, y | x in Ids(l) && y in Ids(r) && x < |refs| && y < |refs|
      ensures refs[x].vector[dim] <= refs[y].vector[dim]
    {
      var i, j :| 0 <= i < |left| && left[i] == x && 0 <= j < |right| && right[j] == y;
      assert KeyOf(refs, (left + right)[i], dim) <= KeyOf(refs, (left + right)[|left| + j], dim);
    }
  }
}
