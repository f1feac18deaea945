/** Scanning the blocks of one leaf: `scan_leaf` and `scan_leaf_fast`. */
module LeafScan {
  import opened Base
  import opened Kernel
  import opened TopK
  import opened Routing
  import opened KdTree
  import opened Index

  /** Distinct references, none of them among the candidates already offered. */
  ghost predicate New(c: Ctx, ids: seq<nat>, seen: set<Slot>)
    requires ValidPredicates(c.scheme.predicates)
  {
    && (forall i, j :: 0 <= i < j < |ids| ==> ids[i] != ids[j])
    && (forall i :: 0 <= i < |ids| ==> ids[i] < |c.refs| && RefSlot(c, ids[i]) !in seen)
  }

  lemma LaneHolds(ix: Index, c: Ctx, lanes: seq<Lane>, start: nat, ids: seq<nat>, b: nat, l: nat)
    requires Sections(ix.vectors, ix.labels, ix.refIndices, lanes)
    requires LeafLanes(lanes, start * LANES, c.refs, ids) && b < Blocks(|ids|) && l < LANES
    ensures (start + b + 1) * (DIMS * LANES) <= |ix.vectors| && (start + b) * LANES + l < |lanes|
    ensures var lane := LaneOf(c.refs, ids, b * LANES + l);
            && BlockLane(ix.vectors, start + b, l) == lane.vector[..DIMS]
            && ix.labels[(start + b) * LANES + l] == lane.lbl
            && ix.refIndices[(start + b) * LANES + l] == lane.refIndex
  {
    assert start * LANES + (b * LANES + l) == (start + b) * LANES + l;
    assert start + b < |lanes| / LANES;
    assert lanes[start * LANES + (b * LANES + l)] == LaneOf(c.refs, ids, b * LANES + l);
  }

  lemma {:induction false} SamePrefix(q: seq<int>, v: seq<int>, w: seq<int>, n: nat)
    requires n <= |q| && n <= |v| && n <= |w| && forall d :: 0 <= d < n ==> v[d] == w[d]
    ensures SqSum(q, v, n) == SqSum(q, w, n)
  {
    if n > 0 { SamePrefix(q, v, w, n - 1); }
  }

  lemma BlockFits(ix: Index, c: Ctx, lanes: seq<Lane>, start: nat, ids: seq<nat>, b: nat)
    requires Fits(c) && Sections(ix.vectors, ix.labels, ix.refIndices, lanes)
    requires LeafLanes(lanes, start * LANES, c.refs, ids) && b < Blocks(|ids|)
    ensures (start + b) * (DIMS * LANES) + DIMS * LANES <= |ix.vectors|
    ensures BlockSmall(ix.vectors, (start + b) * (DIMS * LANES))
  {
    LaneHolds(ix, c, lanes, start, ids, b, 0);
    var base := (start + b) * (DIMS * LANES);
    forall l | 0 <= l < LANES ensures Small(LaneVec(ix.vectors, base, l)) {
      LaneHolds(ix, c, lanes, start, ids, b, l);
      var lane := LaneOf(c.refs, ids, b * LANES + l);
      assert Small(lane.vector);
      assert BlockLane(ix.vectors, start + b, l) == lane.vector[..DIMS];
    }
  }

  /** What lane `l` of block `b` offers is the slot of its reference. */
  lemma LaneSlot(ix: Index, c: Ctx, lanes: seq<Lane>, start: nat, ids: seq<nat>, b: nat, l: nat)
    requires Fits(c) && Sections(ix.vectors, ix.labels, ix.refIndices, lanes)
    requires LeafLanes(lanes, start * LANES, c.refs, ids) && l < LANES
    requires b * LANES + l < |ids| && ids[b * LANES + l] < |c.refs|
    ensures b < Blocks(|ids|)
    ensures (start + b) * (DIMS * LANES) + DIMS * LANES <= |ix.vectors| && (start + b) * LANES + l < |lanes|
    ensures var e := RefSlot(c, ids[b * LANES + l]);
            && Wrap32(Dist(c.q, LaneVec(ix.vectors, (start + b) * (DIMS * LANES), l))) == e.dist <= I32_MAX
            && ix.labels[(start + b) * LANES + l] == e.lbl && ix.refIndices[(start + b) * LANES + l] == e.idx
  {
    LaneHolds(ix, c, lanes, start, ids, b, l);
    var v := c.refs[ids[b * LANES + l]].vector;
    assert BlockLane(ix.vectors, start + b, l) == v[..DIMS];
    SamePrefix(c.q, BlockLane(ix.vectors, start + b, l), v, DIMS);
    AccumulatorExactIff(c.q, v);
  }

  /** The candidates after the first `n` references of the leaf have been offered. */
  ghost function Offered(c: Ctx, ids: seq<nat>, seen: set<Slot>, n: nat): set<Slot>
    requires ValidPredicates(c.scheme.predicates) && n <= |ids|
    requires forall i :: 0 <= i < |ids| ==> ids[i] < |c.refs|
  {
    if n == 0 then seen else Offered(c, ids, seen, n - 1) + {RefSlot(c, ids[n - 1])}
  }

  lemma {:induction false} OfferedMembers(c: Ctx, ids: seq<nat>, seen: set<Slot>, n: nat, e: Slot)
    requires ValidPredicates(c.scheme.predicates) && New(c, ids, seen) && n <= |ids|
    ensures e in Offered(c, ids, seen, n) <==> e in seen || exists i :: 0 <= i < n && e == RefSlot(c, ids[i])
  {
    if n > 0 { OfferedMembers(c, ids, seen, n - 1, e); }
  }

  lemma {:induction false} OfferedAll(c: Ctx, ids: seq<nat>, seen: set<Slot>)
    requires ValidPredicates(c.scheme.predicates) && New(c, ids, seen)
    ensures Offered(c, ids, seen, |ids|) == seen + Slots(c, multiset(ids))
  {
    forall e ensures e in Offered(c, ids, seen, |ids|) <==> e in seen + Slots(c, multiset(ids)) {
      OfferedMembers(c, ids, seen, |ids|, e);
      if e in Slots(c, multiset(ids)) {
        var x: nat :| x in multiset(ids) && x < |c.refs| && e == RefSlot(c, x);
        assert x in ids;
      }
    }
  }

  lemma {:induction false} OfferedGrows(c: Ctx, ids: seq<nat>, seen: set<Slot>, n: nat, m: nat)
    requires ValidPredicates(c.scheme.predicates) && New(c, ids, seen) && n <= m <= |ids|
    ensures Offered(c, ids, seen, n) <= Offered(c, ids, seen, m)
  {
    if n < m { OfferedGrows(c, ids, seen, n, m - 1); }
  }

  lemma Offer(c: Ctx, ids: seq<nat>, seen: set<Slot>, j: nat, b: seq<Slot>)
    requires ValidPredicates(c.scheme.predicates) && New(c, ids, seen) && j < |ids|
    requires Candidates(Offered(c, ids, seen, |ids|)) && IsTopK(b, Offered(c, ids, seen, j))
    ensures IsTopK(Insert(b, RefSlot(c, ids[j])), Offered(c, ids, seen, j + 1))
    ensures !Before(RefSlot(c, ids[j]), b[K - 1]) ==> Insert(b, RefSlot(c, ids[j])) == b
    ensures Insert(b, RefSlot(c, ids[j]))[K - 1].dist <= b[K - 1].dist
  {
    OfferedMembers(c, ids, seen, j, RefSlot(c, ids[j]));
    OfferedGrows(c, ids, seen, j + 1, |ids|);
    InsertTopK(b, Offered(c, ids, seen, j), RefSlot(c, ids[j]));
    InsertSorted(b, RefSlot(c, ids[j]));
  }

  /** Everything about a leaf and its candidates that does not change during the scan. */
  ghost predicate LeafOk(ix: Index, q: Vec, start: nat, key: nat, c: Ctx, lanes: seq<Lane>, ids: seq<nat>,
                         seen: set<Slot>)
  {
    && Fits(c) && q == c.q && Sections(ix.vectors, ix.labels, ix.refIndices, lanes)
    && LeafLanes(lanes, start * LANES, c.refs, ids)
    && New(c, ids, seen) && Candidates(Offered(c, ids, seen, |ids|))
    && forall i :: 0 <= i < |ids| ==> KeyAt(c, ids[i]) == key
  }

  /** What one lane of a block amounts to, whether or not the mask has its bit. */
  lemma OfferLane(ix: Index, q: Vec, start: nat, b: nat, i: nat, key: nat, hit: bool, dist: int, best: seq<Slot>,
                  c: Ctx, lanes: seq<Lane>, ids: seq<nat>, seen: set<Slot>, limit: int)
    requires LeafOk(ix, q, start, key, c, lanes, ids, seen) && i < LANES && b * LANES + i < |ids|
    requires (start + b) * (DIMS * LANES) + DIMS * LANES <= |ix.vectors|
    requires var d := Wrap32(Dist(q, LaneVec(ix.vectors, (start + b) * (DIMS * LANES), i)));
             (hit <==> limit >= I32_MAX || d <= limit) && (hit ==> dist == d)
    requires IsTopK(best, Offered(c, ids, seen, b * LANES + i)) && best[K - 1].dist <= limit
    ensures (start + b) * LANES + i < |ix.labels| && (start + b) * LANES + i < |ix.refIndices|
    ensures var at := (start + b) * LANES + i;
            var next := if hit then Insert(best, Slot(dist, ix.labels[at], ix.refIndices[at], key)) else best;
            IsTopK(next, Offered(c, ids, seen, b * LANES + i + 1)) && next[K - 1].dist <= limit
  {
    LaneSlot(ix, c, lanes, start, ids, b, i);
    Offer(c, ids, seen, b * LANES + i, best);
  }

  method OfferOne(ix: Index, q: Vec, start: nat, b: nat, i: nat, key: nat, hit: bool, dist: int, best: array<Slot>,
                  ghost c: Ctx, ghost lanes: seq<Lane>, ghost ids: seq<nat>, ghost seen: set<Slot>, ghost limit: int)
    requires LeafOk(ix, q, start, key, c, lanes, ids, seen) && i < LANES && b * LANES + i < |ids|
    requires (start + b) * (DIMS * LANES) + DIMS * LANES <= |ix.vectors|
    requires var d := Wrap32(Dist(q, LaneVec(ix.vectors, (start + b) * (DIMS * LANES), i)));
             (hit <==> limit >= I32_MAX || d <= limit) && (hit ==> dist == d)
    requires best.Length == K && IsTopK(best[..], Offered(c, ids, seen, b * LANES + i)) && best[K - 1].dist <= limit
    modifies best
    ensures IsTopK(best[..], Offered(c, ids, seen, b * LANES + i + 1)) && best[K - 1].dist <= limit
  {
    OfferLane(ix, q, start, b, i, key, hit, dist, best[..], c, lanes, ids, seen, limit);
    if hit {
      var at := (start + b) * LANES + i;
      InsertBest(best, Slot(dist, ix.labels[at], ix.refIndices[at], key));
    }
  }

  /** The lanes of one block, in ascending order of the mask's set bits. */
  method OfferLanes(ix: Index, q: Vec, start: nat, b: nat, laneCount: nat, key: nat, mask: seq<bool>, dists: seq<int>,
                    best: array<Slot>, ghost c: Ctx, ghost lanes: seq<Lane>, ghost ids: seq<nat>, ghost seen: set<Slot>)
    requires LeafOk(ix, q, start, key, c, lanes, ids, seen) && b < Blocks(|ids|)
    requires laneCount <= LANES == |mask| == |dists| && b * LANES + laneCount <= |ids|
    requires (start + b) * (DIMS * LANES) + DIMS * LANES <= |ix.vectors|
    requires best.Length == K && IsTopK(best[..], Offered(c, ids, seen, b * LANES))
    requires forall l :: 0 <= l < LANES ==>
               var d := Wrap32(Dist(q, LaneVec(ix.vectors, (start + b) * (DIMS * LANES), l)));
               (mask[l] <==> best[K - 1].dist >= I32_MAX || d <= best[K - 1].dist) && (mask[l] ==> dists[l] == d)
    modifies best
    ensures IsTopK(best[..], Offered(c, ids, seen, b * LANES + laneCount))
  {
    ghost var limit := best[K - 1].dist;
    var i := 0;
    while i < laneCount
      invariant 0 <= i <= laneCount && best[K - 1].dist <= limit
      invariant IsTopK(best[..], Offered(c, ids, seen, b * LANES + i))
    {
      OfferOne(ix, q, start, b, i, key, mask[i], dists[i], best, c, lanes, ids, seen, limit);
      i := i + 1;
    }
  }

  /** One block: eight distances at once, then the lanes that may improve the best slots. */
  method OfferBlock(ix: Index, q: Vec, start: nat, b: nat, nodeLen: nat, key: nat, best: array<Slot>, ghost c: Ctx,
                    ghost lanes: seq<Lane>, ghost ids: seq<nat>, ghost seen: set<Slot>)
    requires LeafOk(ix, q, start, key, c, lanes, ids, seen) && nodeLen == |ids| && b < Blocks(|ids|)
    requires best.Length == K && IsTopK(best[..], Offered(c, ids, seen, b * LANES))
    modifies best
    ensures IsTopK(best[..], Offered(c, ids, seen, Min((b + 1) * LANES, |ids|)))
  {
    BlockFits(ix, c, lanes, start, ids, b);
    LastNonNegative(c, ids, seen, b * LANES, best[..]);
    var mask, dists := ScanBlock(ix.vectors, (start + b) * (DIMS * LANES), q, best[K - 1].dist);
    var laneCount := Min(nodeLen - b * LANES, LANES);
    OfferLanes(ix, q, start, b, laneCount, key, mask, dists, best, c, lanes, ids, seen);
    assert b * LANES + laneCount == Min((b + 1) * LANES, |ids|);
  }

  lemma {:induction false} LastNonNegative(c: Ctx, ids: seq<nat>, seen: set<Slot>, n: nat, b: seq<Slot>)
    requires ValidPredicates(c.scheme.predicates) && New(c, ids, seen) && n <= |ids|
    requires Candidates(Offered(c, ids, seen, |ids|)) && IsTopK(b, Offered(c, ids, seen, n))
    ensures b[K - 1].dist >= 0
  {
    OfferedGrows(c, ids, seen, n, |ids|);
    assert b[K - 1] == EMPTY || b[K - 1] in Offered(c, ids, seen, |ids|);
  }

  /** From the top K of the candidates seen so far to the top K including the leaf. */
  method ScanLeaf(ix: Index, node: nat, q: Vec, key: nat, best: array<Slot>, ghost c: Ctx, ghost lanes: seq<Lane>,
                  ghost ids: seq<nat>, ghost seen: set<Slot>)
    requires node < |ix.nodes| && ix.nodes[node].len == |ids|
    requires LeafOk(ix, q, ix.nodes[node].start, key, c, lanes, ids, seen)
    requires best.Length == K && IsTopK(best[..], seen)
    modifies best
    ensures IsTopK(best[..], seen + Slots(c, multiset(ids)))
  {
    var startBlock := ix.nodes[node].start;
    var nodeLen := ix.nodes[node].len;
    var blocks := (nodeLen + LANES - 1) / LANES;
    var b := 0;
    while b < blocks
      invariant 0 <= b <= blocks
      invariant IsTopK(best[..], Offered(c, ids, seen, Min(b * LANES, |ids|)))
    {
      OfferBlock(ix, q, startBlock, b, nodeLen, key, best, c, lanes, ids, seen);
      b := b + 1;
    }
    OfferedAll(c, ids, seen);
  }
}
