/**
 * The index against the plain scan: the same K distances on every query, the same count
 * whenever the last place is not tied, whatever deferral, restriction or partitioning did.
 */
module Exactness {
  import opened Base
  import opened Kernel
  import opened TopK
  import opened Routing
  import opened Index
  import opened Nearest
  import opened Predict

  const USIZE_MAX := 0xffff_ffff_ffff_ffff

  // ----- the plain scan -----

  /** The two arrays of the scan, read as slots. */
  ghost predicate Mirrors(dists: seq<int>, ids: seq<int>, b: seq<Slot>) {
    |dists| == |ids| == |b| && forall i :: 0 <= i < |b| ==> dists[i] == b[i].dist && ids[i] == IdOf(b[i])
  }

  function IdOf(s: Slot): int { if s == EMPTY then USIZE_MAX else s.idx }

  /** Where the slots are after an insertion at `pos`. */
  lemma {:induction false} InsertedAt(b: seq<Slot>, e: Slot, pos: nat)
    requires |b| == K && pos < K && Before(e, b[K - 1]) && Slide(b, e, K - 1) == pos
    ensures |Insert(b, e)| == K && Insert(b, e)[pos] == e
    ensures forall i :: 0 <= i < K && i != pos ==> Insert(b, e)[i] == if i < pos then b[i] else b[i - 1]
  {
    assert Insert(b, e) == b[..pos] + [e] + b[pos..K - 1];
  }

  /** The references scanned before `n`, without the skipped one. */
  ghost function Scanned(c: Ctx, skip: Option<nat>, n: nat): set<Slot>
    requires ValidPredicates(c.scheme.predicates) && n <= |c.refs|
  {
    set x: nat | x < n && skip != Some(x) :: RefSlot(c, x)
  }

  lemma ScanInsert(c: Ctx, skip: Option<nat>, n: nat, b: seq<Slot>)
    requires Fits(c) && n < |c.refs| && skip != Some(n) && IsTopK(b, Scanned(c, skip, n))
    ensures IsTopK(Insert(b, RefSlot(c, n)), Scanned(c, skip, n + 1))
    ensures forall i :: 0 <= i < K ==> (Before(RefSlot(c, n), b[i]) <==> RefSlot(c, n).dist < b[i].dist)
  {
    assert Scanned(c, skip, n + 1) == Scanned(c, skip, n) + {RefSlot(c, n)};
    InsertTopK(b, Scanned(c, skip, n), RefSlot(c, n));
    assert forall i :: 0 <= i < K ==> b[i] == EMPTY || b[i] in Scanned(c, skip, n);
  }

  /** The arrays, shifted from `pos` on, take the new distance there. */
  lemma {:induction false} Shifted(dists: seq<int>, ids: seq<int>, b: seq<Slot>, e: Slot, pos: nat)
    requires |dists| == |ids| == |b| == K && pos < K && e != EMPTY && Before(e, b[K - 1]) && Slide(b, e, K - 1) == pos
    requires forall i :: 0 <= i < pos ==> dists[i] == b[i].dist && ids[i] == IdOf(b[i])
    requires forall i :: pos < i < K ==> dists[i] == b[i - 1].dist && ids[i] == IdOf(b[i - 1])
    ensures Mirrors(dists[pos := e.dist], ids[pos := e.idx], Insert(b, e))
  {
    InsertedAt(b, e, pos);
  }

  /** The shifting loop of the scan: strict comparison of distances only. */
  method ScanShift(dists: array<int>, ids: array<int>, dist: int, ri: nat, ghost b: seq<Slot>, ghost e: Slot)
    requires dists.Length == K == ids.Length && dists != ids && Mirrors(dists[..], ids[..], b)
    requires e.dist == dist && e.idx == ri && e != EMPTY && dist < dists[K - 1]
    requires forall i :: 0 <= i < K ==> (Before(e, b[i]) <==> dist < b[i].dist)
    modifies dists, ids
    ensures Mirrors(dists[..], ids[..], Insert(b, e))
  {
    var pos := K - 1;
    while pos > 0 && dist < dists[pos - 1]
      invariant 0 <= pos <= K - 1 && Slide(b, e, K - 1) == Slide(b, e, pos)
      invariant forall i :: 0 <= i < K - 1 && i <= pos ==> dists[i] == b[i].dist && ids[i] == IdOf(b[i])
      invariant forall i :: pos < i < K ==> dists[i] == b[i - 1].dist && ids[i] == IdOf(b[i - 1])
    {
      dists[pos], ids[pos] := dists[pos - 1], ids[pos - 1];
      pos := pos - 1;
    }
    Shifted(dists[..], ids[..], b, e, pos);
    dists[pos], ids[pos] := dist, ri;
  }

  method SquaredDistance(q: Vec, v: Vec) returns (dist: int)
    ensures dist == Dist(q, v)
  {
    dist := 0;
    var d := 0;
    while d < DIMS
      invariant 0 <= d <= DIMS && dist == SqSum(q, v, d)
    {
      var diff := q[d] - v[d];
      dist := dist + diff * diff;
      d := d + 1;
    }
  }

  /** `topk_one` (with `skip` the query's own index), and the scan of a foreign query. */
  method PlainScan(q: Vec, refs: seq<Reference>, skip: Option<nat>, ghost c: Ctx)
    returns (ids: array<int>, ghost b: seq<Slot>, ghost nearest: seq<nat>)
    requires Fits(c) && c.q == q && c.refs == refs
    ensures ids.Length == K && IsTopK(b, Scanned(c, skip, |refs|)) && Shown(c, nearest, b)
    ensures AreNearest(q, refs, Except(refs, skip), nearest, true)
    ensures forall i :: 0 <= i < K ==> ids[i] == if i < |nearest| then nearest[i] else USIZE_MAX
  {
    var dists := new int[K](_ => I64_MAX);
    ids := new int[K](_ => USIZE_MAX);
    b := NOTHING;
    TopKOfNothing();
    assert Scanned(c, skip, 0) == {};
    var ri := 0;
    while ri < |refs|
      invariant 0 <= ri <= |refs| && Mirrors(dists[..], ids[..], b) && IsTopK(b, Scanned(c, skip, ri))
    {
      if skip == Some(ri) {
        assert Scanned(c, skip, ri + 1) == Scanned(c, skip, ri);
      } else {
        var dist := SquaredDistance(q, refs[ri].vector);
        ScanInsert(c, skip, ri, b);
        if dist < dists[K - 1] {
          ScanShift(dists, ids, dist, ri, b, RefSlot(c, ri));
        }
        b := Insert(b, RefSlot(c, ri));
      }
      ri := ri + 1;
    }
    nearest := ScanShows(c, skip, b);
    assert forall i :: 0 <= i < K ==> ids[..][i] == ids[i];
  }

  lemma {:induction false} ScanShows(c: Ctx, skip: Option<nat>, b: seq<Slot>) returns (nearest: seq<nat>)
    requires Fits(c) && IsTopK(b, Scanned(c, skip, |c.refs|))
    ensures Shown(c, nearest, b) && forall i :: 0 <= i < K ==> (b[i] == EMPTY <==> i >= |nearest|)
    ensures AreNearest(c.q, c.refs, Except(c.refs, skip), nearest, true)
  {
    var among := Except(c.refs, skip);
    assert SlotsAmong(c, among, Scanned(c, skip, |c.refs|));
    nearest := SlotsShow(c, among, Scanned(c, skip, |c.refs|), b, true);
  }

  // ----- the search against the scan -----

  lemma ScanOfAll(c: Ctx)
    requires Fits(c)
    ensures Scanned(c, None, |c.refs|) == AllSlots(c, None) && Candidates(AllSlots(c, None))
  {
    assert forall x: nat :: x < |c.refs| ==> Permitted(None, KeyAt(c, x));
  }

  /** A search result and a plain scan have the same K distances, and no other choice of
      references does better anywhere. */
  lemma SameDistances(c: Ctx, answer: seq<Slot>, scan: seq<Slot>)
    requires Fits(c) && IsKNearest(answer, AllSlots(c, None)) && IsTopK(scan, Scanned(c, None, |c.refs|))
    ensures forall i :: 0 <= i < K ==> answer[i].dist == scan[i].dist
    ensures forall other: seq<Slot> :: Holds(other, AllSlots(c, None)) ==> forall i :: 0 <= i < K ==>
              answer[i].dist <= other[i].dist
  {
    ScanOfAll(c);
    TopKIsKNearest(scan, AllSlots(c, None));
    KNearestDistances(answer, AllSlots(c, None), scan);
    forall other: seq<Slot> | Holds(other, AllSlots(c, None))
      ensures forall i :: 0 <= i < K ==> answer[i].dist <= other[i].dist
    {
      KNearestDistances(answer, AllSlots(c, None), other);
    }
  }

  /** The count is that of the plain scan when the labels tied at the cut agree, and with
      other labels there it depends on which of the K-nearest sets was found
      (CountDeterminedIff). Without a tie the slots are those of the scan. */
  lemma {:induction false} SameCount(c: Ctx, answer: seq<Slot>, scan: seq<Slot>)
    requires Fits(c) && IsKNearest(answer, AllSlots(c, None)) && IsTopK(scan, Scanned(c, None, |c.refs|))
    ensures LabelsAgreeAtCut(AllSlots(c, None)) ==> LabelSum(answer) == LabelSum(scan)
    ensures NoTieAtCut(AllSlots(c, None)) ==> answer == scan
  {
    ScanOfAll(c);
    if LabelsAgreeAtCut(AllSlots(c, None)) { AgreeingCount(answer, AllSlots(c, None), scan); }
    if NoTieAtCut(AllSlots(c, None)) { NoTieUnique(answer, AllSlots(c, None), scan); }
  }

  // ----- the fixpoint of the restricted search -----

  /** `PartitionSet::from_top_keys`. */
  function TopKeys(b: seq<Slot>): set<nat> { set s | s in b && 0 <= s.key < KEY_LOOKUP_SIZE :: s.key as nat }

  /** The references in the partitions that a search may look into. */
  ghost function InPartitions(c: Ctx, keys: Option<set<nat>>): set<nat>
    requires ValidPredicates(c.scheme.predicates)
  {
    set x: nat | x < |c.refs| && (keys == None || TreeKey(c.refs[x].vector, c.scheme) in keys.value)
  }

  /** What a search says in terms of the references. */
  lemma {:induction false} AnswerShows(c: Ctx, keys: Option<set<nat>>, b: seq<Slot>) returns (ids: seq<nat>)
    requires Fits(c) && IsKNearest(b, AllSlots(c, keys))
    ensures Shown(c, ids, b) && LabelSum(b) == Frauds(c.refs, ids)
    ensures AreNearest(c.q, c.refs, InPartitions(c, keys), ids, false)
  {
    PermittedAreThere(c, keys);
    ids := SlotsShow(c, InPartitions(c, keys), AllSlots(c, keys), b, false);
    CountShown(c, ids, b);
  }

  /** Likewise for slots that need not be nearest. */
  lemma {:induction false} SlotsAreSome(c: Ctx, keys: Option<set<nat>>, b: seq<Slot>) returns (ids: seq<nat>)
    requires Fits(c) && Holds(b, AllSlots(c, keys))
    ensures Shown(c, ids, b) && LabelSum(b) == Frauds(c.refs, ids)
    ensures AreSome(c.q, c.refs, InPartitions(c, keys), ids, false)
  {
    PermittedAreThere(c, keys);
    ids := HeldShow(c, InPartitions(c, keys), AllSlots(c, keys), b, false);
    CountShown(c, ids, b);
  }

  lemma {:induction false} PermittedAreThere(c: Ctx, keys: Option<set<nat>>)
    requires Fits(c)
    ensures SlotsAmong(c, InPartitions(c, keys), AllSlots(c, keys)) && Candidates(AllSlots(c, keys))
  {
    forall s | s in AllSlots(c, keys)
      ensures exists x: nat :: x in InPartitions(c, keys) && x < |c.refs| && s == RefSlot(c, x)
    {
      var x: nat :| x < |c.refs| && Permitted(keys, KeyAt(c, x)) && s == RefSlot(c, x);
      assert x in InPartitions(c, keys);
    }
  }

  /** Exactly the partitions of the references shown, at most K of them. */
  lemma {:induction false} KeysShown(c: Ctx, ids: seq<nat>, b: seq<Slot>)
    requires Fits(c) && Shown(c, ids, b)
    ensures forall k :: k in TopKeys(b) <==> exists i :: 0 <= i < |ids| && TreeKey(c.refs[ids[i]].vector, c.scheme) == k
    ensures |TopKeys(b)| <= |ids|
  {
    forall i | 0 <= i < |ids| ensures TreeKey(c.refs[ids[i]].vector, c.scheme) in TopKeys(b) {
      KeyInRange(c.refs[ids[i]].vector, c.scheme);
      assert b[i] in b;
    }
    forall k | k in TopKeys(b) ensures exists i :: 0 <= i < |ids| && TreeKey(c.refs[ids[i]].vector, c.scheme) == k {
      var s :| s in b && 0 <= s.key < KEY_LOOKUP_SIZE && s.key == k;
      var i :| 0 <= i < K && b[i] == s;
      assert i < |ids|;
    }
    KeysCard(c, ids, TopKeys(b));
  }

  lemma {:induction false} KeysCard(c: Ctx, ids: seq<nat>, keys: set<nat>)
    requires ValidPredicates(c.scheme.predicates) && forall i :: 0 <= i < |ids| ==> ids[i] < |c.refs|
    requires forall k :: k in keys ==> exists i :: 0 <= i < |ids| && TreeKey(c.refs[ids[i]].vector, c.scheme) == k
    ensures |keys| <= |ids|
  {
    if ids == [] {
      assert keys == {};
    } else {
      var n := |ids| - 1;
      var last := TreeKey(c.refs[ids[n]].vector, c.scheme);
      forall k | k in keys - {last}
        ensures exists i :: 0 <= i < n && TreeKey(c.refs[ids[..n][i]].vector, c.scheme) == k
      {
        var i :| 0 <= i < |ids| && TreeKey(c.refs[ids[i]].vector, c.scheme) == k;
        assert ids[..n][i] == ids[i];
      }
      KeysCard(c, ids[..n], keys - {last});
    }
  }

  /** Restricting the candidates to the partitions of a K-nearest set keeps it K-nearest,
      even when there are fewer than K references. */
  lemma RestrictionKeepsNearest(c: Ctx, b: seq<Slot>)
    requires Fits(c) && IsKNearest(b, AllSlots(c, None))
    ensures IsKNearest(b, AllSlots(c, Some(TopKeys(b))))
  {
    var inside := AllSlots(c, Some(TopKeys(b)));
    forall i | 0 <= i < K ensures b[i] == EMPTY || b[i] in inside {
      if b[i] != EMPTY {
        var x: nat :| x < |c.refs| && b[i] == RefSlot(c, x);
        KeyInRange(c.refs[x].vector, c.scheme);
        assert b[i] in b;
      }
    }
    forall s | s in inside ensures s in AllSlots(c, None) {
      var x: nat :| x < |c.refs| && Permitted(Some(TopKeys(b)), KeyAt(c, x)) && s == RefSlot(c, x);
    }
  }

  /** Searching only the partitions that the full search reports finds the same distances. */
  lemma RestrictedFixpoint(c: Ctx, full: seq<Slot>, restricted: seq<Slot>)
    requires Fits(c) && IsKNearest(full, AllSlots(c, None)) && IsKNearest(restricted, AllSlots(c, Some(TopKeys(full))))
    ensures forall i :: 0 <= i < K ==> restricted[i].dist == full[i].dist
  {
    RestrictionKeepsNearest(c, full);
    ScanOfAll(c);
    forall s | s in AllSlots(c, Some(TopKeys(full))) ensures s in AllSlots(c, None) {
      var x: nat :| x < |c.refs| && Permitted(Some(TopKeys(full)), KeyAt(c, x)) && s == RefSlot(c, x);
    }
    KNearestDistances(full, AllSlots(c, Some(TopKeys(full))), restricted);
  }

  /** `predict_fraud_count_with_partitions` followed by `predict_fraud_count_in_partitions`: the
      count and the partitions of the K nearest, then the count of the K nearest in these. */
  method PredictTwice(ix: Index, q: Vec, ghost w: World)
    returns (count: nat, keys: set<nat>, restrictedCount: nat, ghost full: seq<nat>, ghost restricted: seq<nat>)
    requires WorldOk(w) && w.ix == ix && w.c.q == q
    ensures AreNearest(q, w.c.refs, InPartitions(w.c, None), full, false) && count == Frauds(w.c.refs, full)
    ensures |keys| <= K
    ensures forall k :: k in keys <==> exists i :: 0 <= i < |full| && TreeKey(w.c.refs[full[i]].vector, ix.scheme) == k
    ensures AreNearest(q, w.c.refs, InPartitions(w.c, Some(keys)), restricted, false)
    ensures restrictedCount == Frauds(w.c.refs, restricted)
    ensures |restricted| == |full| && forall i :: 0 <= i < |full| ==>
              DistanceTo(q, w.c.refs, restricted[i]) == DistanceTo(q, w.c.refs, full[i])
  {
    var best, again;
    ghost var answer, answer', home, home';
    count, best, answer, home := Predict.Predict(ix, q, None, false, 0, w);
    keys := TopKeys(best[..]);
    full := AnswerShows(w.c, None, best[..]);
    KeysShown(w.c, full, best[..]);
    restrictedCount, again, answer', home' := Predict.Predict(ix, q, Some(keys), false, 0, w);
    restricted := AnswerShows(w.c, Some(keys), again[..]);
    RestrictedFixpoint(w.c, best[..], again[..]);
    ShownAlike(w.c, full, best[..], restricted, again[..]);
  }

  lemma ShownAlike(c: Ctx, full: seq<nat>, b: seq<Slot>, restricted: seq<nat>, r: seq<Slot>)
    requires Fits(c) && Shown(c, full, b) && Shown(c, restricted, r)
    requires forall i :: 0 <= i < K ==> r[i].dist == b[i].dist
    ensures |restricted| == |full| && forall i :: 0 <= i < |full| ==>
              DistanceTo(c.q, c.refs, restricted[i]) == DistanceTo(c.q, c.refs, full[i])
  {
    FilledIff(c, full, b);
    FilledIff(c, restricted, r);
    var m := Min(|full|, |restricted|);
    if m < K { assert b[m].dist == r[m].dist; }
    forall i | 0 <= i < |full| ensures DistanceTo(c.q, c.refs, restricted[i]) == DistanceTo(c.q, c.refs, full[i]) {
      assert r[i].dist == b[i].dist;
    }
  }

  lemma FilledIff(c: Ctx, ids: seq<nat>, b: seq<Slot>)
    requires Fits(c) && Shown(c, ids, b)
    ensures forall i :: 0 <= i < K ==> (b[i].dist < I64_MAX <==> i < |ids|)
  {
  }
}
