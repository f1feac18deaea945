/** From a list of references to an answer: build the file, open it, search it. */
module EndToEnd {
  import opened Base
  import opened Kernel
  import opened TopK
  import opened Routing
  import opened KdTree
  import Kd = Builder
  import opened Splits
  import opened Index
  import opened Loader
  import opened FileRoundTrip
  import opened Build
  import Training
  import opened Nearest
  import opened Predict
  import opened Exactness

  /** Zero-padded vectors of which none is further from the query than 31 bits can say. */
  ghost predicate ValidInputs(refs: seq<Reference>, q: Vec) {
    && |refs| <= I32_MAX && Small(q) && PaddingZero(q)
    && forall x :: 0 <= x < |refs| ==> ValidReference(refs[x], q)
  }

  predicate ValidReference(r: Reference, q: Vec) {
    Small(r.vector) && PaddingZero(r.vector) && r.lbl <= 1 && Dist(q, r.vector) <= I32_MAX
  }

  /** Vectors of a domain whose largest distance fits are such inputs. */
  lemma {:induction false} DomainIsValid(refs: seq<Reference>, q: Vec, scale: nat, sentinels: set<nat>)
    requires |refs| <= I32_MAX && scale <= MAX_SCALE && NothingWraps(scale, sentinels)
    requires InDomainOf(q, scale, sentinels)
    requires forall x :: 0 <= x < |refs| ==> InDomainOf(refs[x].vector, scale, sentinels) && refs[x].lbl <= 1
    ensures ValidInputs(refs, q)
  {
    forall x | 0 <= x < |refs| ensures ValidReference(refs[x], q) {
      AccumulatorExactIff(q, refs[x].vector);
    }
  }

  /** With the sentinel only where it is meant, or with the sentinel in any dimension. */
  lemma {:induction false} EitherDomainIsValid(refs: seq<Reference>, q: Vec, scale: nat, sentinels: set<nat>)
    requires (sentinels == MEANT && scale <= 10362) || (sentinels == ANYWHERE && scale <= 6192)
    requires |refs| <= I32_MAX && InDomainOf(q, scale, sentinels)
    requires forall x :: 0 <= x < |refs| ==> InDomainOf(refs[x].vector, scale, sentinels) && refs[x].lbl <= 1
    ensures ValidInputs(refs, q)
  {
    if sentinels == MEANT { NoWrapIffScale(scale); } else { NoWrapAnywhereIffScale(scale); }
    DomainIsValid(refs, q, scale, sentinels);
  }

  lemma {:induction false} ValidIsStorable(refs: seq<Reference>, q: Vec)
    requires ValidInputs(refs, q)
    ensures Kd.Storable(refs)
  {
    forall x, d | 0 <= x < |refs| && 0 <= d < PACKED_DIMS ensures -0x8000 <= refs[x].vector[d] <= I16_MAX {
      assert ValidReference(refs[x], q);
    }
  }

  lemma {:induction false} ValidFits(c: Ctx)
    requires ValidInputs(c.refs, c.q) && ValidPredicates(c.scheme.predicates)
    ensures Fits(c)
  {
    forall x | 0 <= x < |c.refs| ensures ValidReference(c.refs[x], c.q) {
    }
  }

  /** Building an index and opening it gives the index of the references, partitioned by the
      scheme as prepared. */
  method BuildAndOpen(refs: seq<Reference>, leafSize: nat, scheme: Scheme, strategy: SplitStrategy,
                      score: (seq<nat>, Training.Candidate) -> real)
    returns (ix: Index, ghost lanes: seq<Lane>, ghost trees: seq<Tree>)
    requires Kd.Storable(refs) && SchemeFits(scheme)
    ensures IndexOf(ix, refs, lanes, trees) && multiset(RealIds(lanes)) == AllOnce(|refs|)
    ensures IsPrepared(refs, scheme, score, ix.scheme)
  {
    var bytes;
    ghost var f;
    bytes, f, trees := BuildIndex(refs, leafSize, scheme, strategy, score);
    var r := Load(bytes);
    LoadsExactlyCompleteFiles(f, bytes);
    ix, lanes := View(r.value), f.lanes;
  }

  /** For every reference list, query, leaf size, scheme, split strategy and scoring, with and
      without deferral: the plain scan finds the nearest references, by distance and position.
      Unless the early exit was taken, the answer is the number of frauds among K nearest
      references, which have the distances of those of the scan. It is the number among those of
      the scan whenever the labels tied for the last place agree, and the references are those
      of the scan when there is no such tie. */
  method BuildOpenAndAsk(refs: seq<Reference>, leafSize: nat, scheme: Scheme, strategy: SplitStrategy,
                         score: (seq<nat>, Training.Candidate) -> real, q: Vec, labelDefer: bool, threshold: int)
    returns (count: nat, best: array<Slot>, ghost c: Ctx, ghost ids: seq<nat>, ghost nearest: seq<nat>)
    requires ValidInputs(refs, q) && SchemeFits(scheme)
    ensures c.q == q && c.refs == refs && IsPrepared(refs, scheme, score, c.scheme) && Fits(c) && best.Length == K
    ensures AreNearest(q, refs, Except(refs, None), nearest, true)
    ensures AreSome(q, refs, Except(refs, None), ids, false) && count == Frauds(refs, ids)
    ensures (0 < threshold && best[K - 1].dist < threshold) ||
            (&& AreNearest(q, refs, Except(refs, None), ids, false) && (!labelDefer ==> Shown(c, ids, best[..]))
             && |ids| == |nearest|
             && (forall i :: 0 <= i < |ids| ==> DistanceTo(q, refs, ids[i]) == DistanceTo(q, refs, nearest[i]))
             && (LabelsAgreeAtCut(AllSlots(c, None)) ==> count == Frauds(refs, nearest))
             && (NoTieAtCut(AllSlots(c, None)) ==> ids == nearest))
  {
    ValidIsStorable(refs, q);
    var ix, lanes, trees := BuildAndOpen(refs, leafSize, scheme, strategy, score);
    c := Ctx(q, refs, ix.scheme);
    ValidFits(c);
    var scanned;
    ghost var scan;
    scanned, scan, nearest := PlainScan(q, refs, None, c);
    ghost var answer, home;
    count, best, answer, home := Predict.Predict(ix, q, None, labelDefer, threshold, World(ix, c, lanes, trees));
    assert InPartitions(c, None) == Except(refs, None);
    if 0 < threshold && best[K - 1].dist < threshold {
      ids := SlotsAreSome(c, None, best[..]);
    } else {
      ids := AnswerShows(c, None, answer);
      AgainstScan(c, answer, ids, scan, nearest);
    }
  }

  lemma {:induction false} AgainstScan(c: Ctx, answer: seq<Slot>, ids: seq<nat>, scan: seq<Slot>, nearest: seq<nat>)
    requires Fits(c) && IsKNearest(answer, AllSlots(c, None)) && IsTopK(scan, Scanned(c, None, |c.refs|))
    requires Shown(c, ids, answer) && Shown(c, nearest, scan)
    ensures |ids| == |nearest|
    ensures forall i :: 0 <= i < |ids| ==> DistanceTo(c.q, c.refs, ids[i]) == DistanceTo(c.q, c.refs, nearest[i])
    ensures LabelsAgreeAtCut(AllSlots(c, None)) ==> LabelSum(answer) == Frauds(c.refs, nearest)
    ensures NoTieAtCut(AllSlots(c, None)) ==> ids == nearest
  {
    SameDistances(c, answer, scan);
    SameCount(c, answer, scan);
    CountShown(c, nearest, scan);
    ShownAlike(c, nearest, scan, ids, answer);
  }

  /** The same index asked twice, the second time only in the partitions of the first answer:
      these are exactly the partitions of K nearest references, and both answers count the
      frauds among references with the distances of the plain scan. */
  method BuildOpenAndAskTwice(refs: seq<Reference>, leafSize: nat, scheme: Scheme, strategy: SplitStrategy,
                              score: (seq<nat>, Training.Candidate) -> real, q: Vec)
    returns (count: nat, keys: set<nat>, restrictedCount: nat, ghost c: Ctx, ghost full: seq<nat>,
             ghost restricted: seq<nat>)
    requires ValidInputs(refs, q) && SchemeFits(scheme)
    ensures c.q == q && c.refs == refs && IsPrepared(refs, scheme, score, c.scheme) && Fits(c)
    ensures AreNearest(q, refs, Except(refs, None), full, false) && count == Frauds(refs, full) && |keys| <= K
    ensures forall k :: k in keys <==> exists i :: 0 <= i < |full| && TreeKey(refs[full[i]].vector, c.scheme) == k
    ensures AreNearest(q, refs, InPartitions(c, Some(keys)), restricted, false)
    ensures restrictedCount == Frauds(refs, restricted) && |restricted| == |full|
    ensures forall i :: 0 <= i < |full| ==> DistanceTo(q, refs, restricted[i]) == DistanceTo(q, refs, full[i])
  {
    ValidIsStorable(refs, q);
    var ix, lanes, trees := BuildAndOpen(refs, leafSize, scheme, strategy, score);
    c := Ctx(q, refs, ix.scheme);
    ValidFits(c);
    assert InPartitions(c, None) == Except(refs, None);
    count, keys, restrictedCount, full, restricted := PredictTwice(ix, q, World(ix, c, lanes, trees));
  }
}
