/** Six references at the same distance, in two partitions: the search need not agree with the
    plain scan about which five of them count. */
module Ties {
  import opened Base
  import opened Kernel
  import opened TopK
  import opened Routing
  import opened KdTree
  import Kd = Builder
  import opened Splits
  import opened Index
  import opened FileRoundTrip
  import opened Build
  import opened Predict
  import opened Exactness
  import opened EndToEnd
  import Training

  /** One level, by the sign of the first feature. */
  const BY_SIGN := Scheme(1, [TreePredicate(0, 0, true)])

  function Unit(d: nat): Vec
    requires d < PACKED_DIMS
  {
    seq(PACKED_DIMS, i => if i == d then 1 else 0)
  }

  /** One fraud beside five others. */
  function TiedRefs(): (refs: seq<Reference>)
    ensures |refs| == 6 && refs[0] == Reference(Unit(0), 1) && forall x :: 0 < x < 6 ==>
              refs[x] == Reference(Unit(1), 0)
  {
    [Reference(Unit(0), 1)] + seq(5, _ => Reference(Unit(1), 0))
  }

  lemma {:induction false} UnitDistance(q: Vec, d: nat, n: nat)
    requires q == ZERO_VECTOR && d < DIMS && n <= DIMS
    ensures SqSum(q, Unit(d), n) == if d < n then 1 else 0
    decreases n
  {
    if n > 0 {
      UnitDistance(q, d, n - 1);
      assert q[n - 1] == 0 && Sq(0 - 1) == 1 && Sq(0) == 0;
    }
  }

  lemma SignKey(v: Vec, s: Scheme)
    requires s == BY_SIGN
    ensures ValidPredicates(s.predicates) && TreeKey(v, s) == if v[0] > 0 then 1 else 0
  {
    var ps := s.predicates;
    assert KeyPrefix(v, ps, 0) == 0 && WalkNode(v, ps, 0) == 0 && Side(v, ps, 0) == (v[0] > 0);
    assert KeyPrefix(v, ps, 1) == if v[0] > 0 then 1 else 0;
  }

  lemma TiedValid(refs: seq<Reference>, q: Vec)
    requires refs == TiedRefs() && q == ZERO_VECTOR
    ensures ValidInputs(refs, q) && SchemeFits(BY_SIGN)
  {
    assert InDomain(Unit(0), SCALE) && InDomain(Unit(1), SCALE);
    EitherDomainIsValid(refs, q, SCALE, MEANT);
  }

  ghost predicate Tied(c: Ctx) { c.q == ZERO_VECTOR && c.refs == TiedRefs() && c.scheme == BY_SIGN && Fits(c) }

  /** What a scan of reference `x` offers. */
  function TiedAt(x: nat): Slot { if x == 0 then Slot(1, 1, 0, 1) else Slot(1, 0, x, 0) }

  lemma UnitSlot(c: Ctx, x: nat, d: nat)
    requires Fits(c) && c.q == ZERO_VECTOR && c.scheme == BY_SIGN && d <= 1
    requires x < |c.refs| && c.refs[x] == Reference(Unit(d), 1 - d)
    ensures RefSlot(c, x) == Slot(1, 1 - d, x, 1 - d)
  {
    UnitDistance(c.q, d, DIMS);
    assert Unit(d)[0] == 1 - d;
    SignKey(Unit(d), c.scheme);
  }

  /** The slots and the keys, without the vectors. */
  ghost predicate AllTied(c: Ctx) {
    && Fits(c) && |c.refs| == 6 && Home(None, 0) == {0}
    && forall x: nat :: x < 6 ==> RefSlot(c, x) == TiedAt(x) && TreeKey(c.refs[x].vector, c.scheme) == TiedAt(x).key
  }

  lemma TiedAll(c: Ctx)
    requires Tied(c)
    ensures AllTied(c)
  {
    forall x: nat | x < 6
      ensures RefSlot(c, x) == TiedAt(x) && TreeKey(c.refs[x].vector, c.scheme) == TiedAt(x).key
    {
      UnitSlot(c, x, if x == 0 then 0 else 1);
    }
  }

  function Five(from: nat): (b: seq<Slot>)
    ensures |b| == K && forall i :: 0 <= i < K ==> b[i] == TiedAt(from + i)
  {
    seq(K, i requires 0 <= i < K => TiedAt(from + i))
  }

  /** The first five of candidates that are all equally far. */
  lemma FirstFive(from: nat, all: set<Slot>)
    requires from <= 1 && all == set x: nat | from <= x < 6 :: TiedAt(x)
    ensures Candidates(all) && IsTopK(Five(from), all)
  {
    var b := Five(from);
    forall s | s in all ensures s in b || !Before(s, b[K - 1]) {
      var x: nat :| from <= x < 6 && s == TiedAt(x);
      if x < from + K { assert b[x - from] == s; }
    }
  }

  lemma {:induction false} OneLabel(b: seq<Slot>, first: nat)
    requires b != [] && b[0].lbl == first && forall i :: 1 <= i < |b| ==> b[i].lbl == 0
    ensures LabelSum(b) == first
  {
    if |b| > 1 { OneLabel(b[..|b| - 1], first); }
  }

  lemma HomeIsFive(c: Ctx)
    requires AllTied(c)
    ensures HomeSlots(c, None, 0) == set x: nat | 1 <= x < 6 :: TiedAt(x)
  {
    var home, five := HomeSlots(c, None, 0), set x: nat | 1 <= x < 6 :: TiedAt(x);
    OwnedAreFive(c);
    forall s | s in home ensures s in five {
      var x: nat :| x in Owned(c.refs, c.scheme, {0}) && x < 6 && s == RefSlot(c, x);
    }
    forall s | s in five ensures s in home {
      var x: nat :| 1 <= x < 6 && s == TiedAt(x);
      assert x in Owned(c.refs, c.scheme, {0}) && s == RefSlot(c, x);
    }
  }

  lemma OwnedAreFive(c: Ctx)
    requires AllTied(c)
    ensures forall x: nat :: x in Owned(c.refs, c.scheme, {0}) <==> 1 <= x < 6
  {
  }

  lemma CountFive(from: nat)
    requires from <= 1
    ensures LabelSum(Five(from)) == 1 - from && Five(from)[K - 1].dist == 1
  {
    OneLabel(Five(from), 1 - from);
  }

  /** The five references of the query's partition are its nearest, and none is a fraud. */
  lemma {:induction false} HomeCount(c: Ctx, home: seq<Slot>)
    requires AllTied(c) && IsTopK(home, HomeSlots(c, None, 0))
    ensures LabelSum(home) == 0 && |home| == K && home[K - 1].dist == 1
  {
    HomeIsFive(c);
    FirstFive(1, HomeSlots(c, None, 0));
    TopKUnique(Five(1), HomeSlots(c, None, 0), home);
    CountFive(1);
  }

  lemma ScannedAreSix(c: Ctx)
    requires AllTied(c)
    ensures Scanned(c, None, 6) == set x: nat | 0 <= x < 6 :: TiedAt(x)
  {
  }

  /** The scan meets the fraud first. */
  lemma {:induction false} ScanCount(c: Ctx, scan: seq<Slot>)
    requires AllTied(c) && IsTopK(scan, Scanned(c, None, 6))
    ensures LabelSum(scan) == 1
  {
    ScannedAreSix(c);
    FirstFive(0, Scanned(c, None, 6));
    TopKUnique(Five(0), Scanned(c, None, 6), scan);
    CountFive(0);
  }

  lemma OtherIsFraud(refs: seq<Reference>, s: Scheme, key: nat, x: nat)
    requires refs == TiedRefs() && s == BY_SIGN && key != 0
    requires ValidPredicates(s.predicates) && x in Owned(refs, s, {key})
    ensures x < |refs| && refs[x].vector == Unit(0)
  {
    SignKey(refs[x].vector, s);
  }

  /** The other partition's box is the fraud alone, at the same distance. */
  lemma OtherBox(w: World, i: nat)
    requires WorldOk(w) && Tied(w.c) && i < |w.ix.partitions| && w.ix.partitions[i].key != 0
    ensures LowerBoundBox(w.c.q, w.ix.partitions[i].lo, w.ix.partitions[i].hi) >= 1
  {
    var p, t := w.ix.partitions[i], w.trees[i];
    assert PartitionOk(w.ix, w.c.refs, w.lanes, p, t);
    forall x | x in Ids(t) ensures x < |w.c.refs| && w.c.refs[x].vector == Unit(0) {
      assert x in multiset(Ids(t));
      OtherIsFraud(w.c.refs, w.c.scheme, p.key, x);
    }
    BoxOfOne(w.c.refs, Ids(t), p.lo, p.hi, Unit(0));
    UnitIsSmall(w.c.q, p.lo);
    UnitBound(w.c.q, p.lo);
  }

  lemma OtherIsAsFar(w: World)
    requires WorldOk(w) && Tied(w.c)
    ensures OthersFar(w, None, 0, 1)
  {
    forall i | 0 <= i < |w.ix.partitions| && w.ix.partitions[i].key != 0
      ensures LowerBoundBox(w.c.q, w.ix.partitions[i].lo, w.ix.partitions[i].hi) >= 1
    {
      OtherBox(w, i);
    }
  }

  lemma BoxOfOne(refs: seq<Reference>, ids: seq<nat>, lo: Vec, hi: Vec, v: Vec)
    requires IsBox(refs, ids, lo, hi) && forall x :: x in ids ==> x < |refs| && refs[x].vector == v
    ensures lo == v == hi
  {
    forall d | 0 <= d < PACKED_DIMS ensures lo[d] == v[d] == hi[d] {
      assert Attains(refs, ids, d, lo[d]) && Attains(refs, ids, d, hi[d]);
    }
  }

  lemma UnitIsSmall(q: Vec, v: Vec)
    requires q == ZERO_VECTOR && v == Unit(0)
    ensures Small(q) && Small(v) && q[0] == 0 && v[0] == 1
  {
  }

  lemma UnitBound(q: Vec, v: Vec)
    requires Small(q) && Small(v) && q[0] == 0 && v[0] == 1
    ensures LowerBoundBox(q, v, v) >= 1
  {
    LowerBoundExact(q, v, v);
    GapsRise(q, v, v, 1, PACKED_DIMS);
    FirstGap(q, v);
  }

  lemma {:induction false} FirstGap(q: Vec, v: Vec)
    requires q[0] == 0 && v[0] == 1
    ensures GapSum(q, v, v, 1) == 1
  {
    assert GapSum(q, v, v, 0) == 0 && Gap(q[0], v[0], v[0]) == 1 && Sq(1) == 1;
  }

  lemma {:induction false} GapsRise(q: Vec, lo: Vec, hi: Vec, m: nat, n: nat)
    requires m <= n <= PACKED_DIMS
    ensures GapSum(q, lo, hi, m) <= GapSum(q, lo, hi, n)
    decreases n
  {
    if m < n { GapsRise(q, lo, hi, m, n - 1); }
  }

  /** For every leaf size, split strategy and scoring, the search and the plain scan of these
      references count differently, although nothing was deferred and no early exit taken. */
  method TiedAcrossPartitions(leafSize: nat, strategy: SplitStrategy, score: (seq<nat>, Training.Candidate) -> real)
    returns (count: nat, best: array<Slot>, ghost scan: seq<Slot>, ghost c: Ctx)
    ensures Tied(c) && best.Length == K && count == LabelSum(best[..]) && IsTopK(scan, Scanned(c, None, 6))
    ensures count == 0 && LabelSum(scan) == 1
  {
    var refs, q := TiedRefs(), ZERO_VECTOR;
    TiedValid(refs, q);
    ValidIsStorable(refs, q);
    var ix, lanes, trees := BuildAndOpen(refs, leafSize, BY_SIGN, strategy, score);
    c := Ctx(q, refs, ix.scheme);
    ValidFits(c);
    var ids;
    ghost var nearest;
    ids, scan, nearest := PlainScan(q, refs, None, c);
    ghost var answer, home;
    ghost var w := World(ix, c, lanes, trees);
    count, best, answer, home := Predict.Predict(ix, q, None, false, 0, w);
    SignKey(q, ix.scheme);
    TiedAll(c);
    HomeCount(c, home);
    ScanCount(c, scan);
    OtherIsAsFar(w);
  }

  // ----- a tie that no scheme can break -----

  ghost predicate AllAtHome(c: Ctx)
    requires ValidPredicates(c.scheme.predicates)
  {
    forall x: nat :: x < |c.refs| ==> KeyAt(c, x) == TreeKey(c.q, c.scheme)
  }

  lemma OwnedIsHome(c: Ctx, key: nat, x: nat)
    requires ValidPredicates(c.scheme.predicates) && AllAtHome(c) && x in Owned(c.refs, c.scheme, {key})
    ensures key == TreeKey(c.q, c.scheme)
  {
    assert KeyAt(c, x) == TreeKey(c.q, c.scheme);
  }

  lemma BoxOfSome(refs: seq<Reference>, ids: seq<nat>, lo: Vec, hi: Vec) returns (x: nat)
    requires IsBox(refs, ids, lo, hi)
    ensures x in ids
  {
    assert Attains(refs, ids, 0, lo[0]);
    x :| x in ids;
  }

  /** Every partition has a reference, so there is none beside the query's own. */
  lemma {:induction false} OnlyHome(w: World, i: nat)
    requires WorldOk(w) && AllAtHome(w.c) && i < |w.ix.partitions|
    ensures w.ix.partitions[i].key == TreeKey(w.c.q, w.c.scheme)
  {
    var p, t := w.ix.partitions[i], w.trees[i];
    assert PartitionOk(w.ix, w.c.refs, w.lanes, p, t);
    var x := BoxOfSome(w.c.refs, Ids(t), p.lo, p.hi);
    assert x in multiset(Ids(t));
    OwnedIsHome(w.c, p.key, x);
  }

  lemma {:induction false} HomeIsAll(c: Ctx, key: nat)
    requires Fits(c) && AllAtHome(c) && key == TreeKey(c.q, c.scheme)
    ensures HomeSlots(c, None, key) == AllSlots(c, None) == Scanned(c, None, |c.refs|)
  {
    ScanOfAll(c);
    forall x: nat | x < |c.refs| ensures x in Owned(c.refs, c.scheme, {key}) {
      assert KeyAt(c, x) == key;
    }
    assert Home(None, key) == {key};
    forall s ensures s in HomeSlots(c, None, key) <==> s in Scanned(c, None, |c.refs|) {
      if s in Scanned(c, None, |c.refs|) {
        var x: nat :| x < |c.refs| && s == RefSlot(c, x);
        assert x in Owned(c.refs, c.scheme, {key});
      }
    }
  }

  /** All references at the place of the query: whatever their labels, the search counts like
      the plain scan, for every leaf size, scheme, split strategy and scoring. */
  method OnePlace(refs: seq<Reference>, leafSize: nat, scheme: Scheme, strategy: SplitStrategy,
                  score: (seq<nat>, Training.Candidate) -> real, q: Vec)
    returns (count: nat, best: array<Slot>, ghost scan: seq<Slot>, ghost c: Ctx)
    requires ValidInputs(refs, q) && SchemeFits(scheme) && forall x :: 0 <= x < |refs| ==> refs[x].vector == q
    ensures c.q == q && c.refs == refs && IsPrepared(refs, scheme, score, c.scheme) && Fits(c)
    ensures best.Length == K && IsTopK(scan, Scanned(c, None, |refs|))
    ensures best[..] == scan && count == LabelSum(scan)
  {
    ValidIsStorable(refs, q);
    var ix, lanes, trees := BuildAndOpen(refs, leafSize, scheme, strategy, score);
    c := Ctx(q, refs, ix.scheme);
    ValidFits(c);
    var ids;
    ghost var nearest;
    ids, scan, nearest := PlainScan(q, refs, None, c);
    ghost var answer, home;
    ghost var w := World(ix, c, lanes, trees);
    count, best, answer, home := Predict.Predict(ix, q, None, false, 0, w);
    HomeDecides(w, home, scan);
  }

  lemma {:induction false} HomeDecides(w: World, home: seq<Slot>, scan: seq<Slot>)
    requires WorldOk(w) && AllAtHome(w.c) && |home| == K
    requires IsTopK(home, HomeSlots(w.c, None, TreeKey(w.c.q, w.c.scheme)))
    requires IsTopK(scan, Scanned(w.c, None, |w.c.refs|))
    ensures OthersFar(w, None, TreeKey(w.c.q, w.c.scheme), home[K - 1].dist) && home == scan
  {
    HomeIsAll(w.c, TreeKey(w.c.q, w.c.scheme));
    ScanOfAll(w.c);
    TopKUnique(home, Scanned(w.c, None, |w.c.refs|), scan);
    forall i | 0 <= i < |w.ix.partitions| ensures w.ix.partitions[i].key == TreeKey(w.c.q, w.c.scheme) {
      OnlyHome(w, i);
    }
  }

  lemma {:induction false} NoDistance(q: Vec, n: nat)
    requires n <= DIMS
    ensures SqSum(q, q, n) == 0
    decreases n
  {
    if n > 0 {
      NoDistance(q, n - 1);
      assert Sq(0) == 0;
    }
  }

  /** Such references may disagree at the cut: disagreement alone is not enough for a scheme
      with which search and scan differ. */
  lemma {:induction false} OnePlaceDisagrees(c: Ctx)
    requires Fits(c) && |c.refs| == 6 && c.refs[0] == Reference(c.q, 1)
    requires forall x: nat :: 0 < x < 6 ==> c.refs[x] == Reference(c.q, 0)
    ensures !LabelsAgreeAtCut(AllSlots(c, None))
  {
    var all, key := AllSlots(c, None), TreeKey(c.q, c.scheme);
    NoDistance(c.q, DIMS);
    ScanOfAll(c);
    assert forall x: nat :: x < 6 ==> RefSlot(c, x) == PlacedAt(x, key);
    FivePlaced(all, key);
  }

  function PlacedAt(x: nat, key: nat): Slot { Slot(0, if x == 0 then 1 else 0, x, key) }

  lemma FivePlaced(all: set<Slot>, key: nat)
    requires all == set x: nat | x < 6 :: PlacedAt(x, key)
    ensures !LabelsAgreeAtCut(all)
  {
    var b := seq(K, x requires 0 <= x < K => PlacedAt(x, key));
    forall s | s in all ensures s in b || !Before(s, b[K - 1]) {
      var x: nat :| x < 6 && s == PlacedAt(x, key);
      if x < K { assert b[x] == s; }
    }
    assert IsTopK(b, all) && PlacedAt(5, key) in all;
    assert b[0].lbl == 1 && PlacedAt(5, key) !in b;
    assert !Agreeing(b, all);
  }
}
