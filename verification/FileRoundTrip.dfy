/** What the loader reads back from what the writer wrote. */
module FileRoundTrip {
  import opened Base
  import opened Bytes
  import opened Routing
  import opened KdTree
  import opened Index
  import opened Format
  import opened Layout
  import opened Loader

  /** Every number fits the field it is written to. */
  ghost predicate Encodable(f: File) {
    && f.refCount <= I32_MAX && |f.partitions| <= I32_MAX && |f.nodes| <= I32_MAX && |f.lanes| / LANES <= I32_MAX
    && SchemeFits(f.scheme) && |f.lanes| % LANES == 0
    && (forall i :: 0 <= i < |f.partitions| ==> PartitionFits(f.partitions[i]))
    && (forall i :: 0 <= i < |f.nodes| ==> NodeFits(f.nodes[i]))
    && (forall k :: 0 <= k < |f.lanes| ==> LaneFits(f.lanes[k]))
  }

  predicate PredicateFits(p: TreePredicate) { p.dim < 256 && Fits16(p.threshold) && (p.enabled ==> p.dim < DIMS) }

  predicate SchemeFits(s: Scheme) {
    s.treeDepth <= I16_MAX && |s.predicates| <= I16_MAX && forall i :: 0 <= i < |s.predicates| ==>
      PredicateFits(s.predicates[i])
  }

  predicate LaneFits(l: Lane) { VecFits(l.vector) && l.lbl < 256 && FitsU32(l.refIndex) }

  // ----- the loaded file as the search sees it -----

  predicate Contained(m: Loaded) {
    && m.partitionsBase + m.partitionCount * PARTITION_STRIDE <= |m.bytes|
    && m.nodesBase + m.nodeCount * NODE_STRIDE <= |m.bytes| && m.classBitsBase + m.nodeCount <= |m.bytes|
    && m.vectorsBase + 2 * m.vectorsLen <= |m.bytes| && m.labelsBase + m.labelsLen <= |m.bytes|
    && m.refIndicesBase + 4 * m.refIndicesLen <= |m.bytes|
  }

  function View(m: Loaded): Index
    requires Contained(m)
  {
    Index(PartitionsIn(m.bytes, m.partitionsBase, m.partitionCount),
          NodesIn(m.bytes, m.nodesBase, m.classBitsBase, m.nodeCount),
          ComponentsIn(m.bytes, m.vectorsBase, m.vectorsLen), LabelsIn(m.bytes, m.labelsBase, m.labelsLen),
          RefIndicesIn(m.bytes, m.refIndicesBase, m.refIndicesLen), m.keyToPartition, m.activeKeys, m.scheme)
  }

  function PartitionsIn(b: seq<byte>, base: nat, n: nat): seq<Partition>
    requires base + n * PARTITION_STRIDE <= |b|
  {
    seq(n, i requires 0 <= i < n => PartitionAt(b, base, i))
  }

  function NodesIn(b: seq<byte>, base: nat, bitsBase: nat, n: nat): seq<Node>
    requires base + n * NODE_STRIDE <= |b| && bitsBase + n <= |b|
  {
    seq(n, i requires 0 <= i < n => NodeAt(b, base, bitsBase, i))
  }

  function ComponentsIn(b: seq<byte>, base: nat, n: nat): seq<int>
    requires base + 2 * n <= |b|
  {
    seq(n, i requires 0 <= i < n => I16At(b, base + 2 * i))
  }

  function LabelsIn(b: seq<byte>, base: nat, n: nat): seq<nat>
    requires base + n <= |b|
  {
    seq(n, k requires 0 <= k < n => b[base + k] as nat)
  }

  function RefIndicesIn(b: seq<byte>, base: nat, n: nat): seq<nat>
    requires base + 4 * n <= |b|
  {
    seq(n, k requires 0 <= k < n => U32At(b, base + 4 * k))
  }

  /** The index that a file stands for. */
  function IndexOfFile(f: File): Index {
    var table := KeyTable(KeysOf(f.partitions));
    Index(f.partitions, f.nodes, Interleaved(f.lanes), LabelsOf(f.lanes), RefIndicesOf(f.lanes), table,
          ActiveKeys(table, KEY_LOOKUP_SIZE), f.scheme)
  }

  function KeysOf(ps: seq<Partition>): seq<nat> { seq(|ps|, i requires 0 <= i < |ps| => ps[i].key) }

  function LabelsOf(lanes: seq<Lane>): seq<nat> { seq(|lanes|, k requires 0 <= k < |lanes| => lanes[k].lbl) }

  function RefIndicesOf(lanes: seq<Lane>): seq<nat> { seq(|lanes|, k requires 0 <= k < |lanes| => lanes[k].refIndex) }

  // ----- pieces of a concatenation -----

  predicate SliceIs(b: seq<byte>, at: nat, s: seq<byte>) { at + |s| <= |b| && b[at..at + |s|] == s }

  lemma Pieces(a: seq<byte>, b: seq<byte>, c: seq<byte>, d: seq<byte>, e: seq<byte>, g: seq<byte>, s: seq<byte>)
    requires s == a + b + c + d + e + g
    ensures s[..|a|] == a && s[|a|..|a| + |b|] == b && s[|a| + |b|..|a| + |b| + |c|] == c
    ensures s[|a| + |b| + |c|..|a| + |b| + |c| + |d|] == d
    ensures s[|a| + |b| + |c| + |d|..|a| + |b| + |c| + |d| + |e|] == e && s[|a| + |b| + |c| + |d| + |e|..] == g
  {
  }

  lemma FrontFields(refCount: int, s: seq<byte>)
    requires s == HeaderFront(refCount)
    ensures |s| == 20 && s[..8] == MAGIC && s[8..12] == I32(SCALE) && s[12..16] == I32(PACKED_DIMS)
    ensures s[16..20] == I32(refCount)
  {
    Pieces(MAGIC, I32(SCALE), I32(PACKED_DIMS), I32(refCount), [], [], s);
  }

  lemma BackFields(scheme: Scheme, s: seq<byte>)
    requires s == HeaderBack(scheme)
    ensures |s| == 10 + 4 * |scheme.predicates|
    ensures s[..2] == I16(SCHEME_ID_LEARNED_TREE) && s[2..4] == I16(scheme.treeDepth) && s[4..6] == I16(0)
    ensures s[6..8] == I16(0)
    ensures s[8..10] == I16(|scheme.predicates|) && s[10..] == PredicateSection(scheme.predicates)
  {
    Pieces(I16(SCHEME_ID_LEARNED_TREE), I16(scheme.treeDepth), I16(0), I16(0), I16(|scheme.predicates|),
           PredicateSection(scheme.predicates), s);
    FlatLength(p => PredicateBytes(p), scheme.predicates, 4);
  }

  // ----- the header -----

  lemma Field32(b: seq<byte>, at: nat, v: int)
    requires at + 4 <= |b| && b[at..at + 4] == I32(v) && Fits32(v)
    ensures I32At(b, at) == v
  {
    I32RoundTrip(v);
  }

  lemma Field16(b: seq<byte>, at: nat, v: int)
    requires at + 2 <= |b| && b[at..at + 2] == I16(v) && Fits16(v)
    ensures I16At(b, at) == v
  {
    I16RoundTrip(v);
  }

  function HeaderOf(f: File): seq<byte> { Header(f.refCount, f.scheme, |f.partitions|, |f.nodes|, |f.lanes| / LANES) }

  function FileFields(f: File): Fields {
    Fields(SCALE, PACKED_DIMS, f.refCount, |f.partitions|, |f.nodes|, |f.lanes| / LANES, SCHEME_ID_LEARNED_TREE,
           f.scheme.treeDepth, 0, 0, |f.scheme.predicates|)
  }

  lemma HeaderSlices(f: File, s: seq<byte>)
    requires s == HeaderOf(f)
    ensures |s| == HEADER_BYTES + 4 * |f.scheme.predicates|
    ensures s[..20] == HeaderFront(f.refCount) && s[20..24] == I32(|f.partitions|) && s[24..28] == I32(|f.nodes|)
    ensures s[28..32] == I32(|f.lanes| / LANES) && s[32..] == HeaderBack(f.scheme)
  {
    FrontFields(f.refCount, HeaderFront(f.refCount));
    BackFields(f.scheme, HeaderBack(f.scheme));
    Pieces(HeaderFront(f.refCount), I32(|f.partitions|), I32(|f.nodes|), I32(|f.lanes| / LANES), HeaderBack(f.scheme),
           [], s);
  }

  lemma Slices<T>(b: seq<T>, s: seq<T>, n: nat, i: nat, j: nat)
    requires i <= j <= n <= |b| && n <= |s| && b[..n] == s[..n]
    ensures b[i..j] == s[i..j]
  {
    assert forall k :: 0 <= k < j - i ==> b[i..j][k] == b[..n][i + k] == s[..n][i + k] == s[i..j][k];
  }

  lemma FrontRoundTrip(f: File, b: seq<byte>)
    requires Encodable(f) && |b| >= 20 && b[..20] == HeaderFront(f.refCount)
    ensures b[..8] == MAGIC && I32At(b, 8) == SCALE && I32At(b, 12) == PACKED_DIMS && I32At(b, 16) == f.refCount
  {
    var s := HeaderFront(f.refCount);
    FrontFields(f.refCount, s);
    Slices(b, s, 20, 0, 8);
    Slices(b, s, 20, 8, 12);
    Slices(b, s, 20, 12, 16);
    Slices(b, s, 20, 16, 20);
    Field32(b, 8, SCALE);
    Field32(b, 12, PACKED_DIMS);
    Field32(b, 16, f.refCount);
  }

  lemma BackSlice(b: seq<byte>, s: seq<byte>, k: nat)
    requires k <= 8 && |b| >= HEADER_BYTES && |s| >= 10 && b[32..HEADER_BYTES] == s[..10]
    ensures b[32 + k..34 + k] == s[k..k + 2]
  {
    SubSlice(b, 32, 10, k, k + 2);
    SubSlice(s, 0, 10, k, k + 2);
  }

  lemma BackRoundTrip(f: File, b: seq<byte>)
    requires Encodable(f) && |b| >= HEADER_BYTES && b[32..HEADER_BYTES] == HeaderBack(f.scheme)[..10]
    ensures I16At(b, 32) == SCHEME_ID_LEARNED_TREE && I16At(b, 34) == f.scheme.treeDepth
    ensures I16At(b, 36) == 0 == I16At(b, 38)
    ensures I16At(b, 40) == |f.scheme.predicates|
  {
    var s := HeaderBack(f.scheme);
    BackFields(f.scheme, s);
    BackSlice(b, s, 0);
    BackSlice(b, s, 2);
    BackSlice(b, s, 4);
    BackSlice(b, s, 6);
    BackSlice(b, s, 8);
    Field16(b, 32 + 0, SCHEME_ID_LEARNED_TREE);
    Field16(b, 32 + 2, f.scheme.treeDepth);
    Field16(b, 32 + 4, 0);
    Field16(b, 32 + 6, 0);
    Field16(b, 32 + 8, |f.scheme.predicates|);
  }

  /** The fixed part of the header reads back, back-patched counts included. */
  lemma HeaderRoundTrip(f: File, b: seq<byte>)
    requires Encodable(f) && |b| >= HEADER_BYTES && b[..HEADER_BYTES] == HeaderOf(f)[..HEADER_BYTES]
    ensures b[..8] == MAGIC && FieldsOf(b) == FileFields(f)
  {
    var s := HeaderOf(f);
    HeaderSlices(f, s);
    Slices(b, s, HEADER_BYTES, 0, 20);
    Slices(b, s, HEADER_BYTES, 20, 24);
    Slices(b, s, HEADER_BYTES, 24, 28);
    Slices(b, s, HEADER_BYTES, 28, 32);
    Slices(b, s, HEADER_BYTES, 32, HEADER_BYTES);
    FrontRoundTrip(f, b);
    assert s[32..][..10] == s[32..HEADER_BYTES];
    BackRoundTrip(f, b);
    Field32(b, 20, |f.partitions|);
    Field32(b, 24, |f.nodes|);
    Field32(b, 28, |f.lanes| / LANES);
  }

  // ----- the predicates -----

  function PredicateNumber(b: seq<byte>, at: nat, i: nat): Result<TreePredicate> { ParsePredicate(b, at + 4 * i) }

  /** The predicates load exactly when they are all there and the enabled ones name a feature. */
  lemma {:induction false} PredicatesLoad(b: seq<byte>, at: nat, n: nat)
    ensures ParsePredicates(b, at, n).Ok? <==> forall i :: 0 <= i < n ==> PredicateNumber(b, at, i).Ok?
    ensures ParsePredicates(b, at, n).Ok? ==> |ParsePredicates(b, at, n).value| == n
    ensures ParsePredicates(b, at, n).Ok? ==>
              forall i :: 0 <= i < n ==> PredicateNumber(b, at, i) == Ok(ParsePredicates(b, at, n).value[i])
  {
    if n > 0 {
      PredicatesLoad(b, at, n - 1);
      var front, last := ParsePredicates(b, at, n - 1), PredicateNumber(b, at, n - 1);
      assert ParsePredicates(b, at, n).Ok? <==> front.Ok? && last.Ok?;
      assert front.Ok? && last.Ok? ==> ParsePredicates(b, at, n).value == front.value + [last.value];
    }
  }

  lemma PredicateLength(ps: seq<TreePredicate>)
    ensures forall p :: p in ps ==> |((p: TreePredicate) => PredicateBytes(p))(p)| == 4
    ensures |PredicateSection(ps)| == 4 * |ps|
  {
    FlatLength(p => PredicateBytes(p), ps, 4);
  }

  lemma PredicateRoundTrip(b: seq<byte>, at: nat, p: TreePredicate)
    requires at + 4 <= |b| && b[at..at + 4] == PredicateBytes(p) && PredicateFits(p)
    ensures ParsePredicate(b, at) == Ok(p)
  {
    var s := b[at..at + 4];
    assert s[0] == p.dim as byte && s[1] == if p.enabled then 1 else 0;
    assert s[2..4] == I16(p.threshold);
    SubSlice(b, at, 4, 2, 4);
    Field16(b, at + 2, p.threshold);
  }

  lemma {:induction false} PredicatesRoundTrip(b: seq<byte>, at: nat, ps: seq<TreePredicate>)
    requires at + 4 * |ps| <= |b| && b[at..at + 4 * |ps|] == PredicateSection(ps)
    requires forall i :: 0 <= i < |ps| ==> PredicateFits(ps[i])
    ensures ParsePredicates(b, at, |ps|) == Ok(ps)
  {
    PredicateLength(ps);
    forall i | 0 <= i < |ps| ensures PredicateNumber(b, at, i) == Ok(ps[i]) {
      FlatAt(p => PredicateBytes(p), ps, 4, i);
      SubSlice(b, at, 4 * |ps|, 4 * i, 4 * i + 4);
      PredicateRoundTrip(b, at + 4 * i, ps[i]);
    }
    PredicatesLoad(b, at, |ps|);
    assert ParsePredicates(b, at, |ps|).Ok?;
    SameValues(ParsePredicates(b, at, |ps|).value, ps, b, at);
  }

  lemma SameValues(qs: seq<TreePredicate>, ps: seq<TreePredicate>, b: seq<byte>, at: nat)
    requires |qs| == |ps| && forall i :: 0 <= i < |ps| ==> PredicateNumber(b, at, i) == Ok(ps[i])
    requires forall i :: 0 <= i < |ps| ==> PredicateNumber(b, at, i) == Ok(qs[i])
    ensures qs == ps
  {
    forall i | 0 <= i < |ps| ensures qs[i] == ps[i] {
      assert PredicateNumber(b, at, i) == Ok(qs[i]);
    }
  }

  // ----- where the writer begins each section -----

  function NodesAt(f: File): nat { HEADER_BYTES + 4 * |f.scheme.predicates| + PARTITION_STRIDE * |f.partitions| }

  function VectorsAt(f: File): nat { NodesAt(f) + NODE_STRIDE * |f.nodes| }

  function LabelsAt(f: File): nat { VectorsAt(f) + 2 * |Interleaved(f.lanes)| }

  function RefIndicesAt(f: File): nat { AlignCursor(|BeforePadding(f)|, 4) }

  function ClassBitsAt(f: File): nat { RefIndicesAt(f) + 4 * |f.lanes| }

  lemma SectionLengths(f: File)
    ensures |PartitionSection(f.partitions)| == PARTITION_STRIDE * |f.partitions|
    ensures |NodeSection(f.nodes)| == NODE_STRIDE * |f.nodes|
    ensures |VecBytes(Interleaved(f.lanes))| == 2 * |Interleaved(f.lanes)| && |LabelBytes(f.lanes)| == |f.lanes|
    ensures |RefBytes(f.lanes)| == 4 * |f.lanes| && |BitBytes(f.nodes)| == |f.nodes|
  {
    forall p | p in f.partitions ensures |PartitionBytes(p)| == PARTITION_STRIDE { VecLength(p.lo); VecLength(p.hi); }
    forall n | n in f.nodes ensures |NodeBytes(n)| == NODE_STRIDE { VecLength(n.lo); VecLength(n.hi); }
    FlatLength(p => PartitionBytes(p), f.partitions, PARTITION_STRIDE);
    FlatLength(n => NodeBytes(n), f.nodes, NODE_STRIDE);
    FlatLength(x => I16(x), Interleaved(f.lanes), 2);
    FlatLength(l => LabelByte(l), f.lanes, 1);
    FlatLength(l => RefByte(l), f.lanes, 4);
    FlatLength(n => BitByte(n), f.nodes, 1);
  }

  lemma FivePieces(a: seq<byte>, b: seq<byte>, c: seq<byte>, d: seq<byte>, e: seq<byte>, s: seq<byte>, i: nat, j: nat,
                   k: nat, l: nat)
    requires s == a + b + c + d + e && i == |a| && j == i + |b| && k == j + |c| && l == k + |d|
    ensures SliceIs(s, 0, a) && SliceIs(s, i, b) && SliceIs(s, j, c) && SliceIs(s, k, d) && SliceIs(s, l, e)
    ensures |s| == l + |e|
  {
  }

  lemma HeaderLength(f: File)
    ensures |HeaderOf(f)| == HEADER_BYTES + 4 * |f.scheme.predicates|
  {
    HeaderSlices(f, HeaderOf(f));
  }

  lemma FrontSlices(f: File, s: seq<byte>)
    requires s == BeforePadding(f)
    ensures |s| == LabelsAt(f) + |f.lanes| && SliceIs(s, 0, HeaderOf(f))
    ensures SliceIs(s, RecordsAt(f), PartitionSection(f.partitions))
    ensures SliceIs(s, NodesAt(f), NodeSection(f.nodes)) && SliceIs(s, VectorsAt(f), VecBytes(Interleaved(f.lanes)))
    ensures SliceIs(s, LabelsAt(f), LabelBytes(f.lanes))
  {
    SectionLengths(f);
    HeaderLength(f);
    FrontPieces(f, HeaderOf(f), PartitionSection(f.partitions), NodeSection(f.nodes), VecBytes(Interleaved(f.lanes)),
                LabelBytes(f.lanes), s);
  }

  lemma FrontPieces(f: File, a: seq<byte>, b: seq<byte>, c: seq<byte>, d: seq<byte>, e: seq<byte>, s: seq<byte>)
    requires s == a + b + c + d + e && |a| == RecordsAt(f) && RecordsAt(f) + |b| == NodesAt(f)
    requires NodesAt(f) + |c| == VectorsAt(f) && VectorsAt(f) + |d| == LabelsAt(f) && |e| == |f.lanes|
    ensures |s| == LabelsAt(f) + |f.lanes| && SliceIs(s, 0, a) && SliceIs(s, RecordsAt(f), b)
    ensures SliceIs(s, NodesAt(f), c) && SliceIs(s, VectorsAt(f), d) && SliceIs(s, LabelsAt(f), e)
  {
    FivePieces(a, b, c, d, e, s, RecordsAt(f), NodesAt(f), VectorsAt(f), LabelsAt(f));
  }

  lemma RearPieces(a: seq<byte>, c: seq<byte>, d: seq<byte>, s: seq<byte>, i: nat, j: nat)
    requires s == a + Zeros(PaddingLength(|a|, 4)) + c + d && i == AlignCursor(|a|, 4) && j == i + |c|
    ensures SliceIs(s, 0, a) && SliceIs(s, i, c) && SliceIs(s, j, d) && |s| == j + |d|
  {
  }

  lemma FileSlices(f: File, s: seq<byte>)
    requires s == Serialize(f)
    ensures |s| == ClassBitsAt(f) + |f.nodes| && SliceIs(s, 0, BeforePadding(f))
    ensures SliceIs(s, RefIndicesAt(f), RefBytes(f.lanes)) && SliceIs(s, ClassBitsAt(f), BitBytes(f.nodes))
  {
    SectionLengths(f);
    RearPieces(BeforePadding(f), RefBytes(f.lanes), BitBytes(f.nodes), s, RefIndicesAt(f), ClassBitsAt(f));
  }

  // ----- the sections read back -----

  /** A record of a section of equal records. */
  lemma {:induction false} RecordIs<T>(f: T -> seq<byte>, s: seq<T>, b: seq<byte>, at: nat, k: nat, i: nat)
    requires SliceIs(b, at, Flat(f, s)) && (forall x :: x in s ==> |f(x)| == k) && i < |s|
    ensures SliceIs(b, at + i * k, f(s[i])) && |f(s[i])| == k
  {
    FlatAt(f, s, k, i);
    var lo := RecordPlace(i, k);
    WithinSlice(b, at, Flat(f, s), lo, f(s[i]));
  }

  lemma RecordPlace(i: nat, k: nat) returns (lo: nat)
    ensures lo == i * k && (i + 1) * k == lo + k
  {
    RecordInside(i, i, k);
    RecordInside(0, i, k);
    lo := i * k;
  }

  lemma WithinSlice(b: seq<byte>, at: nat, s: seq<byte>, lo: nat, x: seq<byte>)
    requires SliceIs(b, at, s) && lo + |x| <= |s| && s[lo..lo + |x|] == x
    ensures SliceIs(b, at + lo, x)
  {
    SubSlice(b, at, |s|, lo, lo + |x|);
  }

  lemma {:induction false} PartitionsRead(f: File, b: seq<byte>, base: nat)
    requires Encodable(f) && SliceIs(b, base, PartitionSection(f.partitions))
    ensures base + |f.partitions| * PARTITION_STRIDE <= |b| && PartitionsIn(b, base, |f.partitions|) == f.partitions
  {
    SectionLengths(f);
    forall i | 0 <= i < |f.partitions| ensures PartitionAt(b, base, i) == f.partitions[i] {
      PartitionIsRead(f, b, base, i);
    }
  }

  lemma {:induction false} PartitionIsRead(f: File, b: seq<byte>, base: nat, i: nat)
    requires Encodable(f) && SliceIs(b, base, PartitionSection(f.partitions)) && i < |f.partitions|
    requires base + |f.partitions| * PARTITION_STRIDE <= |b|
    ensures PartitionAt(b, base, i) == f.partitions[i]
  {
    forall p | p in f.partitions ensures |PartitionBytes(p)| == PARTITION_STRIDE { VecLength(p.lo); VecLength(p.hi); }
    RecordIs(p => PartitionBytes(p), f.partitions, b, base, PARTITION_STRIDE, i);
    PartitionRoundTrip(b, base, i, f.partitions[i]);
  }

  lemma NodesRead(f: File, b: seq<byte>, base: nat, bitsBase: nat)
    requires Encodable(f) && SliceIs(b, base, NodeSection(f.nodes)) && SliceIs(b, bitsBase, BitBytes(f.nodes))
    ensures base + |f.nodes| * NODE_STRIDE <= |b| && bitsBase + |f.nodes| <= |b|
    ensures NodesIn(b, base, bitsBase, |f.nodes|) == f.nodes
  {
    SectionLengths(f);
    forall i | 0 <= i < |f.nodes| ensures NodesIn(b, base, bitsBase, |f.nodes|)[i] == f.nodes[i] {
      NodeRead(f, b, base, bitsBase, i);
    }
  }

  lemma NodeRead(f: File, b: seq<byte>, base: nat, bitsBase: nat, i: nat)
    requires Encodable(f) && SliceIs(b, base, NodeSection(f.nodes)) && SliceIs(b, bitsBase, BitBytes(f.nodes))
    requires i < |f.nodes|
    ensures HasRecord(b, base, i, NODE_STRIDE) && bitsBase + i < |b| && NodeAt(b, base, bitsBase, i) == f.nodes[i]
  {
    forall n | n in f.nodes ensures |NodeBytes(n)| == NODE_STRIDE { VecLength(n.lo); VecLength(n.hi); }
    RecordIs(n => NodeBytes(n), f.nodes, b, base, NODE_STRIDE, i);
    RecordIs(n => BitByte(n), f.nodes, b, bitsBase, 1, i);
    OneByte(b, bitsBase + i, BitByte(f.nodes[i]));
    NodeRoundTrip(b, base, bitsBase, i, f.nodes[i]);
  }

  lemma OneByte(b: seq<byte>, at: nat, s: seq<byte>)
    requires SliceIs(b, at, s) && |s| == 1
    ensures b[at] == s[0]
  {
    assert b[at..at + 1][0] == b[at];
  }

  lemma LabelRead(lanes: seq<Lane>, b: seq<byte>, base: nat, k: nat)
    requires SliceIs(b, base, LabelBytes(lanes)) && k < |lanes| && lanes[k].lbl < 256
    ensures base + k < |b| && b[base + k] == lanes[k].lbl
  {
    RecordIs(l => LabelByte(l), lanes, b, base, 1, k);
    OneByte(b, base + k, LabelByte(lanes[k]));
  }

  lemma LabelsRead(f: File, b: seq<byte>, base: nat)
    requires Encodable(f) && SliceIs(b, base, LabelBytes(f.lanes))
    ensures base + |f.lanes| <= |b| && LabelsIn(b, base, |f.lanes|) == LabelsOf(f.lanes)
  {
    SectionLengths(f);
    forall k | 0 <= k < |f.lanes| ensures LabelsIn(b, base, |f.lanes|)[k] == f.lanes[k].lbl {
      LabelRead(f.lanes, b, base, k);
    }
  }

  lemma RefIndexRead(lanes: seq<Lane>, b: seq<byte>, base: nat, k: nat)
    requires SliceIs(b, base, RefBytes(lanes)) && k < |lanes| && FitsU32(lanes[k].refIndex)
    ensures base + 4 * k + 4 <= |b| && U32At(b, base + 4 * k) == lanes[k].refIndex
  {
    RecordIs(l => RefByte(l), lanes, b, base, 4, k);
    U32RoundTrip(lanes[k].refIndex);
  }

  lemma RefIndicesRead(f: File, b: seq<byte>, base: nat)
    requires Encodable(f) && SliceIs(b, base, RefBytes(f.lanes))
    ensures base + 4 * |f.lanes| <= |b| && RefIndicesIn(b, base, |f.lanes|) == RefIndicesOf(f.lanes)
  {
    assert forall k :: 0 <= k < |f.lanes| ==> LaneFits(f.lanes[k]);
    IndicesRead(f.lanes, b, base);
  }

  lemma IndicesRead(lanes: seq<Lane>, b: seq<byte>, base: nat)
    requires SliceIs(b, base, RefBytes(lanes)) && forall k :: 0 <= k < |lanes| ==> FitsU32(lanes[k].refIndex)
    ensures base + 4 * |lanes| <= |b| && RefIndicesIn(b, base, |lanes|) == RefIndicesOf(lanes)
  {
    FlatLength(l => RefByte(l), lanes, 4);
    var read := RefIndicesIn(b, base, |lanes|);
    forall k | 0 <= k < |lanes| ensures read[k] == lanes[k].refIndex {
      RefIndexRead(lanes, b, base, k);
    }
  }

  lemma ComponentFits(lanes: seq<Lane>, i: nat)
    requires i < |Interleaved(lanes)| && forall k :: 0 <= k < |lanes| ==> LaneFits(lanes[k])
    ensures Fits16(Interleaved(lanes)[i])
  {
    var q, r := i / (DIMS * LANES), i % (DIMS * LANES);
    assert LaneFits(lanes[q * LANES + r % (2 * LANES) / 2]);
  }

  lemma ComponentsRead(f: File, b: seq<byte>, base: nat)
    requires Encodable(f) && SliceIs(b, base, VecBytes(Interleaved(f.lanes)))
    ensures base + 2 * |Interleaved(f.lanes)| <= |b|
    ensures ComponentsIn(b, base, |Interleaved(f.lanes)|) == Interleaved(f.lanes)
  {
    var xs := Interleaved(f.lanes);
    FlatLength(x => I16(x), xs, 2);
    forall i | 0 <= i < |xs| ensures ComponentsIn(b, base, |xs|)[i] == xs[i] {
      ComponentFits(f.lanes, i);
      ComponentRead(xs, b, base, i);
    }
  }

  lemma ComponentRead(xs: seq<int>, b: seq<byte>, base: nat, i: nat)
    requires SliceIs(b, base, VecBytes(xs)) && i < |xs| && Fits16(xs[i])
    ensures base + 2 * i + 2 <= |b| && I16At(b, base + 2 * i) == xs[i]
  {
    RecordIs(x => I16(x), xs, b, base, 2, i);
    I16RoundTrip(xs[i]);
  }

  /** The sections lie where the writer began them. */
  ghost predicate Placed(f: File, b: seq<byte>) {
    && SliceIs(b, RecordsAt(f), PartitionSection(f.partitions))
    && SliceIs(b, NodesAt(f), NodeSection(f.nodes)) && SliceIs(b, VectorsAt(f), VecBytes(Interleaved(f.lanes)))
    && SliceIs(b, LabelsAt(f), LabelBytes(f.lanes)) && SliceIs(b, RefIndicesAt(f), RefBytes(f.lanes))
    && SliceIs(b, ClassBitsAt(f), BitBytes(f.nodes))
  }

  lemma SliceInPrefix(b: seq<byte>, s: seq<byte>, at: nat, x: seq<byte>)
    requires s <= b && SliceIs(s, at, x)
    ensures SliceIs(b, at, x)
  {
    Slices(b, s, |s|, at, at + |x|);
  }

  lemma PlacedInPrefix(f: File, b: seq<byte>)
    requires Serialize(f) <= b
    ensures Placed(f, b)
  {
    var s, front := Serialize(f), BeforePadding(f);
    FileSlices(f, s);
    SliceInPrefix(b, s, RefIndicesAt(f), RefBytes(f.lanes));
    SliceInPrefix(b, s, ClassBitsAt(f), BitBytes(f.nodes));
    SliceInPrefix(b, s, 0, front);
    FrontSlices(f, front);
    SliceInPrefix(b, front, RecordsAt(f), PartitionSection(f.partitions));
    SliceInPrefix(b, front, NodesAt(f), NodeSection(f.nodes));
    SliceInPrefix(b, front, VectorsAt(f), VecBytes(Interleaved(f.lanes)));
    SliceInPrefix(b, front, LabelsAt(f), LabelBytes(f.lanes));
  }

  /** Where loading finds the sections of a file. */
  function LoadedFrom(f: File, b: seq<byte>): Loaded {
    var table := KeyTable(KeysOf(f.partitions));
    Loaded(b, f.refCount, f.scheme, HEADER_BYTES + 4 * |f.scheme.predicates|, |f.partitions|, NodesAt(f), |f.nodes|,
           VectorsAt(f), |Interleaved(f.lanes)|, LabelsAt(f), |f.lanes|, RefIndicesAt(f), |f.lanes|, ClassBitsAt(f),
           table, ActiveKeys(table, KEY_LOOKUP_SIZE))
  }

  lemma LoadedContained(f: File, b: seq<byte>)
    requires Placed(f, b)
    ensures Contained(LoadedFrom(f, b))
  {
    SectionLengths(f);
  }

  /** Every accessor returns what was written. */
  lemma ViewOfLoaded(f: File, b: seq<byte>)
    requires Encodable(f) && Placed(f, b)
    ensures Contained(LoadedFrom(f, b)) && View(LoadedFrom(f, b)) == IndexOfFile(f)
  {
    LoadedContained(f, b);
    var m := LoadedFrom(f, b);
    PartitionsRead(f, b, m.partitionsBase);
    NodesRead(f, b, m.nodesBase, m.classBitsBase);
    ComponentsRead(f, b, m.vectorsBase);
    LabelsRead(f, b, m.labelsBase);
    RefIndicesRead(f, b, m.refIndicesBase);
  }

  // ----- loading what was written -----

  function RecordsAt(f: File): nat { HEADER_BYTES + 4 * |f.scheme.predicates| }

  lemma BlockNumbers(n: nat)
    requires n % LANES == 0 && n / LANES <= I32_MAX
    ensures Usize(Usize(n / LANES) * DIMS * LANES) == n / LANES * (DIMS * LANES) && Usize(Usize(n / LANES) * LANES) == n
    ensures Usize(n / LANES * (DIMS * LANES) * 2) == 2 * (n / LANES * (DIMS * LANES)) && Usize(n * 4) == 4 * n
    ensures n / LANES * (DIMS * LANES) <= 112 * I32_MAX && n <= 8 * I32_MAX
  {
  }

  lemma KeysRead(f: File, b: seq<byte>)
    requires Encodable(f) && SliceIs(b, RecordsAt(f), PartitionSection(f.partitions))
    ensures RecordsAt(f) + |f.partitions| * PARTITION_STRIDE <= |b|
    ensures Keys(b, RecordsAt(f), |f.partitions|) == KeysOf(f.partitions)
  {
    PartitionsRead(f, b, RecordsAt(f));
    forall i | 0 <= i < |f.partitions| ensures PartitionKey(b, RecordsAt(f), i) == f.partitions[i].key {
      assert PartitionsIn(b, RecordsAt(f), |f.partitions|)[i] == f.partitions[i];
    }
  }

  lemma NoWrap(x: int)
    requires 0 <= x < USIZE
    ensures Usize(x) == x
  {
  }

  lemma BlocksPlaced(b: seq<byte>, h: Fields, scheme: Scheme, base: nat, nodesBase: nat, at: nat, components: nat,
                     lanes: nat, labels: nat, refs: nat, bits: nat, r: Result<Loaded>)
    requires base + Usize(h.partitionCount) * PARTITION_STRIDE <= |b| && at % 2 == 0
    requires at + 2 * components + 5 * lanes + 4 < USIZE
    requires labels == at + 2 * components && refs == AlignCursor(labels + lanes, 4) && bits == refs + 4 * lanes
    requires r == PlaceBlocks(b, h, scheme, base, nodesBase, at, components, lanes)
    ensures r.Ok? <==> bits + Usize(h.nodeCount) <= |b|
    ensures r.Ok? ==> r.value == LoadedAt(b, h, scheme, base, nodesBase, at, components, lanes, labels, refs, bits)
  {
    PlacesDoNotWrap(at, components, lanes, labels, refs, bits);
    assert r == CheckBlocks(b, h, scheme, base, nodesBase, at, components, lanes, labels, labels + lanes, refs, bits);
  }

  lemma PlacesDoNotWrap(at: nat, components: nat, lanes: nat, labels: nat, refs: nat, bits: nat)
    requires at + 2 * components + 5 * lanes + 4 < USIZE
    requires labels == at + 2 * components && refs == AlignCursor(labels + lanes, 4) && bits == refs + 4 * lanes
    ensures Usize(at + Usize(components * 2)) == labels && Usize(labels + lanes) == labels + lanes
    ensures Usize(refs + Usize(lanes * 4)) == bits
  {
    NoWrap(components * 2);
    NoWrap(labels);
    NoWrap(labels + lanes);
    NoWrap(lanes * 4);
    NoWrap(bits);
  }

  function LoadedAt(b: seq<byte>, h: Fields, scheme: Scheme, base: nat, nodesBase: nat, at: nat, components: nat,
                    lanes: nat, labels: nat, refs: nat, bits: nat): Loaded
    requires base + Usize(h.partitionCount) * PARTITION_STRIDE <= |b|
  {
    var table := KeyTable(Keys(b, base, Usize(h.partitionCount)));
    Loaded(b, Usize(h.refCount), scheme, base, Usize(h.partitionCount), nodesBase, Usize(h.nodeCount), at, components,
           labels, lanes, refs, lanes, bits, table, ActiveKeys(table, KEY_LOOKUP_SIZE))
  }

  lemma SizeBound(predicates: nat, partitions: nat, nodes: nat, components: nat, lanes: nat, at: nat)
    requires at == HEADER_BYTES + 4 * predicates + PARTITION_STRIDE * partitions + NODE_STRIDE * nodes
    requires predicates <= I16_MAX && partitions <= I32_MAX && nodes <= I32_MAX
    requires components <= 112 * I32_MAX && lanes <= 8 * I32_MAX
    ensures at % 2 == 0 && at + 2 * components + 5 * lanes + 4 < USIZE
  {
    Even(at, 21 + 2 * predicates + 40 * partitions + 40 * nodes);
  }

  lemma Even(n: nat, half: nat)
    requires n == 2 * half
    ensures n % 2 == 0
  {
  }

  lemma SerializedLength(f: File)
    ensures |Serialize(f)| == ClassBitsAt(f) + |f.nodes|
  {
    FileSlices(f, Serialize(f));
  }

  lemma AlignSame(n: nat, m: nat)
    requires n == m
    ensures AlignCursor(n, 4) == AlignCursor(m, 4)
  {
  }

  lemma RefIndicesAligned(f: File)
    ensures RefIndicesAt(f) == AlignCursor(LabelsAt(f) + |f.lanes|, 4)
  {
    FrontLength(f);
    AlignSame(|BeforePadding(f)|, LabelsAt(f) + |f.lanes|);
  }

  lemma FrontLength(f: File)
    ensures |BeforePadding(f)| == LabelsAt(f) + |f.lanes|
  {
    FrontSlices(f, BeforePadding(f));
  }

  /** What is left to parse once the sizes are known. */
  lemma RecordsFit(b: seq<byte>, h: Fields, scheme: Scheme, base: nat, partitions: nat, nodes: nat, components: nat,
                   lanes: nat, nodesBase: nat, at: nat, r: Result<Loaded>)
    requires h.partitionCount == partitions <= I32_MAX && h.nodeCount == nodes <= I32_MAX
    requires components == Usize(Usize(h.totalBlocks) * DIMS * LANES) && lanes == Usize(Usize(h.totalBlocks) * LANES)
    requires nodesBase == base + partitions * PARTITION_STRIDE && at == nodesBase + nodes * NODE_STRIDE
    requires r == ParseRecords(b, h, scheme, base)
    ensures if at > |b| then r.Err? else r == PlaceBlocks(b, h, scheme, base, nodesBase, at, components, lanes)
  {
  }

  lemma RecordsWith(b: seq<byte>, h: Fields, scheme: Scheme, base: nat, partitions: nat, nodes: nat, components: nat,
                    n: nat, nodesAt: nat, at: nat, labels: nat, refs: nat, bits: nat, r: Result<Loaded>)
    requires h.partitionCount == partitions <= I32_MAX && h.nodeCount == nodes <= I32_MAX
    requires components == Usize(Usize(h.totalBlocks) * DIMS * LANES) && n == Usize(Usize(h.totalBlocks) * LANES)
    requires nodesAt == base + partitions * PARTITION_STRIDE && at == nodesAt + nodes * NODE_STRIDE
    requires at % 2 == 0 && at + 2 * components + 5 * n + 4 < USIZE && r == ParseRecords(b, h, scheme, base)
    requires labels == at + 2 * components && refs == AlignCursor(labels + n, 4) && bits == refs + 4 * n
    ensures r.Ok? <==> bits + nodes <= |b|
    ensures r.Ok? ==>
              nodesAt <= |b| && r.value == LoadedAt(b, h, scheme, base, nodesAt, at, components, n, labels, refs, bits)
  {
    RecordsFit(b, h, scheme, base, partitions, nodes, components, n, nodesAt, at, r);
    PlacesAscend(at, components, n, labels, refs, bits);
    if at <= |b| { BlocksPlaced(b, h, scheme, base, nodesAt, at, components, n, labels, refs, bits, r); }
  }

  lemma PlacesAscend(at: nat, components: nat, n: nat, labels: nat, refs: nat, bits: nat)
    requires labels == at + 2 * components && refs == AlignCursor(labels + n, 4) && bits == refs + 4 * n
    ensures at <= labels <= refs <= bits
  {
  }

  lemma RecordsOutcome(f: File, b: seq<byte>, r: Result<Loaded>, base: nat, nodesAt: nat, at: nat, labels: nat,
                       refs: nat, bits: nat)
    requires Encodable(f) && r == ParseRecords(b, FileFields(f), f.scheme, base)
    requires base == HEADER_BYTES + 4 * |f.scheme.predicates| && nodesAt == base + |f.partitions| * PARTITION_STRIDE
    requires at == nodesAt + |f.nodes| * NODE_STRIDE && labels == at + 2 * |Interleaved(f.lanes)|
    requires refs == AlignCursor(labels + |f.lanes|, 4) && bits == refs + 4 * |f.lanes|
    ensures r.Ok? <==> bits + |f.nodes| <= |b|
    ensures r.Ok? ==>
              && nodesAt <= |b|
              && r.value == LoadedAt(b, FileFields(f), f.scheme, base, nodesAt, at, |Interleaved(f.lanes)|, |f.lanes|,
                                     labels, refs, bits)
  {
    var h, n, components := FileFields(f), |f.lanes|, |Interleaved(f.lanes)|;
    BlockNumbers(n);
    SizeBound(|f.scheme.predicates|, |f.partitions|, |f.nodes|, components, n, at);
    RecordsWith(b, h, f.scheme, base, |f.partitions|, |f.nodes|, components, n, nodesAt, at, labels, refs, bits, r);
  }

  /** The records and blocks load exactly when the file is complete. */
  lemma RecordsLoad(f: File, b: seq<byte>, r: Result<Loaded>)
    requires Encodable(f) && r == ParseRecords(b, FileFields(f), f.scheme, RecordsAt(f))
    ensures r.Ok? <==> |Serialize(f)| <= |b|
    ensures Placed(f, b) && r.Ok? ==> r == Ok(LoadedFrom(f, b))
  {
    RefIndicesAligned(f);
    SerializedLength(f);
    RecordsOutcome(f, b, r, RecordsAt(f), NodesAt(f), VectorsAt(f), LabelsAt(f), RefIndicesAt(f), ClassBitsAt(f));
    if Placed(f, b) && r.Ok? { LoadedSame(f, b); }
  }

  lemma LoadedSame(f: File, b: seq<byte>)
    requires Encodable(f) && Placed(f, b)
    ensures RecordsAt(f) + |f.partitions| * PARTITION_STRIDE <= |b|
    ensures LoadedAt(b, FileFields(f), f.scheme, RecordsAt(f), NodesAt(f), VectorsAt(f), |Interleaved(f.lanes)|,
                     |f.lanes|,
                     LabelsAt(f), RefIndicesAt(f), ClassBitsAt(f)) == LoadedFrom(f, b)
  {
    KeysRead(f, b);
  }

  /** The rest of the file loads exactly when it is complete. */
  lemma SchemeLoads(f: File, b: seq<byte>)
    requires Encodable(f) && HEADER_BYTES <= |b| && (b <= Serialize(f) || Serialize(f) <= b)
    ensures ParseScheme(b, FileFields(f)).Ok? <==> |Serialize(f)| <= |b|
    ensures Placed(f, b) && ParseScheme(b, FileFields(f)).Ok? ==> ParseScheme(b, FileFields(f)) == Ok(LoadedFrom(f, b))
  {
    PredicatesAgree(f, b);
    if RecordsAt(f) <= |b| {
      SchemeAccepted(b, FileFields(f), f.scheme, RecordsAt(f));
      RecordsLoad(f, b, ParseRecords(b, FileFields(f), f.scheme, RecordsAt(f)));
    } else {
      SchemeCut(b, FileFields(f), f.scheme);
    }
  }

  lemma {:induction false} PredicatesAgree(f: File, b: seq<byte>)
    requires Encodable(f) && HEADER_BYTES <= |b| && (b <= Serialize(f) || Serialize(f) <= b)
    ensures RecordsAt(f) <= |Serialize(f)|
    ensures RecordsAt(f) <= |b| ==> ParsePredicates(b, HEADER_BYTES, |f.scheme.predicates|) == Ok(f.scheme.predicates)
    ensures RecordsAt(f) > |b| ==> ParsePredicates(b, HEADER_BYTES, |f.scheme.predicates|).Err?
  {
    var ps := f.scheme.predicates;
    SerializedHeader(f);
    if RecordsAt(f) <= |b| {
      CommonSlice(b, Serialize(f), HEADER_BYTES, RecordsAt(f));
      PredicatesRoundTrip(b, HEADER_BYTES, ps);
    } else {
      CutShort(b, |ps|);
    }
  }

  lemma {:induction false} CutShort(b: seq<byte>, n: nat)
    requires HEADER_BYTES <= |b| < HEADER_BYTES + 4 * n
    ensures ParsePredicates(b, HEADER_BYTES, n).Err?
  {
    PredicatesLoad(b, HEADER_BYTES, n);
    assert PredicateNumber(b, HEADER_BYTES, n - 1).Err?;
  }

  predicate Expected(h: Fields, scheme: Scheme) {
    && h.amountCuts == 0 == h.dowCuts && h.predicateCount == |scheme.predicates| && h.schemeId == SCHEME_ID_LEARNED_TREE
    && h.scale == SCALE && h.packedDims == PACKED_DIMS && h.schemeParam == scheme.treeDepth <= I16_MAX
  }

  lemma {:induction false} SchemeRead(b: seq<byte>, h: Fields, scheme: Scheme, base: nat)
    requires HEADER_BYTES <= |b| && Expected(h, scheme) && base == HEADER_BYTES + 4 * |scheme.predicates|
    requires ParsePredicates(b, HEADER_BYTES, |scheme.predicates|) == Ok(scheme.predicates)
    ensures ParseScheme(b, h) == CheckHeader(b, h, scheme.predicates, base)
  {
    NoCuts(b, h, scheme);
    PredicatesRead(b, h, scheme, HEADER_BYTES, base);
  }

  lemma NoCuts(b: seq<byte>, h: Fields, scheme: Scheme)
    requires HEADER_BYTES <= |b| && Expected(h, scheme)
    ensures ParseScheme(b, h) == ParseTree(b, h, HEADER_BYTES)
  {
  }

  lemma {:induction false} PredicatesRead(b: seq<byte>, h: Fields, scheme: Scheme, start: nat, base: nat)
    requires h.predicateCount == |scheme.predicates| && base == start + 4 * |scheme.predicates|
    requires ParsePredicates(b, start, |scheme.predicates|) == Ok(scheme.predicates)
    ensures ParseTree(b, h, start) == CheckHeader(b, h, scheme.predicates, base)
  {
    PredicatesAre(b, h, |scheme.predicates|, scheme.predicates, start, base);
  }

  lemma {:induction false} PredicatesAre(b: seq<byte>, h: Fields, n: nat, ps: seq<TreePredicate>, start: nat, base: nat)
    requires h.predicateCount == n && base == start + 4 * n && ParsePredicates(b, start, n) == Ok(ps)
    ensures ParseTree(b, h, start) == CheckHeader(b, h, ps, base)
  {
  }

  lemma {:induction false} PredicatesCut(b: seq<byte>, h: Fields, n: nat, start: nat)
    requires h.predicateCount == n && ParsePredicates(b, start, n).Err?
    ensures ParseTree(b, h, start).Err?
  {
  }

  lemma HeaderChecked(b: seq<byte>, h: Fields, scheme: Scheme, base: nat)
    requires Expected(h, scheme)
    ensures CheckHeader(b, h, scheme.predicates, base) == ParseRecords(b, h, scheme, base)
  {
    assert Scheme(Usize(h.schemeParam), scheme.predicates) == scheme;
  }

  lemma {:induction false} SchemeAccepted(b: seq<byte>, h: Fields, scheme: Scheme, base: nat)
    requires HEADER_BYTES <= |b| && Expected(h, scheme) && base == HEADER_BYTES + 4 * |scheme.predicates|
    requires ParsePredicates(b, HEADER_BYTES, |scheme.predicates|) == Ok(scheme.predicates)
    ensures ParseScheme(b, h) == ParseRecords(b, h, scheme, base)
  {
    SchemeRead(b, h, scheme, base);
    HeaderChecked(b, h, scheme, base);
  }

  lemma {:induction false} SchemeCut(b: seq<byte>, h: Fields, scheme: Scheme)
    requires HEADER_BYTES <= |b| && Expected(h, scheme) && ParsePredicates(b, HEADER_BYTES, |scheme.predicates|).Err?
    ensures ParseScheme(b, h).Err?
  {
    NoCuts(b, h, scheme);
    PredicatesCut(b, h, |scheme.predicates|, HEADER_BYTES);
  }

  lemma CommonSlice(b: seq<byte>, s: seq<byte>, i: nat, j: nat)
    requires (b <= s || s <= b) && i <= j <= |b| && j <= |s|
    ensures b[i..j] == s[i..j]
  {
    if b <= s { Slices(b, s, |b|, i, j); } else { Slices(b, s, |s|, i, j); }
  }

  lemma SerializedHeader(f: File)
    ensures |Serialize(f)| >= RecordsAt(f) && Serialize(f)[..HEADER_BYTES] == HeaderOf(f)[..HEADER_BYTES]
    ensures Serialize(f)[HEADER_BYTES..RecordsAt(f)] == PredicateSection(f.scheme.predicates)
    ensures |PredicateSection(f.scheme.predicates)| == 4 * |f.scheme.predicates|
  {
    var h := HeaderOf(f);
    FileSlices(f, Serialize(f));
    FrontSlices(f, BeforePadding(f));
    HeaderSlices(f, h);
    BackFields(f.scheme, HeaderBack(f.scheme));
    assert h[HEADER_BYTES..] == h[32..][10..];
    HeaderFirst(Serialize(f), BeforePadding(f), h, PredicateSection(f.scheme.predicates), RecordsAt(f));
  }

  lemma HeaderFirst(s: seq<byte>, front: seq<byte>, h: seq<byte>, ps: seq<byte>, n: nat)
    requires SliceIs(s, 0, front) && SliceIs(front, 0, h) && n == |h| >= HEADER_BYTES && h[HEADER_BYTES..] == ps
    ensures |s| >= n && s[..HEADER_BYTES] == h[..HEADER_BYTES] && s[HEADER_BYTES..n] == ps
  {
    SubSlice(s, 0, |front|, 0, n);
    assert s[..n] == h;
    SubSlice(s, 0, n, 0, HEADER_BYTES);
    SubSlice(s, 0, n, HEADER_BYTES, n);
  }

  lemma FieldsLoad(f: File, b: seq<byte>)
    requires Encodable(f) && HEADER_BYTES <= |b| && (b <= Serialize(f) || Serialize(f) <= b)
    ensures Parse(b) == ParseScheme(b, FileFields(f))
  {
    SerializedHeader(f);
    CommonSlice(b, Serialize(f), 0, HEADER_BYTES);
    HeaderRoundTrip(f, b);
  }

  /** Opening a file, or any beginning of one, or a file with bytes behind it: it succeeds
      exactly when no byte of the file is missing, every section is found where the writer
      began it, and every field reads back as written. */
  lemma LoadsExactlyCompleteFiles(f: File, b: seq<byte>)
    requires Encodable(f) && (b <= Serialize(f) || Serialize(f) <= b)
    ensures Parse(b).Ok? <==> Serialize(f) <= b
    ensures Serialize(f) <= b ==>
              Parse(b) == Ok(LoadedFrom(f, b)) && Contained(LoadedFrom(f, b))
                && View(LoadedFrom(f, b)) == IndexOfFile(f)
  {
    SerializedHeader(f);
    if |b| >= HEADER_BYTES {
      FieldsLoad(f, b);
      SchemeLoads(f, b);
      if Serialize(f) <= b {
        PlacedInPrefix(f, b);
        ViewOfLoaded(f, b);
      }
    }
  }
}
