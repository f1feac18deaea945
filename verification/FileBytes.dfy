/** The index file byte by byte: every number of it, at its offset. */
module FileBytes {
  import opened Base
  import opened Bytes
  import opened Routing
  import opened KdTree
  import opened Index
  import opened Format
  import opened Layout
  import opened Loader
  import opened FileRoundTrip

  // ----- one number -----

  function Unsigned16(b: seq<byte>, at: nat): int
    requires at + 2 <= |b|
  {
    b[at] as int + 256 * b[at + 1] as int
  }

  /** Two bytes, the lower one first; negative numbers as their two's complement. */
  predicate Is16(b: seq<byte>, at: nat, v: int) {
    at + 2 <= |b| && Unsigned16(b, at) == if v < 0 then v + 65536 else v
  }

  /** Four bytes, the lowest one first. */
  predicate Is32(b: seq<byte>, at: nat, v: int) {
    at + 4 <= |b| && Unsigned16(b, at) + 65536 * Unsigned16(b, at + 2) == if v < 0 then v + 4294967296 else v
  }

  lemma {:induction false} TwoBytes(s: seq<byte>)
    requires |s| == 2
    ensures FromLE(s) == Unsigned16(s, 0)
  {
    assert FromLE(s[1..]) == s[1] as int + 256 * FromLE(s[1..][1..]);
  }

  lemma {:induction false} FourBytes(s: seq<byte>)
    requires |s| == 4
    ensures FromLE(s) == Unsigned16(s, 0) + 65536 * Unsigned16(s, 2)
  {
    var t := s[2..];
    assert s[1..][1..] == t;
    TwoBytes(t);
    assert FromLE(s[1..]) == s[1] as int + 256 * FromLE(t);
  }

  lemma Number16(b: seq<byte>, at: nat, v: int)
    requires SliceIs(b, at, I16(v)) && Fits16(v)
    ensures Is16(b, at, v)
  {
    Powers();
    LERoundTrip(v % 65536, 2);
    TwoBytes(b[at..at + 2]);
  }

  lemma {:induction false} Number32(b: seq<byte>, at: nat, v: int)
    requires SliceIs(b, at, ToLE(v % 4294967296, 4)) && (Fits32(v) || FitsU32(v))
    ensures Is32(b, at, v)
  {
    Powers();
    LERoundTrip(v % 4294967296, 4);
    FourBytes(b[at..at + 4]);
  }

  predicate IsVector(b: seq<byte>, at: nat, v: Vec) { forall d :: 0 <= d < 16 ==> Is16(b, at + 2 * d, v[d]) }

  lemma VectorNumbers(b: seq<byte>, at: nat, v: Vec)
    requires SliceIs(b, at, VecBytes(v)) && VecFits(v)
    ensures IsVector(b, at, v)
  {
    forall d: nat | d < 16 ensures Is16(b, at + 2 * d, v[d]) {
      RecordIs(x => I16(x), v, b, at, 2, d);
      Number16(b, at + 2 * d, v[d]);
    }
  }

  // ----- the header -----

  const NAME: seq<byte> := ['R' as byte, 'N' as byte, 'S' as byte, 'P' as byte, 'C' as byte, 'S' as byte, 'T' as byte,
                            '5' as byte]

  predicate HeaderIs(f: File, b: seq<byte>) {
    && |b| >= 42 && b[..8] == NAME && Is32(b, 8, SCALE) && Is32(b, 12, 16) && Is32(b, 16, f.refCount)
    && Is32(b, 20, |f.partitions|) && Is32(b, 24, |f.nodes|) && Is32(b, 28, |f.lanes| / 8) && Is16(b, 32, 2)
    && Is16(b, 34, f.scheme.treeDepth) && Is16(b, 36, 0) && Is16(b, 38, 0) && Is16(b, 40, |f.scheme.predicates|)
  }

  lemma Within(b: seq<byte>, at: nat, s: seq<byte>, lo: nat, x: seq<byte>)
    requires SliceIs(b, at, s) && lo + |x| <= |s| && s[lo..lo + |x|] == x
    ensures SliceIs(b, at + lo, x)
  {
    WithinSlice(b, at, s, lo, x);
  }

  lemma FrontNumbers(f: File, b: seq<byte>)
    requires Encodable(f) && SliceIs(b, 0, HeaderFront(f.refCount))
    ensures |b| >= 20 && b[..8] == NAME && Is32(b, 8, SCALE) && Is32(b, 12, 16) && Is32(b, 16, f.refCount)
  {
    var s := HeaderFront(f.refCount);
    FrontFields(f.refCount, s);
    Within(b, 0, s, 0, MAGIC);
    Within(b, 0, s, 8, I32(SCALE));
    Within(b, 0, s, 12, I32(PACKED_DIMS));
    Within(b, 0, s, 16, I32(f.refCount));
    Number32(b, 8, SCALE);
    Number32(b, 12, PACKED_DIMS);
    Number32(b, 16, f.refCount);
  }

  lemma BackNumbers(f: File, b: seq<byte>)
    requires Encodable(f) && SliceIs(b, 32, HeaderBack(f.scheme))
    ensures Is16(b, 32, 2) && Is16(b, 34, f.scheme.treeDepth) && Is16(b, 36, 0) && Is16(b, 38, 0)
    ensures Is16(b, 40, |f.scheme.predicates|) && SliceIs(b, 42, PredicateSection(f.scheme.predicates))
  {
    var s := HeaderBack(f.scheme);
    BackFields(f.scheme, s);
    PredicateLength(f.scheme.predicates);
    assert s[0..2] == s[..2] && s[10..10 + |PredicateSection(f.scheme.predicates)|] == s[10..];
    Within(b, 32, s, 0, I16(SCHEME_ID_LEARNED_TREE));
    Within(b, 32, s, 2, I16(f.scheme.treeDepth));
    Within(b, 32, s, 4, I16(0));
    Within(b, 32, s, 6, I16(0));
    Within(b, 32, s, 8, I16(|f.scheme.predicates|));
    Within(b, 32, s, 10, PredicateSection(f.scheme.predicates));
    Number16(b, 32, SCHEME_ID_LEARNED_TREE);
    Number16(b, 34, f.scheme.treeDepth);
    Number16(b, 36, 0);
    Number16(b, 38, 0);
    Number16(b, 40, |f.scheme.predicates|);
  }

  lemma HeaderNumbers(f: File, b: seq<byte>)
    requires Encodable(f) && SliceIs(b, 0, HeaderOf(f))
    ensures HeaderIs(f, b) && SliceIs(b, 42, PredicateSection(f.scheme.predicates))
  {
    var s := HeaderOf(f);
    HeaderSlices(f, s);
    FrontFields(f.refCount, HeaderFront(f.refCount));
    BackFields(f.scheme, HeaderBack(f.scheme));
    assert s[0..20] == s[..20] && s[32..32 + |HeaderBack(f.scheme)|] == s[32..];
    Within(b, 0, s, 0, HeaderFront(f.refCount));
    Within(b, 0, s, 20, I32(|f.partitions|));
    Within(b, 0, s, 24, I32(|f.nodes|));
    Within(b, 0, s, 28, I32(|f.lanes| / LANES));
    Within(b, 0, s, 32, HeaderBack(f.scheme));
    FrontNumbers(f, b);
    BackNumbers(f, b);
    Number32(b, 20, |f.partitions|);
    Number32(b, 24, |f.nodes|);
    Number32(b, 28, |f.lanes| / LANES);
  }

  // ----- the records -----

  predicate IsPredicate(b: seq<byte>, at: nat, p: TreePredicate) {
    at + 4 <= |b| && b[at] == p.dim && b[at + 1] == (if p.enabled then 1 else 0) && Is16(b, at + 2, p.threshold)
  }

  predicate IsPartition(b: seq<byte>, at: nat, p: Partition) {
    && Is32(b, at, p.key) && Is32(b, at + 4, p.root) && Is32(b, at + 8, 0) && Is32(b, at + 12, p.len)
    && IsVector(b, at + 16, p.lo) && IsVector(b, at + 48, p.hi)
  }

  predicate IsNode(b: seq<byte>, at: nat, n: Node) {
    && Is32(b, at, n.left) && Is32(b, at + 4, n.right) && Is32(b, at + 8, n.start) && Is32(b, at + 12, n.len)
    && IsVector(b, at + 16, n.lo) && IsVector(b, at + 48, n.hi)
  }

  lemma PredicateNumbers(b: seq<byte>, at: nat, p: TreePredicate)
    requires SliceIs(b, at, PredicateBytes(p)) && PredicateFits(p)
    ensures IsPredicate(b, at, p)
  {
    var s := PredicateBytes(p);
    assert s[0] == p.dim && s[1] == (if p.enabled then 1 else 0) && s[2..4] == I16(p.threshold);
    assert b[at..at + 4][0] == b[at] && b[at..at + 4][1] == b[at + 1];
    Within(b, at, s, 2, I16(p.threshold));
    Number16(b, at + 2, p.threshold);
  }

  lemma PartitionNumbers(b: seq<byte>, at: nat, p: Partition)
    requires SliceIs(b, at, PartitionBytes(p)) && PartitionFits(p)
    ensures IsPartition(b, at, p)
  {
    VecLength(p.lo);
    VecLength(p.hi);
    RecordFields(b, at, U32(p.key), I32(p.root), I32(0), I32(p.len), p.lo, p.hi);
    Number32(b, at, p.key);
    Number32(b, at + 4, p.root);
    Number32(b, at + 8, 0);
    Number32(b, at + 12, p.len);
    VectorNumbers(b, at + 16, p.lo);
    VectorNumbers(b, at + 48, p.hi);
  }

  lemma NodeNumbers(b: seq<byte>, at: nat, n: Node)
    requires SliceIs(b, at, NodeBytes(n)) && NodeFits(n)
    ensures IsNode(b, at, n)
  {
    VecLength(n.lo);
    VecLength(n.hi);
    RecordFields(b, at, I32(n.left), I32(n.right), I32(n.start), I32(n.len), n.lo, n.hi);
    Number32(b, at, n.left);
    Number32(b, at + 4, n.right);
    Number32(b, at + 8, n.start);
    Number32(b, at + 12, n.len);
    VectorNumbers(b, at + 16, n.lo);
    VectorNumbers(b, at + 48, n.hi);
  }

  lemma {:induction false} PredicateAt(ps: seq<TreePredicate>, b: seq<byte>, base: nat, i: nat)
    requires SliceIs(b, base, PredicateSection(ps)) && i < |ps| && PredicateFits(ps[i])
    ensures IsPredicate(b, base + 4 * i, ps[i])
  {
    PredicateLength(ps);
    RecordIs(p => PredicateBytes(p), ps, b, base, 4, i);
    PredicateNumbers(b, base + 4 * i, ps[i]);
  }

  lemma PartitionLength(p: Partition)
    ensures |PartitionBytes(p)| == 80
  {
    VecLength(p.lo);
    VecLength(p.hi);
  }

  lemma NodeLength(n: Node)
    ensures |NodeBytes(n)| == 80
  {
    VecLength(n.lo);
    VecLength(n.hi);
  }

  lemma {:induction false} PartitionSlice(ps: seq<Partition>, b: seq<byte>, base: nat, i: nat)
    requires SliceIs(b, base, PartitionSection(ps)) && i < |ps|
    ensures SliceIs(b, base + 80 * i, PartitionBytes(ps[i]))
  {
    forall p | p in ps ensures |PartitionBytes(p)| == 80 { PartitionLength(p); }
    RecordIs(p => PartitionBytes(p), ps, b, base, 80, i);
  }

  lemma {:induction false} PartitionAt(ps: seq<Partition>, b: seq<byte>, base: nat, i: nat)
    requires SliceIs(b, base, PartitionSection(ps)) && i < |ps| && PartitionFits(ps[i])
    ensures IsPartition(b, base + 80 * i, ps[i])
  {
    PartitionSlice(ps, b, base, i);
    PartitionNumbers(b, base + 80 * i, ps[i]);
  }

  lemma {:induction false} NodeSlice(ns: seq<Node>, b: seq<byte>, base: nat, i: nat)
    requires SliceIs(b, base, NodeSection(ns)) && i < |ns|
    ensures SliceIs(b, base + 80 * i, NodeBytes(ns[i]))
  {
    forall n | n in ns ensures |NodeBytes(n)| == 80 { NodeLength(n); }
    RecordIs(n => NodeBytes(n), ns, b, base, 80, i);
  }

  lemma {:induction false} NodeAt(ns: seq<Node>, b: seq<byte>, base: nat, i: nat)
    requires SliceIs(b, base, NodeSection(ns)) && i < |ns| && NodeFits(ns[i])
    ensures IsNode(b, base + 80 * i, ns[i])
  {
    NodeSlice(ns, b, base, i);
    NodeNumbers(b, base + 80 * i, ns[i]);
  }

  // ----- the lanes -----

  /** Where a component of a lane is: eight lanes a block, two dimensions at a time. */
  function ComponentOffset(k: nat, d: nat): nat { 224 * (k / 8) + 32 * (d / 2) + 4 * (k % 8) + 2 * (d % 2) }

  lemma ComponentPlace(k: nat, d: nat) returns (block: nat, l: nat, pair: nat, e: nat, i: nat)
    requires d < 14
    ensures pair < DIM_PAIRS && l < LANES && e < 2 && k == block * LANES + l && d == 2 * pair + e
    ensures i == block * (DIMS * LANES) + (pair * (2 * LANES) + 2 * l + e) && 2 * i == ComponentOffset(k, d)
  {
    block, l, pair, e := k / 8, k % 8, d / 2, d % 2;
    i := block * (DIMS * LANES) + (pair * (2 * LANES) + 2 * l + e);
  }

  lemma {:induction false} ComponentIn(lanes: seq<Lane>, b: seq<byte>, base: nat, block: nat, pair: nat, l: nat, e: nat,
                                       i: nat)
    requires SliceIs(b, base, VecBytes(Interleaved(lanes)))
    requires i == block * (DIMS * LANES) + (pair * (2 * LANES) + 2 * l + e)
    requires block < |lanes| / LANES && pair < DIM_PAIRS && l < LANES && e < 2 && LaneFits(lanes[block * LANES + l])
    ensures Is16(b, base + 2 * i, lanes[block * LANES + l].vector[2 * pair + e])
  {
    ComponentAt(lanes, block, pair, l, e, i);
    RecordIs(x => I16(x), Interleaved(lanes), b, base, 2, i);
    Number16(b, base + 2 * i, Interleaved(lanes)[i]);
  }

  lemma {:induction false} ComponentNumber(lanes: seq<Lane>, b: seq<byte>, base: nat, k: nat, d: nat)
    requires SliceIs(b, base, VecBytes(Interleaved(lanes))) && k < |lanes| && d < 14 && |lanes| % LANES == 0
    requires LaneFits(lanes[k])
    ensures Is16(b, base + ComponentOffset(k, d), lanes[k].vector[d])
  {
    var block, l, pair, e, i := ComponentPlace(k, d);
    BlockThere(|lanes|, block, l);
    ComponentIn(lanes, b, base, block, pair, l, e, i);
  }

  lemma BlockThere(n: nat, block: nat, l: nat)
    requires n % LANES == 0 && block * LANES + l < n && l < LANES
    ensures block < n / LANES
  {
  }

  lemma {:induction false} RefNumber(lanes: seq<Lane>, b: seq<byte>, base: nat, k: nat)
    requires SliceIs(b, base, RefBytes(lanes)) && k < |lanes| && LaneFits(lanes[k])
    ensures Is32(b, base + 4 * k, lanes[k].refIndex)
  {
    RecordIs(l => RefByte(l), lanes, b, base, 4, k);
    Number32(b, base + 4 * k, lanes[k].refIndex);
  }

  // ----- the class bits -----

  function BitOf(bits: set<nat>, l: nat): nat { if l in bits then 1 else 0 }

  /** Bit `l` of the byte says whether the node has label `l`. */
  predicate IsClassByte(x: nat, bits: set<nat>) {
    x == BitOf(bits, 0) + 2 * BitOf(bits, 1) + 4 * BitOf(bits, 2) + 8 * BitOf(bits, 3) + 16 * BitOf(bits, 4)
         + 32 * BitOf(bits, 5) + 64 * BitOf(bits, 6) + 128 * BitOf(bits, 7)
  }

  lemma {:induction false} BitsFrom(bits: set<nat>, l: nat)
    requires l <= 4
    ensures BitsValue(bits, l) == BitOf(bits, l) + 2 * BitOf(bits, l + 1) + 4 * BitOf(bits, l + 2)
            + 8 * BitOf(bits, l + 3) + 16 * BitsValue(bits, l + 4)
  {
    assert BitsValue(bits, l + 1) == BitOf(bits, l + 1) + 2 * BitsValue(bits, l + 2);
    assert BitsValue(bits, l + 2) == BitOf(bits, l + 2) + 2 * BitsValue(bits, l + 3);
    assert BitsValue(bits, l + 3) == BitOf(bits, l + 3) + 2 * BitsValue(bits, l + 4);
  }

  lemma {:induction false} ClassByteIs(bits: set<nat>)
    ensures IsClassByte(ClassByte(bits), bits)
  {
    BitsFrom(bits, 0);
    BitsFrom(bits, 4);
  }

  lemma {:induction false} ClassNumber(ns: seq<Node>, b: seq<byte>, base: nat, i: nat)
    requires SliceIs(b, base, BitBytes(ns)) && i < |ns|
    ensures base + i < |b| && IsClassByte(b[base + i], ns[i].classBits)
  {
    RecordIs(n => BitByte(n), ns, b, base, 1, i);
    OneByte(b, base + i, BitByte(ns[i]));
    ClassByteIs(ns[i].classBits);
  }

  // ----- the whole file -----

  ghost predicate PredicatesAre(ps: seq<TreePredicate>, b: seq<byte>, base: nat) {
    forall i :: 0 <= i < |ps| ==> IsPredicate(b, base + 4 * i, ps[i])
  }

  ghost predicate PartitionsAre(ps: seq<Partition>, b: seq<byte>, base: nat) {
    forall i :: 0 <= i < |ps| ==> IsPartition(b, base + 80 * i, ps[i])
  }

  ghost predicate NodesAre(ns: seq<Node>, b: seq<byte>, base: nat) {
    forall i :: 0 <= i < |ns| ==> IsNode(b, base + 80 * i, ns[i])
  }

  ghost predicate VectorsAre(lanes: seq<Lane>, b: seq<byte>, base: nat) {
    forall k: nat, d: nat :: k < |lanes| && d < 14 ==> Is16(b, base + ComponentOffset(k, d), lanes[k].vector[d])
  }

  ghost predicate LabelsAre(lanes: seq<Lane>, b: seq<byte>, base: nat) {
    base + |lanes| <= |b| && forall k :: 0 <= k < |lanes| ==> b[base + k] == lanes[k].lbl
  }

  ghost predicate ZerosAre(b: seq<byte>, base: nat, end: nat) {
    base <= end <= |b| && forall k :: base <= k < end ==> b[k] == 0
  }

  ghost predicate RefIndicesAre(lanes: seq<Lane>, b: seq<byte>, base: nat) {
    forall k :: 0 <= k < |lanes| ==> Is32(b, base + 4 * k, lanes[k].refIndex)
  }

  ghost predicate ClassBitsAre(ns: seq<Node>, b: seq<byte>, base: nat) {
    base + |ns| <= |b| && forall i :: 0 <= i < |ns| ==> IsClassByte(b[base + i], ns[i].classBits)
  }

  /** The sections begin one behind the other; only the reference indices are aligned. */
  ghost predicate Sections(f: File, b: seq<byte>, partitions: nat, nodes: nat, vectors: nat, labels: nat, end: nat,
                           refs: nat, bits: nat)
  {
    && partitions == 42 + 4 * |f.scheme.predicates| && nodes == partitions + 80 * |f.partitions|
    && vectors == nodes + 80 * |f.nodes| && labels == vectors + 28 * |f.lanes| && end == labels + |f.lanes|
    && refs == end + (if end % 4 == 0 then 0 else 4 - end % 4) && bits == refs + 4 * |f.lanes|
    && |b| == bits + |f.nodes|
  }

  /** The file at its offsets. */
  ghost predicate FileIs(f: File, b: seq<byte>) {
    exists partitions: nat, nodes: nat, vectors: nat, labels: nat, end: nat, refs: nat, bits: nat ::
      && Sections(f, b, partitions, nodes, vectors, labels, end, refs, bits)
      && HeaderIs(f, b) && PredicatesAre(f.scheme.predicates, b, 42) && PartitionsAre(f.partitions, b, partitions)
      && NodesAre(f.nodes, b, nodes) && VectorsAre(f.lanes, b, vectors) && LabelsAre(f.lanes, b, labels)
      && ZerosAre(b, end, refs) && RefIndicesAre(f.lanes, b, refs) && ClassBitsAre(f.nodes, b, bits)
  }

  lemma Padded(n: nat, padded: nat)
    requires padded == AlignCursor(n, 4)
    ensures padded == n + if n % 4 == 0 then 0 else 4 - n % 4
  {
  }

  lemma InterleavedLength(lanes: seq<Lane>)
    requires |lanes| % LANES == 0
    ensures 2 * |Interleaved(lanes)| == 28 * |lanes|
  {
  }

  lemma SectionPlaces(f: File, b: seq<byte>)
    requires b == Serialize(f) && |f.lanes| % LANES == 0
    ensures Sections(f, b, RecordsAt(f), NodesAt(f), VectorsAt(f), LabelsAt(f), |BeforePadding(f)|, RefIndicesAt(f),
                     ClassBitsAt(f))
  {
    FileSlices(f, b);
    FrontSlices(f, BeforePadding(f));
    InterleavedLength(f.lanes);
    Padded(|BeforePadding(f)|, RefIndicesAt(f));
  }

  lemma PaddingIsZero(f: File, b: seq<byte>)
    requires b == Serialize(f)
    ensures ZerosAre(b, |BeforePadding(f)|, RefIndicesAt(f))
  {
    Filled(BeforePadding(f), PaddingLength(|BeforePadding(f)|, 4), RefBytes(f.lanes), BitBytes(f.nodes), b);
  }

  lemma Filled(front: seq<byte>, n: nat, refs: seq<byte>, bits: seq<byte>, b: seq<byte>)
    requires b == front + Zeros(n) + refs + bits
    ensures ZerosAre(b, |front|, |front| + n)
  {
  }

  lemma {:induction false} HeaderWritten(f: File, b: seq<byte>)
    requires Encodable(f) && b == Serialize(f)
    ensures HeaderIs(f, b) && SliceIs(b, 42, PredicateSection(f.scheme.predicates))
  {
    FileSlices(f, b);
    FrontSlices(f, BeforePadding(f));
    SliceInPrefix(b, BeforePadding(f), 0, HeaderOf(f));
    HeaderNumbers(f, b);
  }

  /** The bytes of every section are where it begins. */
  lemma {:induction false} SectionsWritten(f: File, b: seq<byte>)
    returns (partitions: nat, nodes: nat, vectors: nat, labels: nat, end: nat, refs: nat, bits: nat)
    requires Encodable(f) && b == Serialize(f)
    ensures Sections(f, b, partitions, nodes, vectors, labels, end, refs, bits) && ZerosAre(b, end, refs)
    ensures SliceIs(b, partitions, PartitionSection(f.partitions)) && SliceIs(b, nodes, NodeSection(f.nodes))
    ensures SliceIs(b, vectors, VecBytes(Interleaved(f.lanes))) && SliceIs(b, labels, LabelBytes(f.lanes))
    ensures SliceIs(b, refs, RefBytes(f.lanes)) && SliceIs(b, bits, BitBytes(f.nodes))
  {
    PlacedInPrefix(f, b);
    SectionPlaces(f, b);
    PaddingIsZero(f, b);
    partitions, nodes, vectors := RecordsAt(f), NodesAt(f), VectorsAt(f);
    labels, end, refs, bits := LabelsAt(f), |BeforePadding(f)|, RefIndicesAt(f), ClassBitsAt(f);
  }

  lemma {:induction false} PredicatesWritten(ps: seq<TreePredicate>, b: seq<byte>, base: nat)
    requires SliceIs(b, base, PredicateSection(ps)) && forall i :: 0 <= i < |ps| ==> PredicateFits(ps[i])
    ensures PredicatesAre(ps, b, base)
  {
    forall i: nat | i < |ps| ensures IsPredicate(b, base + 4 * i, ps[i]) { PredicateAt(ps, b, base, i); }
  }

  lemma {:induction false} PartitionsWritten(ps: seq<Partition>, b: seq<byte>, base: nat)
    requires SliceIs(b, base, PartitionSection(ps)) && forall i :: 0 <= i < |ps| ==> PartitionFits(ps[i])
    ensures PartitionsAre(ps, b, base)
  {
    forall i: nat | i < |ps| ensures IsPartition(b, base + 80 * i, ps[i]) { PartitionAt(ps, b, base, i); }
  }

  lemma {:induction false} NodesWritten(ns: seq<Node>, b: seq<byte>, base: nat)
    requires SliceIs(b, base, NodeSection(ns)) && forall i :: 0 <= i < |ns| ==> NodeFits(ns[i])
    ensures NodesAre(ns, b, base)
  {
    forall i: nat | i < |ns| ensures IsNode(b, base + 80 * i, ns[i]) { NodeAt(ns, b, base, i); }
  }

  lemma {:induction false} ClassBitsWritten(ns: seq<Node>, b: seq<byte>, base: nat)
    requires SliceIs(b, base, BitBytes(ns)) && base + |ns| <= |b|
    ensures ClassBitsAre(ns, b, base)
  {
    forall i: nat | i < |ns| ensures IsClassByte(b[base + i], ns[i].classBits) { ClassNumber(ns, b, base, i); }
  }

  lemma {:induction false} LanesWritten(lanes: seq<Lane>, b: seq<byte>, vectors: nat, labels: nat, refs: nat)
    requires |lanes| % LANES == 0 && labels + |lanes| <= |b| && forall k :: 0 <= k < |lanes| ==> LaneFits(lanes[k])
    requires SliceIs(b, vectors, VecBytes(Interleaved(lanes))) && SliceIs(b, labels, LabelBytes(lanes))
    requires SliceIs(b, refs, RefBytes(lanes))
    ensures VectorsAre(lanes, b, vectors) && LabelsAre(lanes, b, labels) && RefIndicesAre(lanes, b, refs)
  {
    forall k: nat, d: nat | k < |lanes| && d < 14
      ensures Is16(b, vectors + ComponentOffset(k, d), lanes[k].vector[d])
    {
      ComponentNumber(lanes, b, vectors, k, d);
    }
    forall k: nat | k < |lanes| ensures b[labels + k] == lanes[k].lbl { LabelRead(lanes, b, labels, k); }
    forall k: nat | k < |lanes| ensures Is32(b, refs + 4 * k, lanes[k].refIndex) { RefNumber(lanes, b, refs, k); }
  }

  /** Every byte of a written file. */
  lemma {:induction false} WrittenBytes(f: File, b: seq<byte>)
    requires Encodable(f) && b == Serialize(f)
    ensures FileIs(f, b)
  {
    HeaderWritten(f, b);
    var partitions, nodes, vectors, labels, end, refs, bits := SectionsWritten(f, b);
    PredicatesWritten(f.scheme.predicates, b, 42);
    PartitionsWritten(f.partitions, b, partitions);
    NodesWritten(f.nodes, b, nodes);
    ClassBitsWritten(f.nodes, b, bits);
    LanesWritten(f.lanes, b, vectors, labels, refs);
  }
}
