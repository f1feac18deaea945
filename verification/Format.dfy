/**
 * The index file: what the writer appends and back-patches, section by section, and what
 * the loader reads back through a moving cursor and fixed record offsets.
 */
module Format {
  import opened Base
  import opened Bytes
  import opened Routing
  import opened KdTree
  import opened Index

  const MAGIC: seq<byte> := [82, 78, 83, 80, 67, 83, 84, 53]  // RNSPCST5
  const PARTITION_STRIDE := 80
  const NODE_STRIDE := 80
  const SCHEME_ID_LEARNED_TREE := 2

  /** What a file stores; `start` of a node counts blocks, lanes come in whole blocks. */
  datatype File = File(refCount: nat, scheme: Scheme, partitions: seq<Partition>, nodes: seq<Node>, lanes: seq<Lane>)

  // ----- one record -----

  function VecBytes(v: seq<int>): seq<byte> { Flat(x => I16(x), v) }

  function PredicateBytes(p: TreePredicate): seq<byte> {
    [(p.dim % 256) as byte] + [if p.enabled then 1 else 0] + I16(p.threshold)
  }

  function PartitionBytes(p: Partition): seq<byte> {
    U32(p.key) + I32(p.root) + I32(0) + I32(p.len) + VecBytes(p.lo) + VecBytes(p.hi)
  }

  function NodeBytes(n: Node): seq<byte> {
    I32(n.left) + I32(n.right) + I32(n.start) + I32(n.len) + VecBytes(n.lo) + VecBytes(n.hi)
  }

  /** The bits from position `l` on, as a number and back. */
  function BitsValue(bits: set<nat>, l: nat): (v: nat)
    requires l <= 8
    ensures v < Pow2(8 - l)
    decreases 8 - l
  {
    if l == 8 then 0 else (if l in bits then 1 else 0) + 2 * BitsValue(bits, l + 1)
  }

  function BitsOf(v: nat, l: nat): set<nat>
    requires l <= 8
    decreases 8 - l
  {
    if l == 8 then {} else (if v % 2 == 1 then {l} else {}) + BitsOf(v / 2, l + 1)
  }

  lemma {:induction false} BitsRoundTrip(bits: set<nat>, l: nat)
    requires l <= 8
    ensures BitsOf(BitsValue(bits, l), l) == set k | k in bits && l <= k < 8
    decreases 8 - l
  {
    if l < 8 {
      BitsRoundTrip(bits, l + 1);
      var rest := BitsValue(bits, l + 1);
      assert BitsValue(bits, l) / 2 == rest;
    }
  }

  /** The byte of a set of bit positions. */
  function ClassByte(bits: set<nat>): byte {
    PowerOfEight();
    BitsValue(bits, 0)
  }

  lemma PowerOfEight()
    ensures Pow2(8) == 256
  {
    assert Pow2(4) == 16;
    assert Pow2(8) == 16 * Pow2(4);
  }

  function ClassBits(b: byte): set<nat> { BitsOf(b, 0) }

  lemma ClassRoundTrip(bits: set<nat>)
    requires forall l :: l in bits ==> l < 8
    ensures ClassBits(ClassByte(bits)) == bits
  {
    BitsRoundTrip(bits, 0);
  }

  lemma VecLength(v: Vec)
    ensures |VecBytes(v)| == 32
  {
    FlatLength(x => I16(x), v, 2);
  }

  // ----- the sections -----

  /** The block section: eight lanes side by side, two dimensions at a time. */
  function Interleaved(lanes: seq<Lane>): (r: seq<int>)
    ensures |r| == |lanes| / LANES * (DIMS * LANES)
  {
    seq(|lanes| / LANES * (DIMS * LANES), i requires 0 <= i < |lanes| / LANES * (DIMS * LANES) => Component(lanes, i))
  }

  /** Entry `i` of the block section. */
  function Component(lanes: seq<Lane>, i: nat): int
    requires i < |lanes| / LANES * (DIMS * LANES)
  {
    var b, r := i / (DIMS * LANES), i % (DIMS * LANES);
    lanes[b * LANES + r % (2 * LANES) / 2].vector[2 * (r / (2 * LANES)) + r % 2]
  }

  /** The header before the three counts that are patched later, and after them. */
  function HeaderFront(refCount: int): seq<byte> { MAGIC + I32(SCALE) + I32(PACKED_DIMS) + I32(refCount) }

  function HeaderBack(scheme: Scheme): seq<byte> {
    I16(SCHEME_ID_LEARNED_TREE) + I16(scheme.treeDepth) + I16(0) + I16(0) + I16(|scheme.predicates|)
    + PredicateSection(scheme.predicates)
  }

  function PredicateSection(ps: seq<TreePredicate>): seq<byte> { Flat(p => PredicateBytes(p), ps) }

  function Header(refCount: int, scheme: Scheme, partitions: int, nodes: int, blocks: int): seq<byte> {
    HeaderFront(refCount) + I32(partitions) + I32(nodes) + I32(blocks) + HeaderBack(scheme)
  }

  function LabelBytes(lanes: seq<Lane>): seq<byte> { Flat(l => LabelByte(l), lanes) }

  function LabelByte(l: Lane): seq<byte> { [(l.lbl % 256) as byte] }

  function RefBytes(lanes: seq<Lane>): seq<byte> { Flat(l => RefByte(l), lanes) }

  function RefByte(l: Lane): seq<byte> { U32(l.refIndex) }

  function BitBytes(nodes: seq<Node>): seq<byte> { Flat(n => BitByte(n), nodes) }

  function BitByte(n: Node): seq<byte> { [ClassByte(n.classBits)] }

  function PartitionSection(ps: seq<Partition>): seq<byte> { Flat(p => PartitionBytes(p), ps) }

  function NodeSection(ns: seq<Node>): seq<byte> { Flat(n => NodeBytes(n), ns) }

  /** The padding that aligns `n` to `align`. */
  function PaddingLength(n: nat, align: nat): nat
    requires align > 0
  {
    (align - n % align) % align
  }

  function Zeros(n: nat): seq<byte> { seq(n, _ => 0) }

  function BeforePadding(f: File): seq<byte> {
    Header(f.refCount, f.scheme, |f.partitions|, |f.nodes|, |f.lanes| / LANES)
    + PartitionSection(f.partitions) + NodeSection(f.nodes) + VecBytes(Interleaved(f.lanes)) + LabelBytes(f.lanes)
  }

  /** The bytes of a file. */
  function Serialize(f: File): seq<byte> {
    var front := BeforePadding(f);
    front + Zeros(PaddingLength(|front|, 4)) + RefBytes(f.lanes) + BitBytes(f.nodes)
  }

  // ----- the writer -----

  class IndexWriter {
    var buf: seq<byte>

    constructor ()
      ensures buf == []
    {
      buf := [];
    }

    method WriteI16(v: int)
      modifies this
      ensures buf == old(buf) + I16(v)
    {
      buf := buf + I16(v);
    }

    method WriteI32(v: int)
      modifies this
      ensures buf == old(buf) + I32(v)
    {
      buf := buf + I32(v);
    }

    method WriteU32(v: int)
      modifies this
      ensures buf == old(buf) + U32(v)
    {
      buf := buf + U32(v);
    }

    method WriteU8(v: byte)
      modifies this
      ensures buf == old(buf) + [v]
    {
      buf := buf + [v];
    }

    method AlignTo(align: nat)
      requires align > 0
      modifies this
      ensures buf == old(buf) + Zeros(PaddingLength(|old(buf)|, align))
    {
      buf := buf + Zeros(PaddingLength(|buf|, align));
    }

    method WriteVector(v: seq<int>)
      modifies this
      ensures buf == old(buf) + VecBytes(v)
    {
      var i := 0;
      while i < |v|
        invariant 0 <= i <= |v| && buf == old(buf) + VecBytes(v[..i])
      {
        assert v[..i + 1] == v[..i] + [v[i]];
        FlatSnoc(x => I16(x), v[..i], v[i]);
        WriteI16(v[i]);
        i := i + 1;
      }
      assert v[..i] == v;
    }

    /** The header, with the three counts still zero. */
    method WriteHeader(refCount: int, scheme: Scheme)
      requires buf == []
      modifies this
      ensures buf == Header(refCount, scheme, 0, 0, 0)
    {
      buf := MAGIC;
      WriteI32(SCALE);
      WriteI32(PACKED_DIMS);
      WriteI32(refCount);
      WriteI32(0);
      WriteI32(0);
      WriteI32(0);
      ghost var front := buf;
      WriteI16(SCHEME_ID_LEARNED_TREE);
      WriteI16(scheme.treeDepth);
      WriteI16(0);
      WriteI16(0);
      WriteI16(|scheme.predicates|);
      WritePredicates(scheme.predicates);
      SixPieces(front, I16(SCHEME_ID_LEARNED_TREE), I16(scheme.treeDepth), I16(0), I16(0), I16(|scheme.predicates|),
                PredicateSection(scheme.predicates));
    }

    method WritePredicates(ps: seq<TreePredicate>)
      modifies this
      ensures buf == old(buf) + PredicateSection(ps)
    {
      var i := 0;
      while i < |ps|
        invariant 0 <= i <= |ps| && buf == old(buf) + PredicateSection(ps[..i])
      {
        var p := ps[i];
        ghost var before := buf;
        WriteU8((p.dim % 256) as byte);
        WriteU8(if p.enabled then 1 else 0);
        WriteI16(p.threshold);
        assert buf == before + PredicateBytes(p);
        assert ps[..i + 1] == ps[..i] + [p];
        FlatSnoc(p => PredicateBytes(p), ps[..i], p);
        ConcatAssoc(old(buf), PredicateSection(ps[..i]), PredicateBytes(p));
        i := i + 1;
      }
      assert ps[..i] == ps;
    }

    /** Overwrites the 32-bit count at `offset`. */
    method PatchI32(offset: nat, v: int)
      requires offset + 4 <= |buf|
      modifies this
      ensures buf == old(buf)[..offset] + I32(v) + old(buf)[offset + 4..]
    {
      buf := buf[..offset] + I32(v) + buf[offset + 4..];
    }

    method WritePartitionEntry(p: Partition)
      modifies this
      ensures buf == old(buf) + PartitionBytes(p)
    {
      WriteU32(p.key);
      WriteI32(p.root);
      WriteI32(0);
      WriteI32(p.len);
      WriteVector(p.lo);
      WriteVector(p.hi);
      SixPieces(old(buf), U32(p.key), I32(p.root), I32(0), I32(p.len), VecBytes(p.lo), VecBytes(p.hi));
    }

    method WriteNodeEntry(n: Node)
      modifies this
      ensures buf == old(buf) + NodeBytes(n)
    {
      WriteI32(n.left);
      WriteI32(n.right);
      WriteI32(n.start);
      WriteI32(n.len);
      WriteVector(n.lo);
      WriteVector(n.hi);
      SixPieces(old(buf), I32(n.left), I32(n.right), I32(n.start), I32(n.len), VecBytes(n.lo), VecBytes(n.hi));
    }
  }

  lemma SixPieces(s: seq<byte>, a: seq<byte>, b: seq<byte>, c: seq<byte>, d: seq<byte>, e: seq<byte>, f: seq<byte>)
    ensures s + a + b + c + d + e + f == s + (a + b + c + d + e + f)
  {
    ConcatAssoc(s, a, b);
    ConcatAssoc(s, a + b, c);
    ConcatAssoc(s, a + b + c, d);
    ConcatAssoc(s, a + b + c + d, e);
    ConcatAssoc(s, a + b + c + d + e, f);
  }

  // ----- the rest of the file -----

  lemma Patched(a: seq<byte>, x: seq<byte>, b: seq<byte>, v: seq<byte>)
    requires |x| == 4
    ensures (a + x + b)[..|a|] + v + (a + x + b)[|a| + 4..] == a + v + b
  {
    assert (a + x + b)[..|a|] == a;
    assert (a + x + b)[|a| + 4..] == b;
  }

  /** Each of three fields in a row, with what is before and after it. */
  lemma ThreeFields(a: seq<byte>, x: seq<byte>, y: seq<byte>, z: seq<byte>, b: seq<byte>, t: seq<byte>)
    ensures a + x + y + z + b + t == a + x + (y + z + b + t)
    ensures a + x + y + z + b + t == a + x + y + (z + b + t)
    ensures a + x + y + z + b + t == a + x + y + z + (b + t)
  {
    ConcatAssoc(a + x + y + z, b, t);
    ConcatAssoc(a + x + y, z, b);
    ConcatAssoc(a + x + y, z + b, t);
    ConcatAssoc(a + x, y, z);
    ConcatAssoc(a + x, y + z, b);
    ConcatAssoc(a + x, y + z + b, t);
  }

  /** `write_partition_count`: the header's fourth field, whatever follows. */
  method WritePartitionCount(w: IndexWriter, count: int, ghost refCount: int, ghost scheme: Scheme, ghost p: int,
                             ghost n: int, ghost b: int, ghost tail: seq<byte>)
    requires w.buf == Header(refCount, scheme, p, n, b) + tail
    modifies w
    ensures w.buf == Header(refCount, scheme, count, n, b) + tail
  {
    ghost var front, rest := HeaderFront(refCount), I32(n) + I32(b) + HeaderBack(scheme) + tail;
    ThreeFields(front, I32(p), I32(n), I32(b), HeaderBack(scheme), tail);
    ThreeFields(front, I32(count), I32(n), I32(b), HeaderBack(scheme), tail);
    Patched(front, I32(p), rest, I32(count));
    w.PatchI32(8 + 4 + 4 + 4, count);
  }

  /** `write_node_count`. */
  method WriteNodeCount(w: IndexWriter, count: int, ghost refCount: int, ghost scheme: Scheme, ghost p: int,
                        ghost n: int, ghost b: int, ghost tail: seq<byte>)
    requires w.buf == Header(refCount, scheme, p, n, b) + tail
    modifies w
    ensures w.buf == Header(refCount, scheme, p, count, b) + tail
  {
    ghost var front, rest := HeaderFront(refCount) + I32(p), I32(b) + HeaderBack(scheme) + tail;
    ThreeFields(HeaderFront(refCount), I32(p), I32(n), I32(b), HeaderBack(scheme), tail);
    ThreeFields(HeaderFront(refCount), I32(p), I32(count), I32(b), HeaderBack(scheme), tail);
    Patched(front, I32(n), rest, I32(count));
    w.PatchI32(8 + 4 + 4 + 4 + 4, count);
  }

  /** `write_block_count`. */
  method WriteBlockCount(w: IndexWriter, count: int, ghost refCount: int, ghost scheme: Scheme, ghost p: int,
                         ghost n: int, ghost b: int, ghost tail: seq<byte>)
    requires w.buf == Header(refCount, scheme, p, n, b) + tail
    modifies w
    ensures w.buf == Header(refCount, scheme, p, n, count) + tail
  {
    ghost var front, rest := HeaderFront(refCount) + I32(p) + I32(n), HeaderBack(scheme) + tail;
    ThreeFields(HeaderFront(refCount), I32(p), I32(n), I32(b), HeaderBack(scheme), tail);
    ThreeFields(HeaderFront(refCount), I32(p), I32(n), I32(count), HeaderBack(scheme), tail);
    Patched(front, I32(b), rest, I32(count));
    w.PatchI32(8 + 4 + 4 + 4 + 4 + 4, count);
  }

  method WritePartitions(w: IndexWriter, ps: seq<Partition>)
    modifies w
    ensures w.buf == old(w.buf) + PartitionSection(ps)
  {
    var i := 0;
    while i < |ps|
      invariant 0 <= i <= |ps| && w.buf == old(w.buf) + PartitionSection(ps[..i])
    {
      w.WritePartitionEntry(ps[i]);
      assert ps[..i + 1] == ps[..i] + [ps[i]];
      FlatSnoc(p => PartitionBytes(p), ps[..i], ps[i]);
      ConcatAssoc(old(w.buf), PartitionSection(ps[..i]), PartitionBytes(ps[i]));
      i := i + 1;
    }
    assert ps[..i] == ps;
  }

  method WriteNodes(w: IndexWriter, ns: seq<Node>)
    modifies w
    ensures w.buf == old(w.buf) + NodeSection(ns)
  {
    var i := 0;
    while i < |ns|
      invariant 0 <= i <= |ns| && w.buf == old(w.buf) + NodeSection(ns[..i])
    {
      w.WriteNodeEntry(ns[i]);
      assert ns[..i + 1] == ns[..i] + [ns[i]];
      FlatSnoc(n => NodeBytes(n), ns[..i], ns[i]);
      ConcatAssoc(old(w.buf), NodeSection(ns[..i]), NodeBytes(ns[i]));
      i := i + 1;
    }
    assert ns[..i] == ns;
  }

  lemma BlockOffset(b: nat, pair: nat, l: nat, e: nat, i: nat)
    requires pair < DIM_PAIRS && l < LANES && e < 2 && i == b * (DIMS * LANES) + (pair * (2 * LANES) + 2 * l + e)
    ensures i / (DIMS * LANES) == b && i % (DIMS * LANES) == pair * (2 * LANES) + 2 * l + e
  {
  }

  lemma OffsetInRow(pair: nat, rest: nat, r: nat)
    requires rest < 2 * LANES && r == pair * (2 * LANES) + rest
    ensures r / (2 * LANES) == pair && r % (2 * LANES) == rest
  {
  }

  lemma OffsetInPair(l: nat, e: nat, r: nat)
    requires e < 2 && r == 2 * l + e
    ensures r / 2 == l && r % 2 == e
  {
  }

  lemma OffsetInBlock(pair: nat, l: nat, e: nat, r: nat)
    requires l < LANES && e < 2 && r == pair * (2 * LANES) + 2 * l + e
    ensures r % (2 * LANES) / 2 == l && r / (2 * LANES) == pair && r % 2 == e
  {
    OffsetInRow(pair, 2 * l + e, r);
    OffsetInPair(l, e, 2 * l + e);
    OffsetInPair(LANES * pair + l, e, r);
  }

  /** Where the two components of a pair of dimensions go. */
  lemma ComponentAt(lanes: seq<Lane>, b: nat, pair: nat, l: nat, e: nat, i: nat)
    requires b < |lanes| / LANES && pair < DIM_PAIRS && l < LANES && e < 2
    requires i == b * (DIMS * LANES) + (pair * (2 * LANES) + 2 * l + e)
    ensures i < |lanes| / LANES * (DIMS * LANES) && b * LANES + l < |lanes|
    ensures Component(lanes, i) == lanes[b * LANES + l].vector[2 * pair + e]
  {
    BlockOffset(b, pair, l, e, i);
    OffsetInBlock(pair, l, e, i % (DIMS * LANES));
  }

  /** One lane's components of a pair of dimensions. */
  method WritePair(w: IndexWriter, lanes: seq<Lane>, b: nat, pair: nat, l: nat, ghost start: seq<byte>, ghost k: nat)
    requires b < |lanes| / LANES && pair < DIM_PAIRS && l < LANES
    requires k == b * (DIMS * LANES) + (pair * (2 * LANES) + 2 * l)
    requires k <= |Interleaved(lanes)| && w.buf == start + VecBytes(Interleaved(lanes)[..k])
    modifies w
    ensures k + 2 <= |Interleaved(lanes)| && w.buf == start + VecBytes(Interleaved(lanes)[..k + 2])
  {
    ghost var all := Interleaved(lanes);
    ComponentAt(lanes, b, pair, l, 0, k);
    ComponentAt(lanes, b, pair, l, 1, k + 1);
    var v := lanes[b * LANES + l].vector;
    NextComponent(start, all, k);
    NextComponent(start, all, k + 1);
    w.WriteI16(v[2 * pair]);
    w.WriteI16(v[2 * pair + 1]);
  }

  lemma NextComponent(start: seq<byte>, all: seq<int>, k: nat)
    requires k < |all|
    ensures start + VecBytes(all[..k]) + I16(all[k]) == start + VecBytes(all[..k + 1])
  {
    assert all[..k + 1] == all[..k] + [all[k]];
    FlatSnoc(x => I16(x), all[..k], all[k]);
    ConcatAssoc(start, VecBytes(all[..k]), I16(all[k]));
  }

  /** One pair of dimensions of a block, lane by lane. */
  method WriteRow(w: IndexWriter, lanes: seq<Lane>, b: nat, pair: nat, ghost start: seq<byte>, ghost k: nat,
                  ghost end: nat)
    requires b < |lanes| / LANES && pair < DIM_PAIRS && k == b * (DIMS * LANES) + pair * (2 * LANES)
    requires k <= |Interleaved(lanes)| && w.buf == start + VecBytes(Interleaved(lanes)[..k]) && end == k + 2 * LANES
    modifies w
    ensures end <= |Interleaved(lanes)| && w.buf == start + VecBytes(Interleaved(lanes)[..end])
  {
    var l := 0;
    ghost var at, all := k, Interleaved(lanes);
    while l < LANES
      invariant 0 <= l <= LANES && at == k + 2 * l && at <= |all| && w.buf == start + VecBytes(all[..at])
    {
      WritePair(w, lanes, b, pair, l, start, at);
      l, at := l + 1, at + 2;
    }
    assert at == end;
  }

  /** One block: pair by pair. */
  method WriteBlock(w: IndexWriter, lanes: seq<Lane>, b: nat, ghost start: seq<byte>, ghost k: nat, ghost end: nat)
    requires b < |lanes| / LANES && k == b * (DIMS * LANES) && end == k + DIMS * LANES
    requires k <= |Interleaved(lanes)| && w.buf == start + VecBytes(Interleaved(lanes)[..k])
    modifies w
    ensures end <= |Interleaved(lanes)| && w.buf == start + VecBytes(Interleaved(lanes)[..end])
  {
    var pair := 0;
    ghost var at, all := k, Interleaved(lanes);
    while pair < DIM_PAIRS
      invariant 0 <= pair <= DIM_PAIRS && at == k + pair * (2 * LANES) && at <= |all|
      invariant w.buf == start + VecBytes(all[..at])
    {
      ghost var next := at + 2 * LANES;
      WriteRow(w, lanes, b, pair, start, at, next);
      pair, at := pair + 1, next;
    }
    assert at == end;
  }

  /** The block section. */
  method WriteVectors(w: IndexWriter, lanes: seq<Lane>)
    modifies w
    ensures w.buf == old(w.buf) + VecBytes(Interleaved(lanes))
  {
    ghost var start, all := w.buf, Interleaved(lanes);
    assert all[..0] == [];
    var b := 0;
    while b < |lanes| / LANES
      invariant 0 <= b <= |lanes| / LANES && b * (DIMS * LANES) <= |all|
      invariant w.buf == start + VecBytes(all[..b * (DIMS * LANES)])
    {
      WriteBlock(w, lanes, b, start, b * (DIMS * LANES), (b + 1) * (DIMS * LANES));
      b := b + 1;
    }
    assert all[..b * (DIMS * LANES)] == all;
  }

  method WriteLabels(w: IndexWriter, lanes: seq<Lane>)
    modifies w
    ensures w.buf == old(w.buf) + LabelBytes(lanes)
  {
    var k := 0;
    while k < |lanes|
      invariant 0 <= k <= |lanes| && w.buf == old(w.buf) + LabelBytes(lanes[..k])
    {
      w.WriteU8((lanes[k].lbl % 256) as byte);
      assert lanes[..k + 1] == lanes[..k] + [lanes[k]];
      FlatSnoc(l => LabelByte(l), lanes[..k], lanes[k]);
      ConcatAssoc(old(w.buf), LabelBytes(lanes[..k]), LabelByte(lanes[k]));
      k := k + 1;
    }
    assert lanes[..k] == lanes;
  }

  method WriteRefIndices(w: IndexWriter, lanes: seq<Lane>)
    modifies w
    ensures w.buf == old(w.buf) + RefBytes(lanes)
  {
    var k := 0;
    while k < |lanes|
      invariant 0 <= k <= |lanes| && w.buf == old(w.buf) + RefBytes(lanes[..k])
    {
      w.WriteU32(lanes[k].refIndex);
      assert lanes[..k + 1] == lanes[..k] + [lanes[k]];
      FlatSnoc(l => RefByte(l), lanes[..k], lanes[k]);
      ConcatAssoc(old(w.buf), RefBytes(lanes[..k]), RefByte(lanes[k]));
      k := k + 1;
    }
    assert lanes[..k] == lanes;
  }

  method WriteClassBits(w: IndexWriter, ns: seq<Node>)
    modifies w
    ensures w.buf == old(w.buf) + BitBytes(ns)
  {
    var i := 0;
    while i < |ns|
      invariant 0 <= i <= |ns| && w.buf == old(w.buf) + BitBytes(ns[..i])
    {
      w.WriteU8(ClassByte(ns[i].classBits));
      assert ns[..i + 1] == ns[..i] + [ns[i]];
      FlatSnoc(n => BitByte(n), ns[..i], ns[i]);
      ConcatAssoc(old(w.buf), BitBytes(ns[..i]), BitByte(ns[i]));
      i := i + 1;
    }
    assert ns[..i] == ns;
  }

  /** The two counts known before the records. */
  method WriteCounts(w: IndexWriter, f: File)
    requires w.buf == Header(f.refCount, f.scheme, 0, 0, 0)
    modifies w
    ensures w.buf == Header(f.refCount, f.scheme, |f.partitions|, |f.nodes|, 0)
  {
    WritePartitionCount(w, |f.partitions|, f.refCount, f.scheme, 0, 0, 0, []);
    WriteNodeCount(w, |f.nodes|, f.refCount, f.scheme, |f.partitions|, 0, 0, []);
  }

  /** The counts and the records; the block count is patched once they are written. */
  method WriteRecords(w: IndexWriter, f: File)
    requires w.buf == Header(f.refCount, f.scheme, 0, 0, 0)
    modifies w
    ensures w.buf == Header(f.refCount, f.scheme, |f.partitions|, |f.nodes|, |f.lanes| / LANES)
                     + (PartitionSection(f.partitions) + NodeSection(f.nodes))
  {
    WriteCounts(w, f);
    ghost var header, ps, ns := w.buf, PartitionSection(f.partitions), NodeSection(f.nodes);
    WritePartitions(w, f.partitions);
    WriteNodes(w, f.nodes);
    ConcatAssoc(header, ps, ns);
    WriteBlockCount(w, |f.lanes| / LANES, f.refCount, f.scheme, |f.partitions|, |f.nodes|, 0, ps + ns);
  }

  /** The second half of `build_index`: the counts and the sections. */
  method WriteBody(w: IndexWriter, f: File)
    requires w.buf == Header(f.refCount, f.scheme, 0, 0, 0)
    modifies w
    ensures w.buf == Serialize(f)
  {
    WriteRecords(w, f);
    ConcatAssoc(Header(f.refCount, f.scheme, |f.partitions|, |f.nodes|, |f.lanes| / LANES),
                PartitionSection(f.partitions), NodeSection(f.nodes));
    WriteVectors(w, f.lanes);
    WriteLabels(w, f.lanes);
    ghost var front := w.buf;
    assert front == BeforePadding(f);
    w.AlignTo(4);
    WriteRefIndices(w, f.lanes);
    WriteClassBits(w, f.nodes);
  }
}
