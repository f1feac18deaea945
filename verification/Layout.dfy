/** Record strides, field offsets and the accessors that read one field of one record. */
module Layout {
  import opened Base
  import opened Bytes
  import opened KdTree
  import opened Index
  import opened Format

  const USIZE := 0x1_0000_0000_0000_0000

  const KEY_OFF := 0
  const ROOT_OFF := 4
  const LEFT_OFF := 0
  const RIGHT_OFF := 4
  const START_OFF := 8
  const LEN_OFF := 12
  const MIN_OFF := 16
  const MAX_OFF := 48

  /** A conversion to the 64-bit unsigned type, or arithmetic in it. */
  function Usize(v: int): (r: nat) { if 0 <= v < USIZE then v else v % USIZE }

  function I16At(bytes: seq<byte>, off: nat): int
    requires off + 2 <= |bytes|
  {
    ReadI16(bytes[off..off + 2])
  }

  function I32At(bytes: seq<byte>, off: nat): int
    requires off + 4 <= |bytes|
  {
    ReadI32(bytes[off..off + 4])
  }

  function U32At(bytes: seq<byte>, off: nat): nat
    requires off + 4 <= |bytes|
  {
    ReadU32(bytes[off..off + 4])
  }

  function VecAt(bytes: seq<byte>, off: nat): Vec
    requires off + 2 * PACKED_DIMS <= |bytes|
  {
    seq(PACKED_DIMS, d requires 0 <= d < PACKED_DIMS => I16At(bytes, off + 2 * d))
  }

  // ----- the accessors -----

  predicate HasRecord(bytes: seq<byte>, base: nat, i: nat, stride: nat) { base + i * stride + stride <= |bytes| }

  function PartitionKey(bytes: seq<byte>, base: nat, i: nat): nat
    requires HasRecord(bytes, base, i, PARTITION_STRIDE)
  {
    U32At(bytes, base + i * PARTITION_STRIDE + KEY_OFF)
  }

  function PartitionAt(bytes: seq<byte>, base: nat, i: nat): Partition
    requires HasRecord(bytes, base, i, PARTITION_STRIDE)
  {
    var at := base + i * PARTITION_STRIDE;
    Partition(PartitionKey(bytes, base, i), Usize(I32At(bytes, at + ROOT_OFF)), Usize(I32At(bytes, at + LEN_OFF)),
              VecAt(bytes, at + MIN_OFF), VecAt(bytes, at + MAX_OFF))
  }

  function NodeAt(bytes: seq<byte>, base: nat, bitsBase: nat, i: nat): Node
    requires HasRecord(bytes, base, i, NODE_STRIDE) && bitsBase + i < |bytes|
  {
    var at := base + i * NODE_STRIDE;
    Node(I32At(bytes, at + LEFT_OFF), I32At(bytes, at + RIGHT_OFF), Usize(I32At(bytes, at + START_OFF)),
         Usize(I32At(bytes, at + LEN_OFF)), VecAt(bytes, at + MIN_OFF), VecAt(bytes, at + MAX_OFF),
         ClassBits(bytes[bitsBase + i]))
  }

  // ----- every accessor returns the value written -----

  predicate VecFits(v: seq<int>) { forall d :: 0 <= d < |v| ==> Fits16(v[d]) }

  predicate PartitionFits(p: Partition) {
    FitsU32(p.key) && Fits32(p.root) && Fits32(p.len) && VecFits(p.lo) && VecFits(p.hi)
  }

  predicate NodeFits(n: Node) {
    && Fits32(n.left) && Fits32(n.right) && Fits32(n.start) && Fits32(n.len) && VecFits(n.lo) && VecFits(n.hi)
    && forall l :: l in n.classBits ==> l < 8
  }

  lemma SubSlice<T>(s: seq<T>, a: nat, n: nat, i: nat, j: nat)
    requires a + n <= |s| && i <= j <= n
    ensures s[a..a + n][i..j] == s[a + i..a + j]
  {
    var outer := s[a..a + n];
    assert forall k :: 0 <= k < j - i ==> outer[i..j][k] == s[a + i..a + j][k];
  }

  lemma I16Slice(bytes: seq<byte>, off: nat, xs: seq<int>, d: nat)
    requires d < |xs| && off + 2 * |xs| <= |bytes| && bytes[off..off + 2 * |xs|] == VecBytes(xs) && Fits16(xs[d])
    ensures I16At(bytes, off + 2 * d) == xs[d]
  {
    FlatAt(x => I16(x), xs, 2, d);
    SubSlice(bytes, off, 2 * |xs|, 2 * d, 2 * d + 2);
    I16RoundTrip(xs[d]);
  }

  lemma VecRoundTrip(bytes: seq<byte>, off: nat, v: Vec)
    requires off + 32 <= |bytes| && bytes[off..off + 32] == VecBytes(v) && VecFits(v)
    ensures VecAt(bytes, off) == v
  {
    forall d | 0 <= d < PACKED_DIMS ensures VecAt(bytes, off)[d] == v[d] {
      I16Slice(bytes, off, v, d);
    }
  }

  /** Both kinds of record: four integers and two vectors. */
  function RecordBytes(a: seq<byte>, b: seq<byte>, c: seq<byte>, d: seq<byte>, lo: Vec, hi: Vec): seq<byte> {
    a + b + c + d + VecBytes(lo) + VecBytes(hi)
  }

  lemma RecordFields(bytes: seq<byte>, at: nat, a: seq<byte>, b: seq<byte>, c: seq<byte>, d: seq<byte>, lo: Vec,
                     hi: Vec)
    requires |a| == |b| == |c| == |d| == 4 && at + 80 <= |bytes|
    requires bytes[at..at + 80] == RecordBytes(a, b, c, d, lo, hi)
    ensures bytes[at..at + 4] == a && bytes[at + 4..at + 8] == b && bytes[at + 8..at + 12] == c
    ensures bytes[at + 12..at + 16] == d
    ensures bytes[at + 16..at + 48] == VecBytes(lo) && bytes[at + 48..at + 80] == VecBytes(hi)
  {
    VecLength(lo);
    VecLength(hi);
    var r := RecordBytes(a, b, c, d, lo, hi);
    SubSlice(bytes, at, 80, 0, 4);
    SubSlice(bytes, at, 80, 4, 8);
    SubSlice(bytes, at, 80, 8, 12);
    SubSlice(bytes, at, 80, 12, 16);
    SubSlice(bytes, at, 80, 16, 48);
    SubSlice(bytes, at, 80, 48, 80);
    assert r[0..4] == a && r[4..8] == b && r[8..12] == c && r[12..16] == d;
    assert r[16..48] == VecBytes(lo) && r[48..80] == VecBytes(hi);
  }

  lemma PartitionRoundTrip(bytes: seq<byte>, base: nat, i: nat, p: Partition)
    requires HasRecord(bytes, base, i, PARTITION_STRIDE) && PartitionFits(p)
    requires bytes[base + i * PARTITION_STRIDE..base + i * PARTITION_STRIDE + PARTITION_STRIDE] == PartitionBytes(p)
    ensures PartitionAt(bytes, base, i) == p
  {
    var at := base + i * PARTITION_STRIDE;
    RecordFields(bytes, at, U32(p.key), I32(p.root), I32(0), I32(p.len), p.lo, p.hi);
    U32RoundTrip(p.key);
    I32RoundTrip(p.root);
    I32RoundTrip(p.len);
    VecRoundTrip(bytes, at + MIN_OFF, p.lo);
    VecRoundTrip(bytes, at + MAX_OFF, p.hi);
  }

  lemma NodeNumbers(bytes: seq<byte>, at: nat, n: Node)
    requires at + 80 <= |bytes| && NodeFits(n)
    requires bytes[at..at + 4] == I32(n.left) && bytes[at + 4..at + 8] == I32(n.right)
    requires bytes[at + 8..at + 12] == I32(n.start) && bytes[at + 12..at + 16] == I32(n.len)
    ensures I32At(bytes, at + LEFT_OFF) == n.left && I32At(bytes, at + RIGHT_OFF) == n.right
    ensures Usize(I32At(bytes, at + START_OFF)) == n.start && Usize(I32At(bytes, at + LEN_OFF)) == n.len
  {
    I32RoundTrip(n.left);
    I32RoundTrip(n.right);
    I32RoundTrip(n.start);
    I32RoundTrip(n.len);
  }

  lemma {:induction false} NodeRoundTrip(bytes: seq<byte>, base: nat, bitsBase: nat, i: nat, n: Node)
    requires HasRecord(bytes, base, i, NODE_STRIDE) && bitsBase + i < |bytes| && NodeFits(n)
    requires bytes[base + i * NODE_STRIDE..base + i * NODE_STRIDE + NODE_STRIDE] == NodeBytes(n)
    requires bytes[bitsBase + i] == ClassByte(n.classBits)
    ensures NodeAt(bytes, base, bitsBase, i) == n
  {
    var at := base + i * NODE_STRIDE;
    NodeFields(bytes, at, n);
    ClassRoundTrip(n.classBits);
    NodeTogether(bytes, base, bitsBase, i, at, n.lo, n.hi, n);
  }

  lemma {:induction false} NodeTogether(bytes: seq<byte>, base: nat, bitsBase: nat, i: nat, at: nat, lo: Vec, hi: Vec,
                                        n: Node)
    requires HasRecord(bytes, base, i, NODE_STRIDE) && bitsBase + i < |bytes| && at == base + i * NODE_STRIDE
    requires I32At(bytes, at + LEFT_OFF) == n.left && I32At(bytes, at + RIGHT_OFF) == n.right
    requires Usize(I32At(bytes, at + START_OFF)) == n.start && Usize(I32At(bytes, at + LEN_OFF)) == n.len
    requires VecAt(bytes, at + MIN_OFF) == lo == n.lo && VecAt(bytes, at + MAX_OFF) == hi == n.hi
    requires ClassBits(bytes[bitsBase + i]) == n.classBits
    ensures NodeAt(bytes, base, bitsBase, i) == n
  {
  }

  lemma {:induction false} NodeFields(bytes: seq<byte>, at: nat, n: Node)
    requires at + NODE_STRIDE <= |bytes| && NodeFits(n) && bytes[at..at + NODE_STRIDE] == NodeBytes(n)
    ensures I32At(bytes, at + LEFT_OFF) == n.left && I32At(bytes, at + RIGHT_OFF) == n.right
    ensures Usize(I32At(bytes, at + START_OFF)) == n.start && Usize(I32At(bytes, at + LEN_OFF)) == n.len
    ensures VecAt(bytes, at + MIN_OFF) == n.lo && VecAt(bytes, at + MAX_OFF) == n.hi
  {
    RecordFields(bytes, at, I32(n.left), I32(n.right), I32(n.start), I32(n.len), n.lo, n.hi);
    NodeNumbers(bytes, at, n);
    VecRoundTrip(bytes, at + MIN_OFF, n.lo);
    VecRoundTrip(bytes, at + MAX_OFF, n.hi);
  }
}
