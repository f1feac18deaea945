/** Opening an index file: the moving cursor, the checks and the sections found. */
module Loader {
  import opened Base
  import opened Bytes
  import opened Routing
  import opened Format
  import opened Layout

  const HEADER_BYTES := 42

  datatype Fields = Fields(scale: int, packedDims: int, refCount: int, partitionCount: int,
                           nodeCount: int, totalBlocks: int,
                           schemeId: int, schemeParam: int, amountCuts: int, dowCuts: int, predicateCount: int)

  /** The mapped bytes and where each section was found. */
  datatype Loaded = Loaded(bytes: seq<byte>, refCount: nat, scheme: Scheme, partitionsBase: nat, partitionCount: nat,
                           nodesBase: nat, nodeCount: nat, vectorsBase: nat, vectorsLen: nat,
                           labelsBase: nat, labelsLen: nat, refIndicesBase: nat, refIndicesLen: nat,
                           classBitsBase: nat, keyToPartition: seq<int>, activeKeys: seq<nat>)

  // ----- what loading computes -----

  function FieldsOf(b: seq<byte>): Fields
    requires |b| >= HEADER_BYTES
  {
    Fields(I32At(b, 8), I32At(b, 12), I32At(b, 16), I32At(b, 20), I32At(b, 24), I32At(b, 28),
           I16At(b, 32), I16At(b, 34), I16At(b, 36), I16At(b, 38), I16At(b, 40))
  }

  function ParseFields(b: seq<byte>): Result<Fields> {
    if |b| < 32 then Err("unexpected EOF (i32)")
    else if |b| < HEADER_BYTES then Err("unexpected EOF (i16)")
    else Ok(FieldsOf(b))
  }

  function PredicateAt(b: seq<byte>, at: nat): TreePredicate
    requires at + 4 <= |b|
  {
    TreePredicate(b[at], I16At(b, at + 2), b[at + 1] != 0)
  }

  function ParsePredicate(b: seq<byte>, at: nat): (r: Result<TreePredicate>)
    ensures r.Ok? <==> at + 4 <= |b| && (PredicateAt(b, at).enabled ==> PredicateAt(b, at).dim < DIMS)
    ensures r.Ok? ==> r.value == PredicateAt(b, at)
  {
    if at + 2 > |b| then Err("unexpected EOF (u8)")
    else if at + 4 > |b| then Err("unexpected EOF (i16)")
    else if PredicateAt(b, at).enabled && PredicateAt(b, at).dim >= DIMS then Err("invalid tree predicate dimension")
    else Ok(PredicateAt(b, at))
  }

  function ParsePredicates(b: seq<byte>, at: nat, n: nat): Result<seq<TreePredicate>> {
    if n == 0 then Ok([])
    else
      var front :- ParsePredicates(b, at, n - 1);
      var p :- ParsePredicate(b, at + 4 * (n - 1));
      Ok(front + [p])
  }

  function Keys(b: seq<byte>, base: nat, n: nat): seq<nat>
    requires base + n * PARTITION_STRIDE <= |b|
  {
    seq(n, i requires 0 <= i < n => PartitionKey(b, base, i))
  }

  /** The last partition with each key, or -1. */
  function KeyTable(keys: seq<nat>): (table: seq<int>)
    ensures |table| == KEY_LOOKUP_SIZE
  {
    if keys == [] then seq(KEY_LOOKUP_SIZE, _ => -1)
    else
      var last := |keys| - 1;
      if keys[last] < KEY_LOOKUP_SIZE then KeyTable(keys[..last])[keys[last] := last] else KeyTable(keys[..last])
  }

  /** That is what the table says, for every list of keys, with repetitions or not. */
  lemma {:induction false} KeyTableIs(keys: seq<nat>, k: nat)
    requires k < KEY_LOOKUP_SIZE
    ensures var i := KeyTable(keys)[k];
            if k in keys then 0 <= i < |keys| && keys[i] == k && forall j :: i < j < |keys| ==>
              keys[j] != k else i == -1
  {
    if keys != [] {
      var last := |keys| - 1;
      KeyTableIs(keys[..last], k);
      assert keys == keys[..last] + [keys[last]];
    }
  }

  /** The keys below `n` that have a partition, ascending. */
  function ActiveKeys(table: seq<int>, n: nat): seq<nat>
    requires n <= |table|
    decreases table, n
  {
    if n == 0 then [] else ActiveKeys(table, n - 1) + (if table[n - 1] >= 0 then [n - 1] else [])
  }

  /** The block sections, from the number of components and lanes. */
  function PlaceBlocks(b: seq<byte>, h: Fields, scheme: Scheme, partitionsBase: nat, nodesBase: nat, vectorsBase: nat,
                       vectorsLen: nat, lanes: nat): Result<Loaded>
    requires partitionsBase + Usize(h.partitionCount) * PARTITION_STRIDE <= |b|
  {
    var labelsBase := Usize(vectorsBase + Usize(vectorsLen * 2));
    var labelsEnd := Usize(labelsBase + lanes);
    var refIndicesBase := AlignCursor(labelsEnd, 4);
    CheckBlocks(b, h, scheme, partitionsBase, nodesBase, vectorsBase, vectorsLen, lanes, labelsBase, labelsEnd,
                refIndicesBase, Usize(refIndicesBase + Usize(lanes * 4)))
  }

  function CheckBlocks(b: seq<byte>, h: Fields, scheme: Scheme, partitionsBase: nat, nodesBase: nat, vectorsBase: nat,
                       vectorsLen: nat, lanes: nat, labelsBase: nat, labelsEnd: nat, refIndicesBase: nat,
                       classBitsBase: nat): Result<Loaded>
    requires partitionsBase + Usize(h.partitionCount) * PARTITION_STRIDE <= |b|
  {
    var table := KeyTable(Keys(b, partitionsBase, Usize(h.partitionCount)));
    if vectorsBase % 2 != 0 then Err("unaligned vectors section")
    else if labelsBase > |b| then Err("truncated vectors")
    else if labelsEnd > |b| then Err("truncated labels")
    else if classBitsBase > |b| then Err("truncated ref indices")
    else if classBitsBase + Usize(h.nodeCount) > |b| then Err("truncated node class bits")
    else Ok(Loaded(b, Usize(h.refCount), scheme, partitionsBase, Usize(h.partitionCount), nodesBase, Usize(h.nodeCount),
                   vectorsBase, vectorsLen, labelsBase, lanes, refIndicesBase, lanes, classBitsBase, table,
                   ActiveKeys(table, KEY_LOOKUP_SIZE)))
  }

  function ParseRecords(b: seq<byte>, h: Fields, scheme: Scheme, partitionsBase: nat): Result<Loaded> {
    var nodesBase := partitionsBase + Usize(h.partitionCount) * PARTITION_STRIDE;
    var vectorsBase := nodesBase + Usize(h.nodeCount) * NODE_STRIDE;
    if Usize(h.partitionCount) * PARTITION_STRIDE >= USIZE then Err("partition_count overflow")
    else if nodesBase > |b| then Err("truncated partitions")
    else if Usize(h.nodeCount) * NODE_STRIDE >= USIZE then Err("node_count overflow")
    else if vectorsBase > |b| then Err("truncated nodes")
    else PlaceBlocks(b, h, scheme, partitionsBase, nodesBase, vectorsBase, Usize(Usize(h.totalBlocks) * DIMS * LANES),
                     Usize(Usize(h.totalBlocks) * LANES))
  }

  function ParseScheme(b: seq<byte>, h: Fields): Result<Loaded> {
    ParseFrom(b, h, CutsEnd(h))
  }

  function CutCount(h: Fields): nat { Usize(Usize(h.amountCuts) + Usize(h.dowCuts)) }

  function CutsEnd(h: Fields): nat { HEADER_BYTES + 2 * CutCount(h) }

  /** What follows the cuts, which end at `start`. */
  function ParseFrom(b: seq<byte>, h: Fields, start: nat): Result<Loaded> {
    if start > |b| then Err("unexpected EOF (i16)") else ParseTree(b, h, start)
  }

  function ParseTree(b: seq<byte>, h: Fields, start: nat): Result<Loaded> {
    if h.predicateCount < 0 then Err("capacity overflow")
    else
      var ps :- ParsePredicates(b, start, h.predicateCount);
      CheckHeader(b, h, ps, start + 4 * h.predicateCount)
  }

  function CheckHeader(b: seq<byte>, h: Fields, ps: seq<TreePredicate>, cursor: nat): Result<Loaded> {
    if h.schemeId != SCHEME_ID_LEARNED_TREE then Err("Unsupported partition scheme ID")
    else if h.scale != SCALE then Err("invalid index scale")
    else if Usize(h.packedDims) != PACKED_DIMS then Err("invalid packed dimensions")
    else ParseRecords(b, h, Scheme(Usize(h.schemeParam), ps), cursor)
  }

  /** Opening a file, as a function of its bytes. */
  function Parse(b: seq<byte>): Result<Loaded> {
    if |b| < 8 then Err("file too short")
    else if b[..8] != MAGIC then Err("unsupported index magic")
    else
      var h :- ParseFields(b);
      ParseScheme(b, h)
  }

  /** The header is the one of this version and this build. */
  predicate HeaderExpected(b: seq<byte>) {
    && |b| >= HEADER_BYTES && b[..8] == MAGIC && I32At(b, 8) == SCALE && Usize(I32At(b, 12)) == PACKED_DIMS
    && I16At(b, 32) == SCHEME_ID_LEARNED_TREE && I16At(b, 40) >= 0
  }

  /** No other file opens, whatever else it holds. */
  lemma {:induction false} OnlyExpectedOpens(b: seq<byte>)
    ensures Parse(b).Ok? ==> HeaderExpected(b)
  {
    var h := ParseFields(b);
    if h.Ok? { CheckedHeader(b, h.value, CutsEnd(h.value)); }
  }

  lemma {:induction false} CheckedHeader(b: seq<byte>, h: Fields, start: nat)
    ensures ParseFrom(b, h, start).Ok? ==>
              h.scale == SCALE && Usize(h.packedDims) == PACKED_DIMS && h.schemeId == SCHEME_ID_LEARNED_TREE
              && h.predicateCount >= 0
  {
  }

  // ----- the loader -----

  function AlignCursor(cursor: nat, align: nat): (r: nat)
    requires align > 0
  {
    cursor + PaddingLength(cursor, align)
  }

  method NextI32(b: seq<byte>, cursor: nat) returns (r: Result<int>, next: nat)
    ensures r == if cursor + 4 > |b| then Err("unexpected EOF (i32)") else Ok(I32At(b, cursor))
    ensures next == if r.Ok? then cursor + 4 else cursor
  {
    if cursor + 4 > |b| { return Err("unexpected EOF (i32)"), cursor; }
    return Ok(ReadI32(b[cursor..cursor + 4])), cursor + 4;
  }

  method NextI16(b: seq<byte>, cursor: nat) returns (r: Result<int>, next: nat)
    ensures r == if cursor + 2 > |b| then Err("unexpected EOF (i16)") else Ok(I16At(b, cursor))
    ensures next == if r.Ok? then cursor + 2 else cursor
  {
    if cursor + 2 > |b| { return Err("unexpected EOF (i16)"), cursor; }
    return Ok(ReadI16(b[cursor..cursor + 2])), cursor + 2;
  }

  method NextU8(b: seq<byte>, cursor: nat) returns (r: Result<byte>, next: nat)
    ensures r == if cursor + 1 > |b| then Err("unexpected EOF (u8)") else Ok(b[cursor])
    ensures next == if r.Ok? then cursor + 1 else cursor
  {
    if cursor + 1 > |b| { return Err("unexpected EOF (u8)"), cursor; }
    return Ok(b[cursor]), cursor + 1;
  }

  method LoadFields(b: seq<byte>) returns (r: Result<Fields>, cursor: nat)
    requires |b| >= 8
    ensures r == ParseFields(b) && (r.Ok? ==> cursor == HEADER_BYTES)
  {
    cursor := 8;
    var scale, packedDims, refCount, partitionCount, nodeCount, totalBlocks: int;
    scale, cursor :- NextI32(b, cursor);
    packedDims, cursor :- NextI32(b, cursor);
    refCount, cursor :- NextI32(b, cursor);
    partitionCount, cursor :- NextI32(b, cursor);
    nodeCount, cursor :- NextI32(b, cursor);
    totalBlocks, cursor :- NextI32(b, cursor);
    var schemeId, schemeParam, amountCuts, dowCuts, predicateCount: int;
    schemeId, cursor :- NextI16(b, cursor);
    schemeParam, cursor :- NextI16(b, cursor);
    amountCuts, cursor :- NextI16(b, cursor);
    dowCuts, cursor :- NextI16(b, cursor);
    predicateCount, cursor :- NextI16(b, cursor);
    r := Ok(Fields(scale, packedDims, refCount, partitionCount, nodeCount, totalBlocks,
                   schemeId, schemeParam, amountCuts, dowCuts, predicateCount));
  }

  method SkipCuts(b: seq<byte>, start: nat, n: nat) returns (r: Result<()>, cursor: nat)
    requires start <= |b|
    ensures r == if start + 2 * n > |b| then Err("unexpected EOF (i16)") else Ok(())
    ensures r.Ok? ==> cursor == start + 2 * n
  {
    cursor := start;
    var k := 0;
    while k < n
      invariant 0 <= k <= n && cursor == start + 2 * k <= |b|
    {
      var _, next :- NextI16(b, cursor);
      cursor := next;
      k := k + 1;
    }
    r := Ok(());
  }

  lemma {:induction false} FirstFailureStays(b: seq<byte>, at: nat, k: nat, n: nat)
    requires k <= n && ParsePredicates(b, at, k).Err?
    ensures ParsePredicates(b, at, n) == ParsePredicates(b, at, k)
  {
    if k < n { FirstFailureStays(b, at, k, n - 1); }
  }

  method LoadPredicate(b: seq<byte>, start: nat) returns (r: Result<TreePredicate>, cursor: nat)
    ensures r == ParsePredicate(b, start) && (r.Ok? ==> cursor == start + 4)
  {
    cursor := start;
    var dim, flags: byte;
    dim, cursor :- NextU8(b, cursor);
    flags, cursor :- NextU8(b, cursor);
    var threshold: int;
    threshold, cursor :- NextI16(b, cursor);
    var enabled := flags != 0;
    if enabled && dim >= DIMS { return Err("invalid tree predicate dimension"), cursor; }
    r := Ok(TreePredicate(dim, threshold, enabled));
  }

  method LoadPredicates(b: seq<byte>, start: nat, n: nat) returns (r: Result<seq<TreePredicate>>, cursor: nat)
    ensures r == ParsePredicates(b, start, n) && (r.Ok? ==> cursor == start + 4 * n)
  {
    cursor := start;
    var ps := [];
    var k := 0;
    while k < n
      invariant 0 <= k <= n && cursor == start + 4 * k && ParsePredicates(b, start, k) == Ok(ps)
    {
      var p, next := LoadPredicate(b, cursor);
      if p.Err? {
        FirstFailureStays(b, start, k + 1, n);
        return Err(p.message), cursor;
      }
      ps, cursor := ps + [p.value], next;
      k := k + 1;
    }
    r := Ok(ps);
  }

  method FillKeyTable(b: seq<byte>, base: nat, n: nat) returns (table: seq<int>)
    requires base + n * PARTITION_STRIDE <= |b|
    ensures table == KeyTable(Keys(b, base, n))
  {
    table := seq(KEY_LOOKUP_SIZE, _ => -1);
    assert Keys(b, base, n)[..0] == [];
    var idx := 0;
    while idx < n
      invariant 0 <= idx <= n && table == KeyTable(Keys(b, base, n)[..idx])
    {
      assert Keys(b, base, n)[..idx + 1][..idx] == Keys(b, base, n)[..idx];
      var key := PartitionKey(b, base, idx);
      if key < KEY_LOOKUP_SIZE { table := table[key := idx]; }
      idx := idx + 1;
    }
    assert Keys(b, base, n)[..idx] == Keys(b, base, n);
  }

  method ListActiveKeys(table: seq<int>) returns (keys: seq<nat>)
    requires |table| == KEY_LOOKUP_SIZE
    ensures keys == ActiveKeys(table, KEY_LOOKUP_SIZE)
  {
    keys := [];
    var key := 0;
    while key < KEY_LOOKUP_SIZE
      invariant 0 <= key <= KEY_LOOKUP_SIZE && keys == ActiveKeys(table, key)
    {
      if table[key] >= 0 { keys := keys + [key]; }
      key := key + 1;
    }
  }

  /** The block sections, one after the other. */
  method LoadBlocks(b: seq<byte>, h: Fields, scheme: Scheme, partitionsBase: nat, nodesBase: nat, start: nat,
                    vectorsLen: nat, lanes: nat, keyToPartition: seq<int>) returns (r: Result<Loaded>)
    requires partitionsBase + Usize(h.partitionCount) * PARTITION_STRIDE <= |b|
    requires keyToPartition == KeyTable(Keys(b, partitionsBase, Usize(h.partitionCount)))
    ensures r == PlaceBlocks(b, h, scheme, partitionsBase, nodesBase, start, vectorsLen, lanes)
  {
    var cursor := start;
    if cursor % 2 != 0 { return Err("unaligned vectors section"); }
    cursor := Usize(cursor + Usize(vectorsLen * 2));
    if cursor > |b| { return Err("truncated vectors"); }

    var labelsBase := cursor;
    cursor := Usize(cursor + lanes);
    if cursor > |b| { return Err("truncated labels"); }

    cursor := AlignCursor(cursor, 4);
    var refIndicesBase := cursor;
    cursor := Usize(cursor + Usize(lanes * 4));
    if cursor > |b| { return Err("truncated ref indices"); }
    if cursor + Usize(h.nodeCount) > |b| { return Err("truncated node class bits"); }

    var activeKeys := ListActiveKeys(keyToPartition);
    r := Ok(Loaded(b, Usize(h.refCount), scheme, partitionsBase, Usize(h.partitionCount), nodesBase, Usize(h.nodeCount),
                   start, vectorsLen, labelsBase, lanes, refIndicesBase, lanes, cursor, keyToPartition, activeKeys));
  }

  /** The record sections, and then the blocks. */
  method LoadSections(b: seq<byte>, h: Fields, scheme: Scheme, start: nat) returns (r: Result<Loaded>)
    ensures r == ParseRecords(b, h, scheme, start)
  {
    var cursor := start;
    var partitionCount := Usize(h.partitionCount);
    if partitionCount * PARTITION_STRIDE >= USIZE { return Err("partition_count overflow"); }
    if cursor + partitionCount * PARTITION_STRIDE > |b| { return Err("truncated partitions"); }
    cursor := cursor + partitionCount * PARTITION_STRIDE;
    var keyToPartition := FillKeyTable(b, start, partitionCount);

    var nodesBase, nodeCount := cursor, Usize(h.nodeCount);
    if nodeCount * NODE_STRIDE >= USIZE { return Err("node_count overflow"); }
    if cursor + nodeCount * NODE_STRIDE > |b| { return Err("truncated nodes"); }
    cursor := cursor + nodeCount * NODE_STRIDE;
    var totalBlocks := Usize(h.totalBlocks);
    var vectorsLen, lanes := Usize(totalBlocks * DIMS * LANES), Usize(totalBlocks * LANES);
    r := LoadBlocks(b, h, scheme, start, nodesBase, cursor, vectorsLen, lanes, keyToPartition);
  }

  method LoadChecked(b: seq<byte>, h: Fields, ps: seq<TreePredicate>, cursor: nat) returns (r: Result<Loaded>)
    ensures r == CheckHeader(b, h, ps, cursor)
  {
    if h.schemeId != SCHEME_ID_LEARNED_TREE { return Err("Unsupported partition scheme ID"); }
    if h.scale != SCALE { return Err("invalid index scale"); }
    if Usize(h.packedDims) != PACKED_DIMS { return Err("invalid packed dimensions"); }
    r := LoadSections(b, h, Scheme(Usize(h.schemeParam), ps), cursor);
  }

  method LoadTree(b: seq<byte>, h: Fields, start: nat) returns (r: Result<Loaded>)
    ensures r == ParseTree(b, h, start)
  {
    if h.predicateCount < 0 { return Err("capacity overflow"); }
    var ps, next := LoadPredicates(b, start, h.predicateCount);
    if ps.Err? { return Err(ps.message); }
    r := LoadChecked(b, h, ps.value, next);
  }

  /** The cuts and the predicates, then the checks on the header. */
  method LoadScheme(b: seq<byte>, h: Fields, start: nat) returns (r: Result<Loaded>)
    requires start == HEADER_BYTES <= |b|
    ensures r == ParseScheme(b, h)
  {
    r := LoadFrom(b, h, start, CutCount(h), CutsEnd(h));
  }

  method LoadFrom(b: seq<byte>, h: Fields, start: nat, cuts: nat, ghost end: nat) returns (r: Result<Loaded>)
    requires start <= |b| && end == start + 2 * cuts
    ensures r == ParseFrom(b, h, end)
  {
    var _, cursor :- SkipCuts(b, start, cuts);
    r := LoadTree(b, h, cursor);
  }

  /** `open` and `load`: 64-bit sizes wrap, and a count of predicates below zero asks for
      more memory than there can be. */
  method Load(b: seq<byte>) returns (r: Result<Loaded>)
    ensures r == Parse(b)
    ensures r.Ok? ==> HeaderExpected(b)
  {
    OnlyExpectedOpens(b);
    if |b| < 8 { return Err("file too short"); }
    if b[..8] != MAGIC { return Err("unsupported index magic"); }
    var h, cursor :- LoadFields(b);
    r := LoadScheme(b, h, cursor);
  }
}
