/**
 * Building an index file: routing the references to partitions, building every partition's
 * tree, and writing the file; and what the loaded index then is.
 */
module Build {
  import opened Base
  import opened Routing
  import opened KdTree
  import opened Kd = Builder
  import opened Splits
  import opened Index
  import opened Bytes
  import opened Format
  import opened Layout
  import opened Loader
  import opened FileRoundTrip
  import FileBytes
  import Training
  import Sampling

  // ----- routing the references -----

  /** The positions of a key. */
  function Positions(ks: seq<nat>, key: nat): (r: seq<nat>)
    ensures Within(r, |ks|)
  {
    if ks == [] then []
    else Positions(ks[..|ks| - 1], key) + (if ks[|ks| - 1] == key then [|ks| - 1] else [])
  }

  ghost function Places(ks: seq<nat>, key: nat): set<nat> { set x: nat | x < |ks| && ks[x] == key }

  lemma OneMorePlace(ks: seq<nat>, last: nat, key: nat)
    ensures |ks| !in Places(ks, key)
    ensures Places(ks + [last], key) == if last == key then Places(ks, key) + {|ks|} else Places(ks, key)
  {
  }

  lemma {:induction false} PositionsOnce(ks: seq<nat>, key: nat)
    ensures multiset(Positions(ks, key)) == multiset(Places(ks, key))
  {
    if ks == [] {
      assert Places(ks, key) == {};
    } else {
      var n, front := |ks| - 1, ks[..|ks| - 1];
      PositionsOnce(front, key);
      OneMorePlace(front, ks[n], key);
      assert ks == front + [ks[n]];
    }
  }

  lemma {:induction false} NoPositions(ks: seq<nat>, key: nat)
    ensures Positions(ks, key) == [] <==> key !in ks
  {
    if ks != [] {
      NoPositions(ks[..|ks| - 1], key);
      assert ks == ks[..|ks| - 1] + [ks[|ks| - 1]];
    }
  }

  /** The partition keys of the references. */
  function KeysFor(refs: seq<Reference>, scheme: Scheme): seq<nat>
    requires ValidPredicates(scheme.predicates)
  {
    seq(|refs|, x requires 0 <= x < |refs| => TreeKey(refs[x].vector, scheme))
  }

  /** All references of one partition. */
  lemma {:induction false} PartitionOwned(refs: seq<Reference>, scheme: Scheme, key: nat)
    requires ValidPredicates(scheme.predicates)
    ensures multiset(Positions(KeysFor(refs, scheme), key)) == Owned(refs, scheme, {key})
  {
    var ks := KeysFor(refs, scheme);
    PositionsOnce(ks, key);
    assert Places(ks, key) == (set x: nat | x < |refs| && TreeKey(refs[x].vector, scheme) in {key});
  }

  /** The map from keys to reference indices, for a list of keys. */
  ghost predicate Routed(m: map<nat, seq<nat>>, ks: seq<nat>) {
    && (forall key :: key in m <==> key in ks)
    && (forall key :: key in m ==> key < KEY_LOOKUP_SIZE && m[key] != [] && m[key] == Positions(ks, key))
  }

  lemma RoutedMore(m: map<nat, seq<nat>>, ks: seq<nat>, key: nat)
    requires Routed(m, ks) && key < KEY_LOOKUP_SIZE
    ensures Routed(m[key := (if key in m then m[key] else []) + [|ks|]], ks + [key])
  {
    NoPositions(ks, key);
    assert (ks + [key])[..|ks|] == ks;
  }

  method AddReference(m: map<nat, seq<nat>>, key: nat, idx: nat, ghost ks: seq<nat>) returns (m': map<nat, seq<nat>>)
    requires idx == |ks| && Routed(m, ks) && key < KEY_LOOKUP_SIZE
    ensures Routed(m', ks + [key])
  {
    RoutedMore(m, ks, key);
    m' := m[key := (if key in m then m[key] else []) + [idx]];
  }

  method RouteReferences(refs: seq<Reference>, scheme: Scheme) returns (m: map<nat, seq<nat>>)
    requires ValidPredicates(scheme.predicates)
    ensures Routed(m, KeysFor(refs, scheme))
  {
    m := map[];
    ghost var ks := [];
    var idx := 0;
    while idx < |refs|
      invariant 0 <= idx <= |refs| && |ks| == idx && Routed(m, ks)
      invariant forall x :: 0 <= x < idx ==> ks[x] == TreeKey(refs[x].vector, scheme)
    {
      var key := ComputeTreeKey(refs[idx].vector, scheme);
      m := AddReference(m, key, idx, ks);
      ks := ks + [key];
      idx := idx + 1;
    }
    assert ks == KeysFor(refs, scheme);
  }

  /** Stands for collecting the keys and sorting them. */
  method SortedKeys(m: map<nat, seq<nat>>, bound: nat) returns (keys: seq<nat>)
    requires forall key :: key in m ==> key < bound
    ensures Ascending(keys) && forall key :: key in keys <==> key in m
  {
    keys := [];
    var key := 0;
    while key < bound
      invariant 0 <= key <= bound && Ascending(keys)
      invariant forall k :: k in keys <==> k in m && k < key
    {
      assert forall i :: 0 <= i < |keys| ==> keys[i] in keys;
      if key in m { keys := keys + [key]; }
      key := key + 1;
    }
  }

  // ----- the partitions' trees -----

  ghost predicate RootOk(refs: seq<Reference>, scheme: Scheme, leafSize: nat, nodes: seq<Node>, lanes: seq<Lane>,
                         key: nat, root: nat, t: Tree)
    requires ValidPredicates(scheme.predicates)
  {
    Encodes(nodes, 1, lanes, refs, root, t) && Shape(t, refs, leafSize)
      && multiset(Ids(t)) == Owned(refs, scheme, {key})
  }

  predicate AllNodesFit(nodes: seq<Node>) { forall i :: 0 <= i < |nodes| ==> NodeFits(OnDisk(nodes[i])) }

  /** The arrays after the trees of the partitions `keys`. */
  ghost predicate TreesOk(refs: seq<Reference>, scheme: Scheme, leafSize: nat, keys: seq<nat>, roots: seq<nat>,
                          trees: seq<Tree>, nodes: seq<Node>, lanes: seq<Lane>)
    requires ValidPredicates(scheme.predicates)
  {
    && |roots| == |trees| == |keys|
    && forall j :: 0 <= j < |keys| ==> RootOk(refs, scheme, leafSize, nodes, lanes, keys[j], roots[j], trees[j])
  }

  function KeySet(keys: seq<nat>): set<nat> { set k | k in keys }

  /** Every reference of the partitions `keys` is in exactly one real lane, nothing else is,
      and no number is too large for its field. */
  ghost predicate LanesOk(refs: seq<Reference>, scheme: Scheme, keys: seq<nat>, nodes: seq<Node>, lanes: seq<Lane>)
    requires ValidPredicates(scheme.predicates)
  {
    && |lanes| % LANES == 0 && multiset(RealIds(lanes)) == Owned(refs, scheme, KeySet(keys))
    && |nodes| <= |RealIds(lanes)| && |lanes| <= LANES * |RealIds(lanes)|
    && (forall k :: 0 <= k < |lanes| ==> Stored(refs, lanes[k])) && AllNodesFit(nodes)
  }

  lemma {:induction false} BoundedSize(s: set<nat>, n: nat)
    requires forall x :: x in s ==> x < n
    ensures |s| <= n
  {
    if n > 0 { BoundedSize(s - {n - 1}, n - 1); } else { assert s == {}; }
  }

  lemma OwnedSize(refs: seq<Reference>, scheme: Scheme, keys: set<nat>)
    requires ValidPredicates(scheme.predicates)
    ensures |Owned(refs, scheme, keys)| <= |refs|
  {
    BoundedSize(set x: nat | x < |refs| && TreeKey(refs[x].vector, scheme) in keys, |refs|);
  }

  // ----- every number fits its field -----

  lemma BoxFits(refs: seq<Reference>, ids: seq<nat>, lo: Vec, hi: Vec)
    requires Storable(refs) && IsBox(refs, ids, lo, hi)
    ensures VecFits(lo) && VecFits(hi)
  {
    forall d | 0 <= d < PACKED_DIMS ensures Fits16(lo[d]) && Fits16(hi[d]) {
      assert Attains(refs, ids, d, lo[d]) && Attains(refs, ids, d, hi[d]);
    }
  }

  lemma BitsFit(refs: seq<Reference>, ids: seq<nat>, bits: set<nat>)
    requires IsBits(refs, ids, bits)
    ensures forall l :: l in bits ==> l < 8
  {
    forall l | l in bits ensures l < 8 { assert HasLabel(refs, ids, l); }
  }

  lemma {:induction false} TreeFits(refs: seq<Reference>, nodes: seq<Node>, lanes: seq<Lane>, n: nat, t: Tree, i: nat)
    requires Storable(refs) && Encodes(nodes, 1, lanes, refs, n, t) && n <= i < n + Count(t) <= |nodes| <= I32_MAX
    requires |Ids(t)| <= I32_MAX && |lanes| <= LANES * I32_MAX
    ensures nodes[n].start <= |lanes| && NodeFits(OnDisk(nodes[i]))
    decreases t
  {
    if t.Branch? {
      TreeFits(refs, nodes, lanes, n + 1, t.near, if n < i < n + 1 + Count(t.near) then i else n + 1);
      if i >= n + 1 + Count(t.near) { TreeFits(refs, nodes, lanes, n + 1 + Count(t.near), t.far, i); }
    }
    if i == n {
      BoxFits(refs, Ids(t), nodes[n].lo, nodes[n].hi);
      BitsFit(refs, Ids(t), nodes[n].classBits);
      assert OnDisk(nodes[n]).start <= |lanes| / LANES <= I32_MAX;
    }
  }

  // ----- one more partition -----

  lemma RootStays(refs: seq<Reference>, scheme: Scheme, leafSize: nat, nodes: seq<Node>, lanes: seq<Lane>,
                  nodes': seq<Node>, lanes': seq<Lane>, key: nat, root: nat, t: Tree)
    requires ValidPredicates(scheme.predicates) && RootOk(refs, scheme, leafSize, nodes, lanes, key, root, t)
    requires nodes <= nodes' && lanes <= lanes'
    ensures RootOk(refs, scheme, leafSize, nodes', lanes', key, root, t)
  {
    EncodesStable(nodes, lanes, nodes', lanes', 1, refs, root, t);
  }

  lemma OneMoreTree(refs: seq<Reference>, scheme: Scheme, leafSize: nat, keys: seq<nat>, roots: seq<nat>,
                    trees: seq<Tree>, nodes: seq<Node>, lanes: seq<Lane>, nodes': seq<Node>, lanes': seq<Lane>,
                    key: nat, ids: seq<nat>, t: Tree)
    requires ValidPredicates(scheme.predicates) && TreesOk(refs, scheme, leafSize, keys, roots, trees, nodes, lanes)
    requires Built(nodes, lanes, nodes', lanes', refs, ids, leafSize, t) && multiset(ids) == Owned(refs, scheme, {key})
    ensures TreesOk(refs, scheme, leafSize, keys + [key], roots + [|nodes|], trees + [t], nodes', lanes')
  {
    forall j | 0 <= j < |keys| ensures RootOk(refs, scheme, leafSize, nodes', lanes', keys[j], roots[j], trees[j]) {
      RootStays(refs, scheme, leafSize, nodes, lanes, nodes', lanes', keys[j], roots[j], trees[j]);
    }
  }

  lemma {:induction false} NewNodesFit(refs: seq<Reference>, nodes: seq<Node>, nodes': seq<Node>, lanes': seq<Lane>,
                                       t: Tree)
    requires Storable(refs) && AllNodesFit(nodes) && nodes <= nodes' && |nodes'| == |nodes| + Count(t)
    requires Encodes(nodes', 1, lanes', refs, |nodes|, t) && |nodes'| <= I32_MAX && |Ids(t)| <= I32_MAX
    requires |lanes'| <= LANES * I32_MAX
    ensures AllNodesFit(nodes')
  {
    forall i | 0 <= i < |nodes'| ensures NodeFits(OnDisk(nodes'[i])) {
      if i < |nodes| { assert nodes'[i] == nodes[i]; } else { TreeFits(refs, nodes', lanes', |nodes|, t, i); }
    }
  }

  lemma KeySetSnoc(keys: seq<nat>, key: nat)
    ensures KeySet(keys + [key]) == KeySet(keys) + {key}
  {
  }

  lemma MoreLanes(refs: seq<Reference>, scheme: Scheme, leafSize: nat, keys: seq<nat>, nodes: seq<Node>,
                  lanes: seq<Lane>, nodes': seq<Node>, lanes': seq<Lane>, key: nat, ids: seq<nat>, t: Tree)
    requires ValidPredicates(scheme.predicates) && Storable(refs) && LANES <= leafSize && key !in keys
    requires LanesOk(refs, scheme, keys, nodes, lanes) && Appended(lanes, lanes', refs, |ids|)
    requires Built(nodes, lanes, nodes', lanes', refs, ids, leafSize, t) && multiset(ids) == Owned(refs, scheme, {key})
    ensures LanesOk(refs, scheme, keys + [key], nodes', lanes')
  {
    KeySetSnoc(keys, key);
    OwnedMore(refs, scheme, KeySet(keys), key);
    assert |Ids(t)| == |multiset(Ids(t))| == |ids|;
    CountBound(t, refs, leafSize);
    OwnedSize(refs, scheme, KeySet(keys + [key]));
    assert |RealIds(lanes')| == |multiset(RealIds(lanes'))|;
    NewNodesFit(refs, nodes, nodes', lanes', t);
    forall k | 0 <= k < |lanes'| ensures Stored(refs, lanes'[k]) {
      if k < |lanes| { assert lanes'[k] == lanes[k]; }
    }
  }

  lemma PrefixMore(keys: seq<nat>, i: nat)
    requires i < |keys|
    ensures keys[..i + 1] == keys[..i] + [keys[i]]
  {
  }

  /** The trees of all partitions, in the order of the keys. */
  method BuildTrees(refs: seq<Reference>, scheme: Scheme, leafSize: nat, strategy: SplitStrategy, m: map<nat, seq<nat>>,
                    sorted: seq<nat>)
    returns (nodes: seq<Node>, lanes: seq<Lane>, roots: seq<nat>, ghost trees: seq<Tree>)
    requires ValidPredicates(scheme.predicates) && Storable(refs) && LANES <= leafSize && Ascending(sorted)
    requires forall key :: key in sorted ==> key in m && m[key] != [] && m[key] == Positions(KeysFor(refs, scheme), key)
    ensures TreesOk(refs, scheme, leafSize, sorted, roots, trees, nodes, lanes)
    ensures LanesOk(refs, scheme, sorted, nodes, lanes)
    ensures forall j :: 0 <= j < |trees| ==> SplitsBy(trees[j], refs, strategy)
  {
    var b := new Kd.Builder();
    roots, trees := [], [];
    var i := 0;
    while i < |sorted|
      invariant 0 <= i <= |sorted|
      invariant TreesOk(refs, scheme, leafSize, sorted[..i], roots, trees, b.nodes, b.lanes)
      invariant LanesOk(refs, scheme, sorted[..i], b.nodes, b.lanes)
      invariant forall j :: 0 <= j < |trees| ==> SplitsBy(trees[j], refs, strategy)
    {
      var key := sorted[i];
      PartitionOwned(refs, scheme, key);
      ghost var nodes0, lanes0 := b.nodes, b.lanes;
      var root, t := b.BuildNode(refs, m[key], leafSize, strategy);
      OneMoreTree(refs, scheme, leafSize, sorted[..i], roots, trees, nodes0, lanes0, b.nodes, b.lanes, key, m[key], t);
      MoreLanes(refs, scheme, leafSize, sorted[..i], nodes0, lanes0, b.nodes, b.lanes, key, m[key], t);
      PrefixMore(sorted, i);
      roots, trees := roots + [root], trees + [t];
      i := i + 1;
    }
    assert sorted[..i] == sorted;
    nodes, lanes := b.nodes, b.lanes;
  }

  // ----- the lookup table -----

  lemma {:induction false} KeyTableFinds(keys: seq<nat>)
    requires Ascending(keys) && forall i :: 0 <= i < |keys| ==> keys[i] < KEY_LOOKUP_SIZE
    ensures forall i :: 0 <= i < |keys| ==> KeyTable(keys)[keys[i]] == i
    ensures forall k :: 0 <= k < KEY_LOOKUP_SIZE && KeyTable(keys)[k] >= 0 ==>
              KeyTable(keys)[k] < |keys| && keys[KeyTable(keys)[k]] == k
  {
    if keys != [] {
      var last := |keys| - 1;
      KeyTableFinds(keys[..last]);
      assert KeyTable(keys) == KeyTable(keys[..last])[keys[last] := last];
    }
  }

  lemma {:induction false} ActiveKeysListed(table: seq<int>, n: nat)
    requires n <= |table|
    ensures Ascending(ActiveKeys(table, n)) && forall k: nat :: k in ActiveKeys(table, n) <==> k < n && table[k] >= 0
    decreases n
  {
    if n > 0 {
      ActiveKeysListed(table, n - 1);
      var front := ActiveKeys(table, n - 1);
      assert forall i :: 0 <= i < |front| ==> front[i] in front;
    }
  }

  lemma LookupBuilt(f: File, ix: Index)
    requires ix == IndexOfFile(f) && Ascending(KeysOf(f.partitions))
    requires forall i :: 0 <= i < |f.partitions| ==> f.partitions[i].key < KEY_LOOKUP_SIZE
    ensures LookupOk(ix)
  {
    var keys := KeysOf(f.partitions);
    KeyTableFinds(keys);
    ActiveKeysListed(ix.keyToPartition, KEY_LOOKUP_SIZE);
    forall i | 0 <= i < |ix.partitions|
      ensures ix.keyToPartition[ix.partitions[i].key] == i
    {
      assert keys[i] == ix.partitions[i].key;
    }
    forall i | 0 <= i < |ix.activeKeys|
      ensures ix.activeKeys[i] < KEY_LOOKUP_SIZE && ix.keyToPartition[ix.activeKeys[i]] >= 0
    {
      assert ix.activeKeys[i] in ix.activeKeys;
    }
  }

  // ----- the blocks -----

  /** A lane of the written block section, as the scan reads it. */
  lemma LaneWritten(lanes: seq<Lane>, b: nat, l: nat)
    requires |lanes| % LANES == 0 && b < |lanes| / LANES && l < LANES
    ensures b * LANES + l < |lanes| && (b + 1) * (DIMS * LANES) <= |Interleaved(lanes)|
    ensures BlockLane(Interleaved(lanes), b, l) == lanes[b * LANES + l].vector[..DIMS]
  {
    var lane := BlockLane(Interleaved(lanes), b, l);
    forall d | 0 <= d < DIMS ensures lane[d] == lanes[b * LANES + l].vector[d] {
      var pair, e := d / 2, d % 2;
      ComponentAt(lanes, b, pair, l, e, b * (DIMS * LANES) + (pair * (2 * LANES) + 2 * l + e));
    }
  }

  lemma SectionsWritten(lanes: seq<Lane>)
    requires |lanes| % LANES == 0
    ensures Sections(Interleaved(lanes), LabelsOf(lanes), RefIndicesOf(lanes), lanes)
  {
    forall b, l | 0 <= b < |lanes| / LANES && 0 <= l < LANES
      ensures BlockLane(Interleaved(lanes), b, l) == lanes[b * LANES + l].vector[..DIMS]
    {
      LaneWritten(lanes, b, l);
    }
  }

  // ----- the file -----

  function Entries(keys: seq<nat>, roots: seq<nat>, nodes: seq<Node>): seq<Partition>
    requires |keys| == |roots| && forall j :: 0 <= j < |roots| ==> roots[j] < |nodes|
  {
    seq(|keys|, j requires 0 <= j < |keys| =>
      Partition(keys[j], roots[j], nodes[roots[j]].len, nodes[roots[j]].lo, nodes[roots[j]].hi))
  }

  method PartitionEntries(keys: seq<nat>, roots: seq<nat>, nodes: seq<Node>) returns (entries: seq<Partition>)
    requires |keys| == |roots| && forall j :: 0 <= j < |roots| ==> roots[j] < |nodes|
    ensures entries == Entries(keys, roots, nodes)
  {
    entries := [];
    var j := 0;
    while j < |keys|
      invariant 0 <= j <= |keys| && entries == Entries(keys, roots, nodes)[..j]
    {
      var root := nodes[roots[j]];
      entries := entries + [Partition(keys[j], roots[j], root.len, root.lo, root.hi)];
      j := j + 1;
    }
  }

  /** What building promises: a file whose every number fits, that stands for the index of
      the references; every reference in exactly one real lane, with its own vector and
      label; trees halved down to leaves of at most `leafSize`. */
  ghost predicate BuiltFile(f: File, refs: seq<Reference>, scheme: Scheme, leafSize: nat, trees: seq<Tree>) {
    && Encodable(f) && f.refCount == |refs| && f.scheme == scheme && IndexOf(IndexOfFile(f), refs, f.lanes, trees)
    && multiset(RealIds(f.lanes)) == AllOnce(|refs|) && (forall k :: 0 <= k < |f.lanes| ==> Stored(refs, f.lanes[k]))
    && (forall j :: 0 <= j < |trees| ==> Shape(trees[j], refs, leafSize))
  }

  ghost function AllOnce(n: nat): multiset<nat> {
    if n == 0 then multiset{} else AllOnce(n - 1) + multiset{n - 1}
  }

  // ----- the theorem about building -----

  lemma {:induction false} AllOnceSet(n: nat, s: set<nat>)
    requires forall x: nat :: x in s <==> x < n
    ensures multiset(s) == AllOnce(n)
  {
    if n > 0 {
      AllOnceSet(n - 1, s - {n - 1});
      assert s == s - {n - 1} + {n - 1};
    } else {
      assert s == {};
    }
  }

  lemma {:induction false} AllOwned(refs: seq<Reference>, scheme: Scheme, keys: set<nat>)
    requires ValidPredicates(scheme.predicates) && forall key :: key in KeysFor(refs, scheme) ==> key in keys
    ensures Owned(refs, scheme, keys) == AllOnce(|refs|)
  {
    var all := set x: nat | x < |refs| && TreeKey(refs[x].vector, scheme) in keys;
    forall x: nat ensures x in all <==> x < |refs| {
      if x < |refs| { assert KeysFor(refs, scheme)[x] in KeysFor(refs, scheme); }
    }
    AllOnceSet(|refs|, all);
  }

  /** One partition of the built file, as the search needs it. */
  lemma PartitionBuilt(refs: seq<Reference>, scheme: Scheme, leafSize: nat, nodes: seq<Node>, lanes: seq<Lane>,
                       key: nat, root: nat, t: Tree, ix: Index)
    requires ValidPredicates(scheme.predicates) && Storable(refs) && LANES <= leafSize
    requires RootOk(refs, scheme, leafSize, nodes, lanes, key, root, t) && key < KEY_LOOKUP_SIZE && |nodes| <= I32_MAX
    requires ix.nodes == AllOnDisk(nodes) && ix.scheme == scheme
    ensures root < |nodes|
    ensures var p := Partition(key, root, nodes[root].len, nodes[root].lo, nodes[root].hi);
            PartitionOk(ix, refs, lanes, p, t) && PartitionFits(p)
  {
    EncodesOnDisk(nodes, lanes, refs, root, t);
    OwnedSize(refs, scheme, {key});
    assert |Ids(t)| == |multiset(Ids(t))| <= |refs|;
    HeightFits(t, refs, leafSize);
    BoxFits(refs, Ids(t), nodes[root].lo, nodes[root].hi);
  }

  lemma RootsInRange(refs: seq<Reference>, scheme: Scheme, leafSize: nat, keys: seq<nat>, roots: seq<nat>,
                     trees: seq<Tree>, nodes: seq<Node>, lanes: seq<Lane>)
    requires ValidPredicates(scheme.predicates) && TreesOk(refs, scheme, leafSize, keys, roots, trees, nodes, lanes)
    ensures |keys| == |roots| && forall j :: 0 <= j < |roots| ==> roots[j] < |nodes|
  {
    forall j | 0 <= j < |roots| ensures roots[j] < |nodes| {
      assert RootOk(refs, scheme, leafSize, nodes, lanes, keys[j], roots[j], trees[j]);
    }
  }

  /** The sorted keys are the keys of the references. */
  ghost predicate KeysOk(refs: seq<Reference>, scheme: Scheme, keys: seq<nat>)
    requires ValidPredicates(scheme.predicates)
  {
    && Ascending(keys) && (forall key :: key in keys ==> key < KEY_LOOKUP_SIZE)
    && forall key :: key in keys <==> key in KeysFor(refs, scheme)
  }

  lemma FileEncodable(refs: seq<Reference>, scheme: Scheme, keys: seq<nat>, nodes: seq<Node>, lanes: seq<Lane>, f: File)
    requires ValidPredicates(scheme.predicates) && Storable(refs) && SchemeFits(scheme)
    requires LanesOk(refs, scheme, keys, nodes, lanes)
    requires f.refCount == |refs| && f.scheme == scheme && f.nodes == AllOnDisk(nodes) && f.lanes == lanes
    requires |f.partitions| <= KEY_LOOKUP_SIZE
    requires forall j :: 0 <= j < |f.partitions| ==> PartitionFits(f.partitions[j])
    ensures Encodable(f)
  {
    OwnedSize(refs, scheme, KeySet(keys));
    assert |RealIds(lanes)| == |multiset(RealIds(lanes))|;
    forall k | 0 <= k < |lanes| ensures LaneFits(lanes[k]) {
      assert Stored(refs, lanes[k]);
    }
    forall i | 0 <= i < |f.nodes| ensures NodeFits(f.nodes[i]) {
      assert NodeFits(OnDisk(nodes[i]));
    }
  }

  lemma PartitionsBuilt(refs: seq<Reference>, scheme: Scheme, leafSize: nat, keys: seq<nat>, roots: seq<nat>,
                        trees: seq<Tree>, nodes: seq<Node>, lanes: seq<Lane>, ix: Index)
    requires ValidPredicates(scheme.predicates) && Storable(refs) && LANES <= leafSize && KeysOk(refs, scheme, keys)
    requires TreesOk(refs, scheme, leafSize, keys, roots, trees, nodes, lanes)
    requires LanesOk(refs, scheme, keys, nodes, lanes)
    requires |roots| == |keys| && forall j :: 0 <= j < |roots| ==> roots[j] < |nodes|
    requires ix.nodes == AllOnDisk(nodes) && ix.scheme == scheme && ix.partitions == Entries(keys, roots, nodes)
    ensures forall j :: 0 <= j < |keys| ==>
              PartitionOk(ix, refs, lanes, ix.partitions[j], trees[j]) && PartitionFits(ix.partitions[j])
  {
    OwnedSize(refs, scheme, KeySet(keys));
    assert |RealIds(lanes)| == |multiset(RealIds(lanes))|;
    forall j | 0 <= j < |keys|
      ensures PartitionOk(ix, refs, lanes, ix.partitions[j], trees[j]) && PartitionFits(ix.partitions[j])
    {
      assert RootOk(refs, scheme, leafSize, nodes, lanes, keys[j], roots[j], trees[j]) && keys[j] in keys;
      PartitionBuilt(refs, scheme, leafSize, nodes, lanes, keys[j], roots[j], trees[j], ix);
    }
  }

  /** The loaded index of the written file is the index of the references. */
  lemma IndexBuilt(refs: seq<Reference>, scheme: Scheme, leafSize: nat, keys: seq<nat>, trees: seq<Tree>, f: File,
                   ix: Index)
    requires ValidPredicates(scheme.predicates) && KeysOk(refs, scheme, keys) && |trees| == |keys|
    requires |f.lanes| % LANES == 0
    requires ix == IndexOfFile(f) && KeysOf(f.partitions) == keys && f.scheme == scheme
    requires forall j :: 0 <= j < |keys| ==> PartitionOk(ix, refs, f.lanes, ix.partitions[j], trees[j])
    ensures IndexOf(ix, refs, f.lanes, trees)
  {
    LookupBuilt(f, ix);
    SectionsWritten(f.lanes);
    forall x | 0 <= x < |refs| ensures TreeKey(refs[x].vector, scheme) in keys {
      assert KeysFor(refs, scheme)[x] in KeysFor(refs, scheme);
    }
    EveryKeyFound(refs, scheme, keys, ix);
  }

  lemma FileBuilt(refs: seq<Reference>, scheme: Scheme, leafSize: nat, keys: seq<nat>, roots: seq<nat>,
                  trees: seq<Tree>, nodes: seq<Node>, lanes: seq<Lane>, f: File)
    requires ValidPredicates(scheme.predicates) && Storable(refs) && SchemeFits(scheme) && LANES <= leafSize
    requires KeysOk(refs, scheme, keys) && TreesOk(refs, scheme, leafSize, keys, roots, trees, nodes, lanes)
    requires LanesOk(refs, scheme, keys, nodes, lanes) && |roots| == |keys| && forall j :: 0 <= j < |roots| ==>
               roots[j] < |nodes|
    requires f == File(|refs|, scheme, Entries(keys, roots, nodes), AllOnDisk(nodes), lanes)
    ensures BuiltFile(f, refs, scheme, leafSize, trees)
  {
    PartitionsBuilt(refs, scheme, leafSize, keys, roots, trees, nodes, lanes, IndexOfFile(f));
    AscendingCount(keys, KEY_LOOKUP_SIZE);
    FileEncodable(refs, scheme, keys, nodes, lanes, f);
    assert KeysOf(f.partitions) == keys;
    IndexBuilt(refs, scheme, leafSize, keys, trees, f, IndexOfFile(f));
    AllOwned(refs, scheme, KeySet(keys));
    forall j | 0 <= j < |trees| ensures Shape(trees[j], refs, leafSize) {
      assert RootOk(refs, scheme, leafSize, nodes, lanes, keys[j], roots[j], trees[j]);
    }
  }

  lemma EveryKeyFound(refs: seq<Reference>, scheme: Scheme, keys: seq<nat>, ix: Index)
    requires ValidPredicates(scheme.predicates) && LookupOk(ix) && KeysOf(ix.partitions) == keys
    requires forall x :: 0 <= x < |refs| ==> TreeKey(refs[x].vector, scheme) in keys
    ensures forall x :: 0 <= x < |refs| ==>
              TreeKey(refs[x].vector, scheme) < KEY_LOOKUP_SIZE
                && ix.keyToPartition[TreeKey(refs[x].vector, scheme)] >= 0
  {
    forall x | 0 <= x < |refs|
      ensures TreeKey(refs[x].vector, scheme) < KEY_LOOKUP_SIZE
      ensures ix.keyToPartition[TreeKey(refs[x].vector, scheme)] >= 0
    {
      var i :| 0 <= i < |keys| && keys[i] == TreeKey(refs[x].vector, scheme);
      assert ix.partitions[i].key == keys[i];
    }
  }

  // ----- the whole build -----

  /** What `prepare` makes of a scheme without predicates, when there are enough references and
      levels: the tree trained on the sampled vectors, with all candidates of the references. */
  ghost predicate Learned(refs: seq<Reference>, score: (seq<nat>, Training.Candidate) -> real, treeDepth: nat,
                          tree: seq<TreePredicate>)
  {
    exists candidates :: LearnedFrom(refs, score, treeDepth, tree, candidates)
  }

  ghost predicate LearnedFrom(refs: seq<Reference>, score: (seq<nat>, Training.Candidate) -> real, treeDepth: nat,
                              tree: seq<TreePredicate>, candidates: seq<Training.Candidate>)
  {
    var ln := Training.Learner(candidates, score);
    && Sampling.Listed(refs, candidates, DIMS) && |tree| == Pow2(Min(treeDepth, LEARNED_TREE_MAX_DEPTH)) - 1
    && ValidPredicates(tree) && Training.AllFrom(tree, candidates)
    && Training.TrainedHere(tree, Sampling.Sampled(refs), ln, 0)
    && forall node :: 0 <= node < |tree| ==> Training.NodeLearned(tree, Sampling.Sampled(refs), ln, node)
  }

  /** The scheme that the build goes on with. */
  ghost predicate IsPrepared(refs: seq<Reference>, scheme: Scheme, score: (seq<nat>, Training.Candidate) -> real,
                             prepared: Scheme)
  {
    && prepared.treeDepth == scheme.treeDepth
    && if scheme.predicates == [] && |refs| > K && scheme.treeDepth > 0
       then Learned(refs, score, scheme.treeDepth, prepared.predicates)
       else prepared == scheme
  }

  /** `prepare`: a scheme without predicates learns them; what it learns can be stored. */
  method Prepare(refs: seq<Reference>, scheme: Scheme, score: (seq<nat>, Training.Candidate) -> real)
    returns (prepared: Scheme)
    requires Storable(refs) && SchemeFits(scheme)
    ensures SchemeFits(prepared) && IsPrepared(refs, scheme, score, prepared)
  {
    prepared := scheme;
    if scheme.predicates == [] && |refs| >= K + 1 && scheme.treeDepth > 0 {
      var idx := Sampling.SampleIndices(|refs|, Sampling.SAMPLE_QUERIES);
      var sample := seq(|idx|, i requires 0 <= i < |idx| => refs[idx[i]].vector);
      var candidates := Sampling.CandidatePredicates(refs);
      ListedFits(refs, candidates);
      var tree := Training.LearnTree(sample, Training.Learner(candidates, score), scheme.treeDepth);
      assert LearnedFrom(refs, score, scheme.treeDepth, tree, candidates);
      LearnedFits(tree, candidates);
      KeyInRange(ZERO_VECTOR, scheme);
      prepared := Scheme(scheme.treeDepth, tree);
    }
  }

  lemma ListedFits(refs: seq<Reference>, candidates: seq<Training.Candidate>)
    requires Storable(refs) && Sampling.Listed(refs, candidates, DIMS)
    ensures forall c :: c in candidates ==> c.dim < DIMS && Fits16(c.threshold)
  {
    forall c | c in candidates ensures Fits16(c.threshold) {
      var values := Sampling.Values(refs, c.dim);
      Sampling.ThresholdsSeparate(values);
      var low := Sampling.SomeValue(refs, c.dim, 0);
      var high := Sampling.SomeValue(refs, c.dim, |values| - 1);
    }
  }

  lemma LearnedFits(tree: seq<TreePredicate>, candidates: seq<Training.Candidate>)
    requires Training.AllFrom(tree, candidates) && forall c :: c in candidates ==> c.dim < DIMS && Fits16(c.threshold)
    ensures forall i :: 0 <= i < |tree| ==> PredicateFits(tree[i])
  {
  }

  /** `build_index`, with the scheme it was prepared to. */
  method BuildIndex(refs: seq<Reference>, requestedLeafSize: nat, scheme: Scheme, strategy: SplitStrategy,
                    score: (seq<nat>, Training.Candidate) -> real)
    returns (bytes: seq<byte>, ghost f: File, ghost trees: seq<Tree>)
    requires Storable(refs) && SchemeFits(scheme)
    ensures IsPrepared(refs, scheme, score, f.scheme)
    ensures bytes == Serialize(f) && BuiltFile(f, refs, f.scheme, Max(LANES, Min(requestedLeafSize, 2048)), trees)
    ensures FileBytes.FileIs(f, bytes) && forall j :: 0 <= j < |trees| ==> SplitsBy(trees[j], refs, strategy)
  {
    var leafSize := Max(LANES, Min(requestedLeafSize, 2048));
    var prepared := Prepare(refs, scheme, score);
    bytes, f, trees := BuildPrepared(refs, leafSize, prepared, strategy);
    FileBytes.WrittenBytes(f, bytes);
  }

  /** `build_index`, from the prepared scheme on. */
  method BuildPrepared(refs: seq<Reference>, leafSize: nat, scheme: Scheme, strategy: SplitStrategy)
    returns (bytes: seq<byte>, ghost f: File, ghost trees: seq<Tree>)
    requires Storable(refs) && SchemeFits(scheme) && LANES <= leafSize <= 2048
    ensures bytes == Serialize(f) && f.scheme == scheme && BuiltFile(f, refs, scheme, leafSize, trees)
    ensures forall j :: 0 <= j < |trees| ==> SplitsBy(trees[j], refs, strategy)
  {
    var w := new IndexWriter();
    w.WriteHeader(|refs|, scheme);
    var m := RouteReferences(refs, scheme);
    var sorted := SortedKeys(m, KEY_LOOKUP_SIZE);
    var nodes, lanes, roots;
    nodes, lanes, roots, trees := BuildTrees(refs, scheme, leafSize, strategy, m, sorted);
    RootsInRange(refs, scheme, leafSize, sorted, roots, trees, nodes, lanes);
    var entries := PartitionEntries(sorted, roots, nodes);
    var file := File(|refs|, scheme, entries, AllOnDisk(nodes), lanes);
    FileBuilt(refs, scheme, leafSize, sorted, roots, trees, nodes, lanes, file);
    WriteBody(w, file);
    bytes, f := w.buf, file;
  }
}
