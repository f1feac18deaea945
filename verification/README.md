# Verified model of the fraud-score server

The server answers fraud queries: a request's JSON body becomes a vector of 14 quantised features,
the five nearest of the reference vectors are found in a prebuilt index file, and the number of
fraudulent ones among them decides the response. This project models the three parts of that path
where being fast and being right are furthest apart, and proves that they agree with simple
descriptions of what they compute.

**The nearest-neighbour index** (`src/index/`). Building routes every reference through a learned
tree into a partition, builds a kd-tree for each partition, packs the leaves into blocks of eight
lanes and serialises everything. Asking searches the query's own partition first and the others by
ascending lower bound, each with an explicit stack, optionally putting off subtrees that can only
confirm a unanimous answer (label deferral) and optionally stopping early.
`EndToEnd.BuildOpenAndAsk` joins all of it: from any list of references to a learned partitioning,
from there to a file, from the file to an index, from the index to an answer, which is the number of
frauds among five references (or all there are) of which none left out is nearer (`Nearest`). What
it asks of the references is that no distance to the query exceeds 31 bits. Asked for the partitions
of its answer, the index reports exactly those of five nearest references, and finds references as
near in them alone (`EndToEnd.BuildOpenAndAskTwice`). Three results give exact conditions where the
simple wish is false:

- Distances are computed in 32 bits. With the negative sentinel where it is meant, in dimensions 5
  and 6, none wraps if and only if the scale is at most 10362 (`Kernel.NoWrapIffScale`); `build.rs`
  accepts scales up to 11000. But quantising makes the sentinel of any value at or below -1 in any
  dimension, and neither the loader of references nor the parsers object: then none wraps if and only
  if the scale is at most 6192 (`Kernel.NoWrapAnywhereIffScale`). At the default scale of 10000 one
  such reference has a distance that wraps below zero (`Kernel.StrayedIsNearest`), so that the
  furthest of all ranks as the nearest. That the vectors are within bounds is an assumption on the
  reference file and the queries.
- The K nearest references are unique if and only if nothing ties at the cut
  (`TopK.UniqueIffNoTie`), and their label count is determined if and only if the labels tied at the
  cut agree (`TopK.CountDeterminedIff`). Pruning between partitions is strict, so with other ties
  the search may count differently from a scan: `Ties.TiedAcrossPartitions` builds six references of
  which the search counts none and the scan one. The count is still that of a valid K-nearest set.
  Disagreement at the cut is needed for that and not enough: references at one place are counted
  alike with every scheme (`Ties.OnePlace`).
- The 16-dimension box bound is admissible for the 14-dimension distance if and only if the padding
  of the query lies inside the padding of the box (`Kernel.AdmissibleIff`); the parsers write zeros
  there.

The partition tree is exact too: `Routing.KeyIsPlace` says what a key is without naming the walk,
`Training.TrainingMatchesRouting` which nodes are enabled, and that each has the first of the best
candidates for exactly the samples that routing later sends through it, `Sampling.ThresholdsAre` and
`Sampling.SampledAre` what it is learned from, and `Sampling.CandidateSeparates` when a candidate,
whose midpoint is rounded toward zero, leaves nothing on its right. Every branch of a kd-tree is
split in the dimension its strategy chooses for its references (`Splits`), and
`FileBytes.WrittenBytes` says every byte of the file at its offset.

Modules, in order: `Kernel` (lane arithmetic, distance, box bound), `TopK` (the five slots),
`Routing`, `Training` and `Sampling` (the partition tree), `KdTree`, `Splits` and `Builder` (the
trees and their records), `Index`, `LeafScan`, `Search` and `Predict` (asking), `Nearest` and
`Exactness` (the references, and the plain scan), `Bytes`, `Format`, `Layout`, `Loader`,
`FileRoundTrip` and `FileBytes` (the file), `Build`, `EndToEnd` and `Ties`.

**The connection state machine** (`src/fd_passing/`, `src/http/parser.rs`). `HttpParser` is the
request parser. `RequestText` says what it makes of a text: a posted query is handed on with exactly
its body (`RequestText.QueryIsRead`), and everything that is refused is refused for a reason
(`RequestText.RejectedIff`). `HttpStream` describes a served byte stream and proves that it does not
matter where the stream is cut. `Session` is one connection as a machine of byte strings: what every
answer of the system to a read or a write does to it. `Connection` has the loops over the buffer and
`EventLoop` the table with its handlers; each does exactly the step of the session machine for its
event (`EventLoop.EventLoop.Dispatch`), so the table shows its history after any run
(`EventLoop.Run`). `Promise` proves what that history keeps: whatever the system answers, a
connection whose pieces were all manageable has sent the beginning of one response per request
received, in order, and all of it unless it is still writing or was cut
(`Promise.EveryRunIsAnswered`); and only a hang-up, a failed or empty read or a failed write cuts it
(`Promise.UndisturbedIsNotCut`). `Progress` says what every event gets done, without naming the
steps of the machine (`Progress.StepProceeds`): bytes that are delivered are received and answered,
bytes that are accepted are sent, a blocked write changes nothing, a failed one and a hang-up end
the connection; and a client that accepts what it is owed gets all of it
(`Progress.AcceptedIsSent`). A piece is what one round of reading handed to the parser. It is
manageable when it and the incomplete request before it are shorter than the buffer, hold at most 64
requests, and end with the last request if one of them asks to close. A client that never has more
than 64 keep-alive requests or a buffer of bytes unanswered needs to know nothing about reads:
however its bytes are cut on the way, all its pieces are manageable
(`Promise.WaitingClientIsManageable`). The limits are real, and `Limits` has the inputs: the 65th
request of a batch gets no answer (`Limits.SixtyFifthIsLost`; `Progress.BufferAnswered` says for any
buffer which do), a connection that asked to close stays open if and only if bytes are left over
behind the request (`Limits.ClosedIff`, `Limits.CloseIsForgotten`), and a buffer filled to its last
byte gets one rejection, however many complete requests it holds (`Limits.FullBufferIsRejected`,
`Limits.FullBufferLosesAll`).

**The JSON scanners and the calendar** (`src/vector/`). `JsonScan` proves that the skipper, which
counts one kind of bracket only, lands at the end of every well-formed value. `QueryParsers` and
`CompactParser` are the two hand-written parsers. `QueryMeaning.SinglePassMeans` says what the
general one reads from any well-formed JSON object, even one without its commas, by a walk over the
tree of its values. `QueryFields.AcceptedIff` says which of these it accepts: those with fields of
their kinds, none of the twelve missing, and a last transaction that is there and whole.
`QueryShape.AcceptedText` says what any accepted text looks like, and
`QueryOrder.SinglePassIgnoresOrder` that neither order nor spacing nor unknown members matter; the
list of merchants, which is searched for brackets and quotes, is read as it is if and only if no
name has a closing bracket or an escaped quote (`QueryMeaning.ArrayNamesIff`).
`CompactForm.CompactIff` says that the compact one accepts exactly the renderings of well-formed
contents, and `CompactParser.ParsersAgree` when the general one accepts what the compact one accepts
(the compact reader takes numbers that begin with a dot and merchant names with a closing bracket,
the general one does not) and that both then read the same fields; `CompactForm.DottedIsRefused` and
`CompactForm.BracketIsRefused` are texts on which they differ. From the fields both fill the vector
by the same formulas (`src/vector/compact.rs:142-209`, `src/vector/single_pass.rs:286-582`), which
`Features` models once, to say when a query's vector is in the domain of the exactness results and
what each component is a share of. `QueryVector.VectorOfText` joins this to the text: from a query
to its vector, component by component, in terms of the last value of each field. `Calendar` treats
day numbers, weekdays and timestamps, and `QueryVector.MomentsSay` has the components that come from
these.

Loops over mutable state are methods proved against a specification function; `Builder.Builder`,
`Search.Pending`, `Format.IndexWriter` and `EventLoop.EventLoop` are the objects the source updates
in place. Run `dafny verify dfyconfig.toml` to check the whole project.

Where comments or documents differ from the code, the code is followed: the remark in
`src/index/layout.rs:60` puts the partition records at offset 46, but they begin at 42 plus four
bytes for each predicate; the record sizes and field types in `docs/ARCHITECTURE.md:453-478` are not
those of the writer.

## Model

| member | source | states |
|---|---|---|
| `EndToEnd.BuildOpenAndAsk` | src/index/mod.rs:321-436 | main result, in terms of the references alone: for every list of zero-padded references and every query from which none of them is further than 31 bits can say, every leaf size, scheme, split strategy and candidate scoring, with and without label deferral, the plain scan finds the nearest five by distance and position; the answer is, unless the early exit was taken, the number of frauds among five references of which none left out is nearer, at the distances of the scan's; it is the number among the scan's whenever the labels tied at the cut agree, and without such a tie the references are the scan's; after an early exit it is the number of frauds among distinct references |
| `EndToEnd.EitherDomainIsValid` | build.rs:13 | such are all vectors that hold the sentinel only in dimensions 5 and 6, at any scale up to 10362, and all that hold it anywhere, at any scale up to 6192 |
| `EndToEnd.BuildOpenAndAskTwice` | src/index/mod.rs:599-613 | the same index asked twice: the keys reported are exactly the partitions of five nearest references, at most five, and asking in these partitions only counts the frauds among five nearest references there, which are as near as the first five |
| `EndToEnd.BuildAndOpen` | src/index/build.rs:94-200 | opening the bytes that were built succeeds and gives an index of exactly these references, each in one real lane, partitioned by the scheme as prepared |
| `Nearest.SlotsShow` | src/index/mod.rs:321-436 | the slots of a search show references, each with its own distance, label, position and partition, that are the nearest of a set; there are five, or all |
| `Nearest.CountShown` | src/index/mod.rs:435 | the label count of the slots is the number of frauds among them |
| `Ties.TiedAcrossPartitions` | src/index/mod.rs:366-435 | a concrete failure of equal counts: six references at one distance in two partitions, of which the search counts none and the scan one, for every leaf size, split strategy and scoring |
| `Ties.HomeCount` | src/index/mod.rs:330-363 | the five tied references of the query's own partition are its top five, and none is a fraud |
| `Ties.OtherIsAsFar` | src/index/mod.rs:384-404 | the other partition's bound equals that distance, so it is not searched |
| `Ties.ScanCount` | src/index/partition_scheme.rs:328-354 | the scan meets the fraud first and counts it |
| `Ties.OnePlace` | src/index/mod.rs:366-435 | references that are all at the place of the query are counted by the search as by the scan, whatever their labels, for every leaf size, scheme, split strategy and scoring |
| `Ties.OnePlaceDisagrees` | src/index/mod.rs:366-435 | such references may disagree at the cut: disagreement alone does not make a scheme with which search and scan differ |
| `Kernel.ScanBlock` | src/index/search.rs:198-228 | the mask is exactly the lanes whose wrapped 32-bit accumulator is within the limit, and a set lane reports that accumulator of the 14-dimension distance to the lane's de-interleaved vector |
| `Kernel.AccumulatorExactIff` | src/index/search.rs:198-228 | the wrapped accumulator equals the distance if and only if the distance fits 31 bits |
| `Kernel.DomainSqSum` | src/index/build.rs:66-76 | two zero-padded vectors whose components are at most the scale, and negative only where the sentinel is allowed, are at most the squared scale times 4 for each dimension with the sentinel and 1 for each other one apart |
| `Kernel.CornerDistance` | src/index/build.rs:66-76 | two vectors of the domain attain that bound, whatever dimensions may hold the sentinel |
| `Kernel.NoWrapIffBoundFits` | src/index/search.rs:198-228 | so no distance in the domain wraps if and only if that bound fits 31 bits |
| `Kernel.NoWrapIffScale` | build.rs:13 | with the sentinel in dimensions 5 and 6 only, no distance wraps if and only if the scale is at most 10362: the default 10000 is safe, the accepted 11000 is not |
| `Kernel.NoWrapAnywhereIffScale` | src/index/build.rs:47-76 | with the sentinel in any of the 14 dimensions, as the loader of references allows, no distance wraps if and only if the scale is at most 6192: the default is not safe |
| `Kernel.StrayedIsNearest` | src/index/build.rs:47-76 | a concrete reference the loader accepts at the default scale, with the sentinel in dimensions 0, 5 and 6: its distance to the query with the scale in every feature is 2300000000 and wraps below zero, below every true distance |
| `Kernel.LowerBoundExact` | src/index/search.rs:236-266 | with all lane arithmetic made explicit the packed bound is the sum of squared gaps to the box over all 16 dimensions |
| `Kernel.GapBelowDistance` | src/index/search.rs:236-266 | the gap sum never exceeds the distance to a vector of the box |
| `Kernel.NearestDistance` | src/index/search.rs:236-266 | and is attained by the nearest point of the box |
| `Kernel.AdmissibleIff` | src/index/search.rs:231-266 | the 16-dimension bound is below the 14-dimension distance to every vector of the box if and only if the query's padding lies inside the box's padding |
| `TopK.InsertBest` | src/index/search.rs:125-178 | in place: the array becomes the specified insertion of the candidate |
| `TopK.InsertKeeps` | src/index/search.rs:125-178 | insertion loses nothing but the last slot, and that only when the new one enters |
| `TopK.InsertHolds` | src/index/search.rs:125-178 | sorted distinct candidates stay sorted distinct candidates |
| `TopK.InsertTopK` | src/index/search.rs:125-178 | from the (distance, index) top K of a set to the top K of the set with one more |
| `TopK.Pointwise` | src/index/partition_scheme.rs:328-354 | position by position no selection of distinct candidates beats a covering one |
| `TopK.KNearestDistances` | src/index/partition_scheme.rs:328-354 | all K-nearest sets have the same K distances and no selection is smaller anywhere |
| `TopK.TopKUnique` | src/index/partition_scheme.rs:328-354 | the lexicographic top K is unique |
| `TopK.TieSwaps` | src/index/mod.rs:384-402 | when a candidate left out ties with the last slot, swapping it for any slot at that distance is K-nearest too |
| `TopK.UniqueIffNoTie` | src/index/mod.rs:384-402 | K-nearest sets are unique if and only if nothing outside the top K ties with its last slot |
| `TopK.CloserOnTop` | src/index/mod.rs:384-402 | the slots closer than the last are the top K of all candidates that are |
| `TopK.AgreeingCount` | src/index/mod.rs:435 | if the labels tied at the cut agree, every K-nearest set has the label count of the top K |
| `TopK.CountDeterminedIff` | src/index/mod.rs:384-435 | all K-nearest sets have the same label count if and only if every candidate left out at the cut has the label of every slot at that distance |
| `TopK.Extend` | src/index/mod.rs:398-433 | searching a further set from the slots found so far covers both sets |
| `TopK.Skip` | src/index/mod.rs:384-404 | candidates that are not closer than the last slot may be skipped |
| `Routing.ComputeTreeKey` | src/index/partition_scheme.rs:84-101 | the key is that of the tree walk and below 1024 for every depth, so the lookup table is total |
| `Routing.KeyIsPlace` | src/index/partition_scheme.rs:84-101 | without naming the walk: from the root in heap order, right where an enabled node's feature is above its threshold and left anywhere else, for at most ten levels, the key is the place of the node reached among those of its level |
| `Routing.HeapOrder` | src/index/partition_scheme.rs:84-101 | after each level the walk is at node 2^level - 1 + key prefix |
| `Routing.SameKeyIffSameSides` | src/index/partition_scheme.rs:84-101 | two vectors share a key prefix if and only if they take the same side at every level |
| `Routing.VisitsIffOnWalk` | src/index/partition_scheme.rs:84-101 | the parent-side description of visiting a node agrees with the walk |
| `Training.ChooseCandidate` | src/index/partition_scheme.rs:160-200 | the first candidate with the best score among those that leave at least four samples on each side; none exactly when no candidate does |
| `Training.SplitPositions` | src/index/partition_scheme.rs:143-258 | the two sides are the samples that match and those that do not, in order |
| `Training.TrainNode` | src/index/partition_scheme.rs:143-258 | in place: the subtree is exactly the one its samples and the candidates determine - disabled below where no candidate is eligible, otherwise the best candidate and the subtrees of the two sides; nothing outside it changes |
| `Training.TrainChildren` | src/index/partition_scheme.rs:231-258 | the two recursive calls do not disturb each other, and leave exactly the trees of the two sides |
| `Training.TooFew` | src/index/partition_scheme.rs:155-157 | fewer than eight samples are a case of no eligible candidate, so the early return leaves out nothing |
| `Training.TrainedIsUnique` | src/index/partition_scheme.rs:143-258 | there is only one such tree |
| `Training.TrainedOnVisitors` | src/index/partition_scheme.rs:143-258 | every node was trained on exactly the samples whose walk visits it, or lies below a disabled node |
| `Training.TrainingMatchesRouting` | src/index/partition_scheme.rs:84-258 | main result: a node is enabled if and only if its parent is and some candidate would send at least four of the samples that routing sends through the node to each side; it then has the first of the best-scored candidates among those that do |
| `Training.VisitorsAre` | src/index/partition_scheme.rs:143-258 | the samples a node is scored on are all that routing sends through it, each once and in order |
| `Training.LearnTree` | src/index/partition_scheme.rs:103-140 | the tree has 2^depth - 1 entries, names features only, is the tree trained on all samples, and every node of it is enabled or disabled as the main result says |
| `Sampling.SampleIndices` | src/index/partition_scheme.rs:303-307 | all positions if there are no more than asked for; otherwise as many as asked for, position i at i times the quotient; ascending and in range |
| `Sampling.SampledAre` | src/index/partition_scheme.rs:103-140 | the sample is all references, or 1024 of them evenly spread |
| `Sampling.CandidatePredicates` | src/index/partition_scheme.rs:260-291 | exactly the thresholds of every feature, by feature and threshold, each once |
| `Sampling.ThresholdsAre` | src/index/partition_scheme.rs:260-296 | of at most 64 values the thresholds are the midpoints of neighbours, the halves rounded toward zero; of more, the 15 values that cut them into sixteenths |
| `Sampling.MidpointBetween` | src/index/partition_scheme.rs:293-296 | the midpoint, which is rounded toward zero, lies between the two values and is the larger one if and only if they are adjacent and not positive |
| `Sampling.ThresholdsSeparate` | src/index/partition_scheme.rs:260-291 | no threshold is outside the values of its feature, and the largest value is one if and only if the two largest of at most 64 values are adjacent and not positive |
| `Sampling.CandidateSeparates` | src/index/partition_scheme.rs:260-291 | every candidate has a reference on its left, and one on its right if and only if it is not that largest value |
| `KdTree.HeightBound` | src/index/build.rs:231-289 | halving gives logarithmic height |
| `KdTree.HeightFits` | src/index/mod.rs:508-512 | for i32-sized counts no tree is higher than 28, so the 128-entry stack never drops a far child |
| `KdTree.CountBound` | src/index/build.rs:202-305 | a tree has no more records than references |
| `KdTree.EncodesStable` | src/index/build.rs:202-305 | later records and lanes do not disturb an encoded subtree |
| `KdTree.EncodesOnDisk` | src/index/build.rs:155-165 | dividing each start by the lane count keeps the encoding, because starts are whole blocks |
| `KdTree.SameBox` | src/index/build.rs:210-218 | tight boxes depend only on which references there are |
| `KdTree.OrBits` | src/index/build.rs:202-305 | the class bits of a parent are the labels of both sides |
| `Splits.WidestDimension` | src/index/build.rs:307-318 | the first dimension of largest width, with the 16-bit difference wrapping as in the source |
| `Splits.WidestIsWide` | src/index/build.rs:307-318 | where no width wraps it is the first of largest difference |
| `Splits.SpreadIsDifferences` | src/index/build.rs:320-351 | n times the sum of squares less the square of the sum is the sum of the squared differences of all pairs |
| `Splits.VarianceDimension` | src/index/build.rs:320-351 | the first dimension with the largest such sum among those that are not constant, or the first widest when all are |
| `Splits.ChosenInAnyOrder` | src/index/build.rs:262-265 | the dimension depends only on which references there are, not on their order |
| `Builder.TightBox` | src/index/build.rs:210-218 | the minimum and maximum loop gives the tight bounding box of the references |
| `Builder.SortByDimension` | src/index/build.rs:266-269 | a sorted permutation |
| `Builder.Builder.constructor` | src/index/build.rs:125-126 | starts with no lanes and no nodes |
| `Builder.Builder.PushLane` | src/index/build.rs:231-259 | appends one lane, a reference or padding, and its label to the class bits |
| `Builder.Builder.PushBlock` | src/index/build.rs:231-259 | appends eight lanes |
| `Builder.Builder.PushLeaf` | src/index/build.rs:231-259 | appends whole blocks that hold the references once and then padding, with exactly their labels as class bits |
| `Builder.Builder.BuildLeaf` | src/index/build.rs:231-259 | appends a leaf record for the lanes pushed |
| `Builder.Builder.SplitIndices` | src/index/build.rs:262-272 | two halves of the references, sorted by the dimension that the strategy chooses |
| `Builder.Builder.BuildBranch` | src/index/build.rs:274-304 | the record reserved before its children is overwritten and encodes the joined tree |
| `Builder.Builder.BuildNode` | src/index/build.rs:202-305 | in place: appends records and lanes that encode, in preorder, a halved tree with exactly these references, every branch of it split in the dimension its strategy chooses, tight boxes, exact class bits and whole blocks; everything before them is unchanged |
| `Builder.JoinRecords` | src/index/build.rs:274-304 | overwriting the parent keeps both children encoded and joins them |
| `Builder.BuiltLeaf` | src/index/build.rs:231-259 | what a pushed leaf amounts to as a built tree |
| `Builder.JoinBuilt` | src/index/build.rs:274-304 | two built halves and their parent are a built tree |
| `Builder.BlockAppended` | src/index/build.rs:231-259 | every appended lane stores a reference's own vector and label, or padding |
| `Index.SlotsSum` | src/index/mod.rs:901-975 | the slots of two disjoint parts of the references are those of both |
| `Index.OwnedMore` | src/index/mod.rs:205-212 | the references of one more partition |
| `LeafScan.OfferLane` | src/index/mod.rs:532-590 | a lane outside the mask cannot enter, and one inside offers exactly its reference's slot |
| `LeafScan.OfferLanes` | src/index/mod.rs:532-590 | the lanes of a block in ascending order give the top K with them |
| `LeafScan.OfferBlock` | src/index/mod.rs:532-590 | one block, its last lanes possibly padding that is never read |
| `LeafScan.ScanLeaf` | src/index/mod.rs:901-975 | from the top K of everything seen to the top K including the leaf's references |
| `Search.BoundAdmissible` | src/index/search.rs:231-266 | the bound of a tight box is below the distance to every reference in it |
| `Search.Prune` | src/index/mod.rs:456-456 | a subtree whose bound exceeds the last distance offers nothing |
| `Search.Pending.constructor` | src/index/search.rs:16-24 | starts empty, without a label |
| `Search.Pending.TryDefer` | src/index/search.rs:27-53 | defers only if all K labels agree and the subtree holds only that label, also when the list is full or has another label; every pending subtree keeps the pending label |
| `Search.Pending.ShouldReplay` | src/index/search.rs:56-58 | true exactly when something is pending and the K labels no longer agree on its label |
| `Search.Pending.Pop` | src/index/search.rs:61-68 | takes the last subtree; popping from the empty list forgets the label |
| `Search.Children` | src/index/mod.rs:479-506 | the two children, nearer bound first, with admissible bounds and together the references of the node |
| `Search.VisitBranch` | src/index/mod.rs:479-518 | the far child goes on the stack or is pruned, never dropped for want of space, and what is left to explore shrinks |
| `Search.VisitLeaf` | src/index/mod.rs:474-478 | the leaf's references are accounted for |
| `Search.Visit` | src/index/mod.rs:456-519 | one node is pruned, deferred, scanned or left for its near child; every reference stays accounted for, pending or ahead |
| `Search.PopEntry` | src/index/mod.rs:522-528 | the next subtree comes off the stack |
| `Search.SearchNode` | src/index/mod.rs:806-899 | from any top K of slots seen so far the search ends with exactly the (distance, index) top K of those and every reference of the subtree that was not deferred; the rest is pending; without deferral nothing is |
| `Predict.AfterSearch` | src/index/mod.rs:398-433 | a subtree search keeps the slots a K-nearest set of everything offered |
| `Predict.SearchFrom` | src/index/mod.rs:336-347 | searching one subtree from a K-nearest set |
| `Predict.ReplayOne` | src/index/search.rs:86-103 | one pending subtree is searched without deferral, or pruned without loss |
| `Predict.ReplayPendingIfNeeded` | src/index/search.rs:86-103 | ends with nothing pending or the K labels agreeing with the pending label, however often consensus is lost and regained |
| `Predict.SearchPartition` | src/index/mod.rs:398-430 | one more partition is offered or pending, and the pending list is settled |
| `Predict.SortEntries` | src/index/search.rs:106-122 | in place: a permutation sorted by bound |
| `Predict.SiftDown` | src/index/search.rs:106-122 | one step of the insertion sort |
| `Predict.AllowedActiveKeys` | src/index/mod.rs:794-804 | exactly the allowed keys that have a partition, ascending |
| `Predict.Gather` | src/index/mod.rs:371-391 | every permitted partition is gathered or has no reference closer than the last slot; if no other partition has a bound below it, none is gathered |
| `Predict.RestTooFar` | src/index/mod.rs:398-404 | when the loop stops at a bound, everything behind it is too far, because the bounds ascend |
| `Predict.SearchHome` | src/index/mod.rs:330-363 | the home partition first, if it exists and is permitted; without deferral the slots are its top K |
| `Predict.SearchOthers` | src/index/mod.rs:398-433 | stops early, or with everything not searched at least as far as the last slot |
| `Predict.PendingHarmless` | src/index/search.rs:27-53 | pending references with the common label do not change the label count of a K-nearest set |
| `Predict.Conclude` | src/index/mod.rs:435 | the count at the end is that of a K-nearest set of all permitted references; with nothing pending the slots are that set |
| `Predict.Others` | src/index/mod.rs:366-433 | gathering, sorting and searching the other partitions |
| `Predict.Predict` | src/index/mod.rs:321-436 | main result on a loaded index: the slots are distinct permitted references; unless the early exit was taken, which a restriction rules out, the count is that of a valid K-nearest set of all permitted references, and without deferral the slots are that set; if no other partition has a bound below the last distance of the home partition, the slots are those of the home partition alone |
| `Exactness.PlainScan` | src/index/partition_scheme.rs:328-354 | the reference scan, by a strict comparison of distances only: the five nearest references other than the skipped one, by distance and position, and the array has their positions |
| `Exactness.AnswerShows` | src/index/mod.rs:321-436 | a search result shows five nearest references of the partitions it may look into, and its count is the number of frauds among them |
| `Exactness.KeysShown` | src/index/mod.rs:97-105 | the reported keys are exactly the partitions of the references shown, no more than there are references |
| `Exactness.ScanShift` | src/index/partition_scheme.rs:328-354 | the shifting loop is the specified insertion |
| `Exactness.SameDistances` | src/index/partition_scheme.rs:328-354 | any search result and the plain scan have the same K distances |
| `Exactness.SameCount` | src/index/mod.rs:435 | the same count if the labels tied at the cut agree, the same slots if nothing ties |
| `Exactness.RestrictionKeepsNearest` | src/index/mod.rs:97-105 | a K-nearest set is still one among the references of its own partitions, also with fewer than K references |
| `Exactness.RestrictedFixpoint` | src/index/mod.rs:599-613 | searching only the reported partitions finds the same K distances |
| `Exactness.PredictTwice` | src/index/mod.rs:599-613 | the two calls in sequence: a key is reported if and only if one of the five nearest references is in its partition, at most five are; both counts are numbers of frauds among five nearest references, of all and of the reported partitions, and those are as near as these |
| `Bytes.LERoundTrip` | src/index/format.rs:102-129 | little-endian bytes read back as the number |
| `Bytes.I16RoundTrip` | src/index/search.rs:277-284 | signed 16-bit numbers read back as written |
| `Bytes.I32RoundTrip` | src/index/search.rs:268-275 | signed 32-bit numbers read back as written |
| `Bytes.U32RoundTrip` | src/index/layout.rs:40-42 | unsigned 32-bit numbers read back as written |
| `Format.IndexWriter.constructor` | src/index/format.rs:9-11 | starts with no bytes |
| `Format.IndexWriter.AlignTo` | src/index/format.rs:112-115 | appends zeros up to the next multiple |
| `Format.IndexWriter.WriteHeader` | src/index/format.rs:13-39 | the header with its three counts still zero |
| `Format.IndexWriter.PatchI32` | src/index/format.rs:41-57 | overwrites four bytes and nothing else |
| `Format.IndexWriter.WritePartitionEntry` | src/index/format.rs:59-78 | one partition record |
| `Format.IndexWriter.WriteNodeEntry` | src/index/format.rs:80-100 | one node record |
| `Format.WritePartitionCount` | src/index/format.rs:41-45 | patching gives the header as if the count had been known, whatever follows it |
| `Format.WriteNodeCount` | src/index/format.rs:47-51 | likewise the node count |
| `Format.WriteBlockCount` | src/index/format.rs:53-57 | likewise the block count, after all records |
| `Format.ComponentAt` | src/index/build.rs:170-178 | where the interleaving puts each component of each lane |
| `Format.WriteVectors` | src/index/build.rs:170-178 | the three nested loops write the pair-interleaved block section |
| `Format.WriteLabels` | src/index/build.rs:180-185 | the label section |
| `Format.WriteRefIndices` | src/index/build.rs:187-193 | the reference index section |
| `Format.WriteClassBits` | src/index/build.rs:195-197 | the class bit section |
| `Format.WriteBody` | src/index/build.rs:145-199 | all sections, counts back-patched and alignment included, are the bytes of the file |
| `Format.ClassRoundTrip` | src/index/build.rs:231-259 | a set of labels below eight survives its byte |
| `Layout.PartitionRoundTrip` | src/index/layout.rs:45-78 | the partition accessors return the record written |
| `Layout.NodeRoundTrip` | src/index/layout.rs:81-116 | the node accessors return the record and the class bits written |
| `Layout.VecRoundTrip` | src/index/layout.rs:55-78 | the box accessors return the vector written |
| `Loader.Load` | src/index/mod.rs:122-310 | the cursor walk, with wrapping 64-bit sizes, gives for every byte string the result that the section-by-section description gives, errors included, and opens only a file with the expected magic, scale, packed dimensions and scheme |
| `Loader.OnlyExpectedOpens` | src/index/mod.rs:122-194 | no file with another magic, scale, number of packed dimensions or scheme opens, whatever else it holds |
| `Loader.KeyTableIs` | src/index/mod.rs:205-212 | for every list of keys, with repetitions or not, the table has the last partition with a key, and -1 for all other keys |
| `Loader.LoadFields` | src/index/mod.rs:144-155 | the fixed header fields |
| `Loader.LoadPredicates` | src/index/mod.rs:163-177 | the predicates, or the first error |
| `Loader.FillKeyTable` | src/index/mod.rs:205-212 | the last partition with each key |
| `Loader.ListActiveKeys` | src/index/mod.rs:280-285 | the keys in use, ascending |
| `Loader.LoadBlocks` | src/index/mod.rs:223-257 | the block sections and their checks |
| `Loader.LoadSections` | src/index/mod.rs:196-257 | the record sections and their checks |
| `FileRoundTrip.HeaderRoundTrip` | src/index/format.rs:13-57 | the header reads back, back-patched counts included |
| `FileRoundTrip.PredicatesLoad` | src/index/mod.rs:163-177 | the predicates load if and only if each is all there and, when enabled, names a feature |
| `FileRoundTrip.PlacedInPrefix` | src/index/format.rs:13-129 | every section lies where the writer began it |
| `FileRoundTrip.ViewOfLoaded` | src/index/layout.rs:44-116 | every accessor returns what was written, for all partitions, nodes, components, labels, indices and class bits |
| `FileRoundTrip.LoadsExactlyCompleteFiles` | src/index/mod.rs:140-310 | a prefix of a written file loads if and only if it is the whole file; a complete file, whatever follows it, loads with every section found where the writer began it and every field as written |
| `FileBytes.WrittenBytes` | src/index/build.rs:94-199 | main result: every byte of a written file, at literal offsets: header fields, predicates, partition and node records, the interleaved vectors, labels, padding, reference indices and class bits, as little-endian numbers and their two's complements |
| `Build.RouteReferences` | src/index/build.rs:119-123 | each reference is stored under the key its own vector would query |
| `Build.PositionsOnce` | src/index/build.rs:119-123 | a key's list holds every position of the key once |
| `Build.PartitionOwned` | src/index/build.rs:119-123 | that list is exactly the references of the partition |
| `Build.SortedKeys` | src/index/build.rs:129-130 | the keys, ascending |
| `Build.BuildTrees` | src/index/build.rs:132-143 | over all partitions: every reference of the keys done is in exactly one real lane, and all trees built so far stay encoded |
| `Build.KeyTableFinds` | src/index/mod.rs:205-212 | the lookup table finds every partition by its key and nothing else |
| `Build.LookupBuilt` | src/index/mod.rs:785-792 | lookup table and active keys of the loaded index are consistent |
| `Build.LaneWritten` | src/index/search.rs:198-228 | the scan's de-interleaving inverts the writer's interleaving |
| `Build.TreeFits` | src/index/build.rs:202-305 | every number of a built record fits the field it is written to |
| `Build.IndexBuilt` | src/index/build.rs:94-200 | the loaded index of the written file is an index of the references |
| `Build.FileBuilt` | src/index/build.rs:94-200 | the built file can be written and has every reference in exactly one real lane, padding elsewhere, and halved trees with leaves within the leaf size |
| `Build.Prepare` | src/index/partition_scheme.rs:72-76 | a scheme with predicates is kept, or one that has too few references or no levels; an empty one gets exactly the tree trained on the sampled vectors with all candidates of the references; what it gets can be stored |
| `Build.BuildIndex` | src/index/build.rs:94-200 | the scheme is prepared first, and the bytes are those of such a file, byte by byte, for the prepared scheme and the leaf size clamped to 8..2048, with trees that are split as the strategy says |
| `Build.BuildPrepared` | src/index/build.rs:106-199 | the build from the prepared scheme on |
| `HttpParser.FindContentLength` | src/http/parser.rs:150-172 | the two scans, exact spelling first and then any case, find what the description finds |
| `HttpParser.WindowStep` | src/http/parser.rs:150-172 | comparing the first letter first changes nothing |
| `HttpParser.ParseContentLengthValue` | src/http/parser.rs:174-188 | blanks skipped, digits read up to a blank or carriage return |
| `HttpParser.ParseDigits` | src/http/parser.rs:174-188 | saturating at every digit is saturating the decimal value once; anything but digits gives 0 |
| `HttpParser.FirstLineIff` | src/http/parser.rs:127-148 | a first line is accepted with given bounds if and only if it is a method, one blank, a non-empty path without blanks and one more blank, all before the first carriage return |
| `HttpParser.ParseRequest` | src/http/parser.rs:64-97 | a complete request consumes at least four bytes and no more than there are; what it is, and why there is none, is said by the members of RequestText |
| `RequestText.FindIff` | src/http/parser.rs:108-125 | a text is found at its first occurrence, and not found if and only if it does not occur |
| `RequestText.LengthIsRead` | src/http/parser.rs:150-188 | the body length is read from its header field, in any spelling, with blanks around the decimal number, among any other fields |
| `RequestText.NoLengthIsRead` | src/http/parser.rs:150-188 | without such a field it is 0 |
| `RequestText.RequestIsRead` | src/http/parser.rs:64-97 | a request for a resource that is there is read with its method, path and body, whatever its version and header fields and whatever follows it |
| `RequestText.QueryIsRead` | src/http/parser.rs:64-97 | main result: a query of at most 8192 bytes, posted with the decimal of its length in any spelling of the field, is handed on with exactly its body, and consumes exactly its text |
| `RequestText.ReadyIsRead` | src/http/parser.rs:64-97 | so is a readiness request without a body |
| `RequestText.CloseIff` | src/http/parser.rs:190-199 | a request asks to close if and only if the phrase occurs in its header in any mixture of cases |
| `RequestText.RejectedIff` | src/http/parser.rs:64-106 | when the header is there, a buffer waits for the body of a request, is one, or is rejected: for a first line of another form, for a resource that is not there, for a body that is too long |
| `RequestText.WithoutHeadWaits` | src/http/parser.rs:64-70 | without the end of a header it waits |
| `HttpStream.DecidedLocally` | src/http/parser.rs:64-97 | a decision depends only on the bytes it is about: any buffer with the same prefix gets the same |
| `HttpStream.ParserIsStable` | src/http/parser.rs:64-97 | prefix stability: what is complete or rejected stays so, with the same result, for every extension of every buffer |
| `HttpStream.RequestIsSelfContained` | src/http/parser.rs:64-97 | a request's own bytes parse the same, and nothing shorter is a request or rejected |
| `HttpStream.RestOfStream` | src/http/parser.rs:20-36 | what is left over is the end of the stream, all of it if nothing was served |
| `HttpStream.ServeInPieces` | src/http/parser.rs:20-36 | the responses do not depend on where the stream is cut |
| `HttpStream.PipelinedInOrder` | src/http/parser.rs:20-36 | pipelined requests are answered one by one in their order (section 9.3.2 of RFC 9112), and then an incomplete rest is kept or a rejected one answered last; the stream asks to stay open if and only if every request does |
| `Session.AllDelivered` | src/fd_passing/io.rs:11-42 | bytes that fit are delivered whole, in any number of answers |
| `Session.BatchServes` | src/fd_passing/evented.rs:301-330 | a batch is all of the buffer's responses if and only if there are at most 64; otherwise the 65th is lost and the ones behind it are still to be served |
| `Session.PiecesAreNext` | src/fd_passing/evented.rs:432-452 | the pieces handed to the system are the next bytes to send, as many pieces as there is room for: none exactly when all is sent, and with room to spare all that is left |
| `Session.ReceivedIsDelivered` | src/fd_passing/evented.rs:252-275 | a readable event adds to the bytes received exactly what the answers deliver, and nothing to a connection that is not being read |
| `Promise.RestIsUnanswered` | src/fd_passing/evented.rs:301-330 | an incomplete request alone has no answer |
| `Promise.QuietThenData` | src/fd_passing/evented.rs:277-300 | when everything is answered and more is read, only the answers to the buffer are missing |
| `Promise.BatchIsPending` | src/fd_passing/evented.rs:301-358 | a manageable batch is all that is missing |
| `Promise.SomeWereSent` | src/fd_passing/evented.rs:454-534 | any partial write leaves the rest missing |
| `Promise.LeftoverIsDue` | src/fd_passing/evented.rs:481-506 | after the batch only the leftover's answers are missing |
| `Promise.ContinueOk` | src/fd_passing/evented.rs:360-534 | however a batch is written, what is sent stays what is owed |
| `Promise.StepOk` | src/fd_passing/evented.rs:90-134 | every event keeps that |
| `Promise.EveryRunIsAnswered` | src/fd_passing/evented.rs:24-534 | main result over all histories: a connection whose pieces were manageable has sent the beginning of one response per request in order, and all of it unless it is writing or was cut |
| `Promise.UndisturbedIsNotCut` | src/fd_passing/evented.rs:24-534 | a connection is cut only by a hang-up, a failed or empty read, or a failed write |
| `Progress.DrainedIs` | src/fd_passing/io.rs:11-42 | reading takes exactly what the answers deliver before the first that delivers nothing, as far as there is room |
| `Progress.FirstWriteSends` | src/fd_passing/evented.rs:471-497 | an answer that accepts some bytes sends them, up to the end of the pieces handed over |
| `Progress.AllAccepted` | src/fd_passing/evented.rs:471-534 | when two answers accept all that remains, all of it is sent |
| `Progress.BufferAnswered` | src/fd_passing/evented.rs:277-358 | when the system accepts all, a buffer that is not full gets the responses to all of its requests but every 65th, batch after batch, and the connection waits for the rest of a request or is closed |
| `Progress.WaitingIsUnfinished` | src/fd_passing/evented.rs:277-358 | in every run a connection that waits for input has nothing complete in its buffer |
| `Progress.StepProceeds` | src/fd_passing/evented.rs:90-134 | what every event gets done, without naming the steps: bytes delivered are received and answered, bytes accepted are sent, a blocked write changes nothing, a failed one and a hang-up end the connection |
| `Progress.AcceptedIsSent` | src/fd_passing/evented.rs:397-421 | a client of a manageable stream that accepts all it is owed gets it: afterwards nothing is waiting to be sent |
| `Progress.RunProceeds` | src/fd_passing/evented.rs:24-534 | main result over all histories: the last event has done that to its descriptor, and nothing to any other |
| `Promise.AnyChunking` | src/fd_passing/evented.rs:277-358 | at most 64 keep-alive requests in less than a buffer of bytes, behind whole requests, are manageable however they are cut into pieces |
| `Promise.WaitingClientIsManageable` | src/fd_passing/evented.rs:277-358 | so a client that never has more than that unanswered meets the condition of the stream theorem, whatever the reads hand over |
| `Promise.RequestsAreModest` | src/fd_passing/evented.rs:277-358 | whole keep-alive requests, at most 64 of them in less than a buffer, are such a round |
| `Limits.SixtyFifthIsLost` | src/fd_passing/evented.rs:310-316 | a concrete client: 65 complete requests fit the buffer; the batch has the first 64 answers, nothing of the 65th is kept, and the connection is to be closed |
| `Limits.ClosedIff` | src/fd_passing/evented.rs:301-506 | a batch that is written at once closes the connection if and only if a request asked for it or was rejected and nothing is left over behind the requests |
| `Limits.CloseIsForgotten` | src/fd_passing/evented.rs:475-506 | a concrete client that asks to close: the connection is closed, but stays open when one more byte is in the buffer |
| `Limits.FullBufferIsRejected` | src/fd_passing/evented.rs:282-300 | a buffer filled to its last byte gets one rejection and the connection is closed, whatever the buffer holds |
| `Limits.FullBufferLosesAll` | src/fd_passing/evented.rs:282-300 | a concrete client: 136 complete requests and eight more bytes, read at once, get one rejection between them |
| `Connection.GreedyRead` | src/fd_passing/io.rs:11-42 | outcome and buffer are exactly what the system's answers deliver into the room left, behind what was there |
| `Connection.ProcessBuffer` | src/fd_passing/evented.rs:301-330 | the inner loop takes exactly the batch of the description: its responses, what is left over, and whether the connection stays |
| `Connection.OneMoreRead` | src/fd_passing/io.rs:11-42 | one answer: reading ends here, or its bytes are held too |
| `Connection.OneMoreRequest` | src/fd_passing/evented.rs:301-330 | one step of the parser: the batch ends here, or has one more response |
| `Connection.BuildIovecs` | src/fd_passing/evented.rs:432-452 | at most 32 non-empty pieces that are the next bytes to send; none exactly when all is sent |
| `EventLoop.EventLoop.constructor` | src/fd_passing/conn.rs:16-41 | no slot, no interest |
| `EventLoop.EventLoop.Arm` | src/fd_passing/evented.rs:573-583 | registers the interest of one descriptor |
| `EventLoop.EventLoop.Shutdown` | src/fd_passing/evented.rs:536-542 | clears the interest of one descriptor |
| `EventLoop.EventLoop.AllWritten` | src/fd_passing/evented.rs:475-506 | closes if and only if nothing is left over and the batch asked for it; otherwise reading goes on with exactly what is left over |
| `EventLoop.EventLoop.FinishWrite` | src/fd_passing/evented.rs:454-534 | for every schedule of partial writes: the outcome, the bytes written and the answers left over are those of the description |
| `EventLoop.WriteLoop` | src/fd_passing/evented.rs:471-534 | the loop of writes sends exactly what the answers accept, and ends for the reason described |
| `EventLoop.OneMoreWrite` | src/fd_passing/evented.rs:471-534 | one answer: everything was sent already, or writing stops here, or goes on |
| `EventLoop.EventLoop.DriveReading` | src/fd_passing/evented.rs:277-358 | the connection becomes what the session machine makes of the buffer, batch after batch |
| `EventLoop.EventLoop.StartWrite` | src/fd_passing/evented.rs:360-395 | the same from a batch on |
| `EventLoop.EventLoop.ContinueWrite` | src/fd_passing/evented.rs:360-421 | what the two callers of the write loop do with its outcome |
| `EventLoop.EventLoop.ReadAndDrive` | src/fd_passing/evented.rs:234-275 | what the two readers have in common |
| `EventLoop.EventLoop.OnNewClient` | src/fd_passing/evented.rs:217-250 | the new connection becomes what the session machine makes of the first answers; nothing else changes |
| `EventLoop.EventLoop.OnReadable` | src/fd_passing/evented.rs:252-275 | a reading connection receives exactly what the answers deliver and goes on as the session machine says; any other stays as it is |
| `EventLoop.EventLoop.OnWritable` | src/fd_passing/evented.rs:397-421 | a writing connection goes on as the session machine says, which sends what the answers accept; any other stays as it is |
| `EventLoop.EventLoop.OnReady` | src/fd_passing/evented.rs:126-131 | first the reading, then the writing |
| `EventLoop.EventLoop.CloseConn` | src/fd_passing/evented.rs:544-549 | an open connection is cut, and its slot and interest are empty |
| `EventLoop.EventLoop.Dispatch` | src/fd_passing/evented.rs:90-134 | every descriptor makes exactly the step of the session machine for the event, and no other one changes |
| `EventLoop.Run` | src/fd_passing/evented.rs:24-534 | main result over all runs: the table shows of every descriptor the history of its events; a connection whose pieces were manageable is answered in order, and one that nothing disturbed is not cut; the last event has received, answered, sent or ended what it should; a waiting connection has nothing complete in its buffer and is registered for input, a writing one for output, a closed one not at all |
| `JsonScan.ScanWs` | src/vector/single_pass.rs:15-20 | the loop skips exactly the whitespace |
| `JsonScan.ScanString` | src/vector/single_pass.rs:22-46 | the loop with its escape flag is the string skipper |
| `JsonScan.ScanNumber` | src/vector/single_pass.rs:48-89 | the loops are the number skipper |
| `JsonScan.ScanNested` | src/vector/single_pass.rs:112-160 | the depth-counting loop is the nesting skipper |
| `JsonScan.ScanValue` | src/vector/single_pass.rs:103-163 | the whole skipper |
| `JsonScan.StringLands` | src/vector/single_pass.rs:22-46 | a string is skipped to its own closing quote, whatever it escapes |
| `JsonScan.NumberLands` | src/vector/single_pass.rs:48-89 | a well-formed number is skipped to its end, if a delimiter follows |
| `JsonScan.BracketedIsInert` | src/vector/single_pass.rs:112-160 | brackets of the counted kind go up and come down again, the other kind is not looked at |
| `JsonScan.ValueIsInert` | src/vector/single_pass.rs:112-160 | a whole value, nested to any depth, leaves the counter of either kind where it was |
| `JsonScan.MembersAreInert` | src/vector/single_pass.rs:112-160 | likewise the members of an object |
| `JsonScan.ItemsAreInert` | src/vector/single_pass.rs:112-160 | likewise the items of an array |
| `JsonScan.SkipValueLands` | src/vector/single_pass.rs:103-163 | main result: the skipper lands exactly at the end of every well-formed value (sections 4 to 7 of RFC 8259), mixed objects and arrays, escaped quotes and brackets included, also when commas between members are missing or follow the last one; only a number needs a delimiter behind it |
| `QueryParsers.ScanDouble` | src/vector/helpers.rs:224-264 | the loop reads the longest number-like token |
| `QueryParsers.ScanInt` | src/vector/helpers.rs:266-293 | the loop reads an optional minus and digits |
| `QueryParsers.ParseNamed` | src/vector/single_pass.rs:255-519 | each field is read by the reader of its kind |
| `QueryParsers.ParseTopValue` | src/vector/single_pass.rs:233-519 | known objects are parsed, the last transaction may be null, anything else is skipped |
| `QueryParsers.HashMerchants` | src/vector/single_pass.rs:175-199 | the first 64 names between the brackets are hashed, in order |
| `QueryParsers.ScanMerchants` | src/vector/single_pass.rs:165-199 | the array up to the first closing bracket, wherever that is |
| `QueryParsers.ParseObject` | src/vector/single_pass.rs:233-519 | the five field loops, one per object, are the description of their section |
| `QueryParsers.ParseSinglePass` | src/vector/single_pass.rs:201-586 | the whole parser, on the loops above and below, is its description for every text, error kinds included; what that accepts and refuses is said by the members of QueryMeaning, QueryFields and QueryShape |
| `QueryMeaning.DoubleMeans` | src/vector/helpers.rs:224-264 | at any well-formed value the number reader reads the whole number, exponent included, and fails on any other kind |
| `QueryMeaning.IntMeans` | src/vector/helpers.rs:266-293 | at any well-formed value the integer reader reads the sign and the whole part, dropping fraction and exponent, and fails on any other kind |
| `QueryMeaning.ArrayNamesIff` | src/vector/single_pass.rs:165-199 | the names of an array without further arrays or objects are read as they are if and only if none of them has a closing bracket or an escaped quote |
| `QueryMeaning.MerchantsMean` | src/vector/single_pass.rs:165-199 | then the first 64 of them are hashed |
| `QueryMeaning.FieldMeans` | src/vector/single_pass.rs:255-519 | a known field is read as the walk over its value reads it, errors included |
| `QueryMeaning.BracedRead` | src/vector/single_pass.rs:233-519 | one of the known objects, with members in any order and any whitespace, is read from behind its opening brace to its end as the walk over its members reads it |
| `QueryMeaning.SinglePassMeans` | src/vector/single_pass.rs:201-586 | main result: for every well-formed JSON object (sections 4 to 7 of RFC 8259) whose merchants can be searched, whatever the order and spacing, the unknown members and the bytes behind it, and even without its commas, the parser reads exactly what a walk over the tree of values reads, the first error included |
| `QueryFields.NamedOfIff` | src/vector/single_pass.rs:255-519 | a known field is refused if and only if its value is not of its kind; a number is the fast reader's where that has one and the slow reader's otherwise |
| `QueryFields.FieldsHold` | src/vector/single_pass.rs:233-519 | every field of an object is read from the last value of its key |
| `QueryFields.DocumentHolds` | src/vector/single_pass.rs:201-586 | likewise over the whole document |
| `QueryFields.DocumentOkIff` | src/vector/single_pass.rs:201-519 | the walk meets no error if and only if every known object is one and every known field is of its kind |
| `QueryFields.AcceptedIff` | src/vector/single_pass.rs:201-586 | main result: such a query is accepted if and only if its fields are of their kinds, each of the twelve keys occurs in its object, the last transaction occurs, and that has both of its fields or neither; what is read are the last values; a missing key and half a last transaction have their own errors |
| `QueryShape.AcceptedText` | src/vector/single_pass.rs:201-586 | main result: whatever text is accepted, well-formed or not, is an object in braces whose members have a quoted key, a colon and a value, the four known objects in braces too, the last transaction in braces or null |
| `QueryOrder.Reordered` | src/vector/single_pass.rs:201-586 | steps that commute in pairs give the same result in any order, or an error in any order |
| `QueryOrder.FieldsOrder` | src/vector/single_pass.rs:233-519 | neither the order of the fields of an object nor its unknown members matter |
| `QueryOrder.DocumentOrder` | src/vector/single_pass.rs:201-586 | nor the order of the objects |
| `QueryOrder.SinglePassIgnoresOrder` | src/vector/single_pass.rs:201-586 | main result: any two texts with the same known fields, each once, are read alike, whatever the order on both levels, the whitespace and the unknown members |
| `CompactParser.ReadCompactString` | src/vector/compact.rs:24-38 | the loop reads up to a quote and fails on an escape |
| `CompactParser.ReadCompactNumber` | src/vector/compact.rs:40-64 | the loop reads digits with at most one dot |
| `CompactParser.ReadCompactMerchants` | src/vector/compact.rs:102-129 | the loop reads the names of the array |
| `CompactParser.NumberAgrees` | src/vector/helpers.rs:224-264 | both parsers read a number token alike; the skipper rejects one that begins with a dot |
| `CompactParser.IntAgrees` | src/vector/helpers.rs:266-293 | both read an integer token alike |
| `CompactParser.BoolAgrees` | src/vector/helpers.rs:295-304 | both read a truth value alike |
| `CompactParser.StringAgrees` | src/vector/helpers.rs:306-327 | both read a string without escapes alike |
| `CompactParser.ListAgrees` | src/vector/single_pass.rs:165-199 | the search for brackets and quotes finds the names of the array |
| `CompactParser.MerchantsAgree` | src/vector/single_pass.rs:165-199 | both read the list alike exactly when no name has a closing bracket; otherwise the single-pass parser fails |
| `CompactParser.FieldAgrees` | src/vector/single_pass.rs:233-519 | one round of the object loop: a plain value leads to the next key with the field read, any other value to a failure |
| `CompactParser.FieldsAgree` | src/vector/single_pass.rs:233-519 | a whole object, by induction over its keys |
| `CompactParser.SectionsAgree` | src/vector/single_pass.rs:233-519 | all objects, one after the other, by induction over the sections |
| `CompactParser.LastAgrees` | src/vector/compact.rs:195-215 | the last transaction, null or an object, and the end of the text |
| `CompactParser.NothingMissing` | src/vector/single_pass.rs:521-565 | an accepted text has every required field, and the last transaction as a whole or not at all |
| `CompactParser.ParsersAgree` | src/vector/compact.rs:131-225 | main result: whenever the compact parser accepts, the single-pass parser accepts if and only if no number begins with a dot and no merchant name has a closing bracket, and then reads the same fields |
| `CompactForm.ValueIff` | src/vector/compact.rs:15-129 | what is read for a value is what it is written as, and it is read back before a comma or a brace |
| `CompactForm.CompactIff` | src/vector/compact.rs:131-225 | main result: the compact parser accepts a text with given tokens if and only if it is the rendering of a well-formed content with these tokens |
| `CompactForm.SampleText` | src/vector/compact.rs:131-225 | for every number token and list of names, a text the compact parser accepts, and the single-pass parser if and only if the number does not begin with a dot and no name has a closing bracket |
| `CompactForm.DottedIsRefused` | src/vector/single_pass.rs:103-163 | an amount .5, if it is a number, makes a text that only the compact parser accepts |
| `CompactForm.BracketIsRefused` | src/vector/single_pass.rs:165-199 | so does the merchant name ] |
| `Calendar.FromMarchCounts` | src/vector/helpers.rs:117-125 | with 32-bit and truncating arithmetic made explicit, the day number counts the days of the years and months before |
| `Calendar.YearStep` | src/vector/helpers.rs:117-125 | a year is 365 days, 366 if it is a leap year |
| `Calendar.MonthStep` | src/vector/helpers.rs:117-125 | every month begins where the one before ends |
| `Calendar.DayNumberStep` | src/vector/helpers.rs:117-125 | the day number rises by exactly one per civil day |
| `Calendar.DayNumberOfEpoch` | src/vector/helpers.rs:117-125 | and is 0 on 1 January 1970 |
| `Calendar.DayNumbersOrder` | src/vector/helpers.rs:117-125 | day numbers order exactly as dates do |
| `Calendar.WeekdayIff` | src/vector/helpers.rs:80-88 | the weekday of the source is right, Monday being 0, if and only if the day is not before 29 December 1969 or is a Monday |
| `Calendar.WeekdayAdvances` | src/vector/helpers.rs:80-88 | from that day on every civil day has the next weekday |
| `Calendar.TimestampRoundTrip` | src/vector/helpers.rs:70-115 | a rendered timestamp (section 5.6 of RFC 3339), whatever follows it, reads as its epoch minute, hour and weekday |
| `Calendar.TimestampIff` | src/vector/helpers.rs:70-115 | a text is read as a timestamp if and only if it has at least sixteen characters and digits where year, month, day, hour and minute are; what is read is what these digits spell, and any other text is an invalid value |
| `Calendar.EpochMinutesOrder` | src/vector/helpers.rs:70-89 | epoch minutes order exactly as timestamps do |
| `Features.Quantize` | src/vector/helpers.rs:4-14 | for any scale: the sentinel exactly for values at or below -1, otherwise between 0 and the scale, and within half a unit of the scaled value |
| `Features.QuantizeMonotone` | src/vector/helpers.rs:4-14 | for any scale, a larger value never gets a smaller feature |
| `Features.ShareMonotone` | src/vector/helpers.rs:4-14 | what a feature is of a value that counts in full from some value on: a larger value never has a smaller one |
| `Features.ShareIsUnique` | src/vector/helpers.rs:4-14 | and there is only one |
| `Features.LoadedInDomainIff` | src/index/build.rs:47-51 | the vector of a reference is in a domain if and only if no number of the file is at or below -1 in a dimension that may not hold the sentinel |
| `Features.InDomainIff` | src/vector/helpers.rs:127-148 | for any scale the query vector is in the domain that allows the sentinel anywhere; it is in the one that allows it in dimensions 5 and 6 only if and only if none of the nine inputs that are not the last transaction's is so far below zero that it becomes the sentinel |
| `Features.SharesOfValues` | src/vector/single_pass.rs:255-519 | amount, installments, hour, weekday, kilometres, count, risk and average count in full from 10000, 12, 23, 6, 1000, 20, 1 and 10000 on |
| `Features.ComparisonsOfValues` | src/vector/single_pass.rs:567-574 | the amount counts in full from ten times the average on, and without an average; the flags are the whole scale exactly for online, for card and for a merchant that is not known |
| `Features.SinceLast` | src/vector/single_pass.rs:576-583 | without a last transaction both of its features are the sentinel, otherwise the minutes since then out of a day and the kilometres out of a thousand |
| `QueryVector.VectorOfText` | src/vector/single_pass.rs:201-586 | main result: from the text of a well-formed query that is accepted to its vector, every component in terms of the last value of its field, whatever else is there |
| `QueryVector.MomentsSay` | src/vector/helpers.rs:70-115 | with timestamps as they are written, the hour, the day of the week and the minutes between the two moments |

## Left out

- Duplicate code: `search_node_iterative` and `search_node_iterative_fast`, the two leaf scans, the two insertions and the prediction variants differ only in statistics, deferral and whether partition keys are kept; each pair is one member here, with the partition key always kept in the slot and carried along with a deferred subtree.
- Statistics, log output, memory mapping and locking, prefetching and unsafe reads; the three best arrays are one array of slots, `PartitionSet` and class bits are sets, vector instructions are loops over lanes with their wrapping written out.
- Search.Pending.TryDefer: class bits are the set of labels below a node; the byte they are stored in is related to that set by `Format.ClassRoundTrip`.
- Library sorts and maps: `Builder.SortByDimension`, `Build.SortedKeys` and the sort of more than 32 partition entries are insertion sorts; the callers use only that the result is a sorted permutation.
- Floating point: feature values are reals, number parsing, hashing, merchant risk and the timestamp reader seen by the parsers are uninterpreted functions of the token, candidate scores are an uninterpreted function.
- Build.Prepare: the score of a candidate for a list of samples, with the neighbours from `exact_topk` and `label_separation` it is computed from, is an arbitrary function; the scan inside `exact_topk` is `Exactness.PlainScan`, its threads are not modelled.
- Loading references from gzip and JSON, and the serde fallback parser: library code.
- EndToEnd.BuildOpenAndAsk: references are zero-padded, with components within the largest accepted scale, labels 0 and 1 and distances to the query within 31 bits, at most 2^31 - 1 of them, and stored scheme depths and predicate counts within 16 bits. The loader gives the first three (`src/index/build.rs:47-76`); the bound on the distances is an assumption on the reference file and the query, which fails for some files the loader accepts (`Kernel.StrayedIsNearest`), and what the search answers then is not modelled. The scale field of the file header is the default scale, as vectors of any scale are stored alike.
- Predict.Predict: the early-exit threshold and the deferral flag are arguments instead of environment variables, and are the same for all calls of one search.
- Loader.Load: a negative number of predicates, which asks the original for more memory than there can be and stops it, is an error value; the checks that cannot fail because a cursor was just aligned are left out.
- Build.BuildIndex: a vector longer than memory, and writing to disk.
- HttpParser.ParseRequest: the sum of header length and content length does not wrap; in the original it could for a content length within a few bytes of 2^64 on a request without a body limit.
- EventLoop.Run: an event carries the answers to all reads and writes it leads to, and the system is taken to block when they are used up. The handler is a function of the request, so the readiness flag that can change over time is not modelled; the control socket, descriptor passing, the buffer pool and waiting for events are not either. The system is assumed not to hand out a descriptor that is still open. The stream of a connection is what was handed to the parser: bytes that one event read before a failed read are dropped, as in the source.
- Promise.EveryRunIsAnswered: when more bytes are already in the buffer behind a request to close, the code goes on serving them, contrary to section 9.6 of RFC 9112; the stream theorem is stated for pieces without such bytes (`Limits.ClosedIff` says what happens to the connection), as the deployed setting in `docker/Dockerfile:48` makes every request keep-alive.
- QueryParsers.ParseSinglePass: the values read are returned instead of being written into the vector; hashes of merchant names are compared as the original does, not the names.
- QueryMeaning.SinglePassMeans: merchant arrays are without further arrays or objects, and their names without closing brackets and escaped quotes; what is read from texts that are not well-formed is covered by `QueryParsers.ParseSinglePass` only, and their form by `QueryShape.AcceptedText`.
- CompactParser.ParsersAgree: the literals of the compact text are consumed piece by piece at their commas and braces, which accepts the same texts with the same error. Texts that only the single-pass parser accepts are the subject of `QueryMeaning.SinglePassMeans`.
- Calendar.TimestampRoundTrip: seconds and offsets, which the reader ignores; years 0 to 9999.
- The load balancer, warm-up, configuration, response tables and benchmark programs: simple logic only.
