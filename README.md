# Nested STAR simulator: the measurement trie and its threshold aggregation

The simulator puts every measurement into a trie. A measurement is an ordered list of attribute values (country, channel, platform, …).

- **The trie.** Each node maps an attribute value to an entry. The entry holds how many measurements passed through it, and a child node for the next attribute.
- **Aggregation.** Aggregating with threshold `k` walks the trie from the root at depth 1 and classifies the measurements:
  - a measurement whose full value list reaches an entry of at least `k` measurements at the last depth is *fully* unlocked;
  - one that reaches such entries only down to some depth `d` is *partially* unlocked and tagged with length `d`;
  - the rest are lost.
- **Self-checks.** The simulator then checks that the length tags add up to the partial count; in `code/` it also checks that there are fewer lengths than attributes.

The repository holds the algorithm twice, and both versions are modelled:

- `code/` (`code/star_node.go`, `code/star.go`), whose test file supplies the concrete fixture. This version also tags full measurements with length `maxDepth`, and stops the program on a qualifying entry without a child.
- The root directory (`star_node.go`, `star.go`). Here full measurements get no tag, a qualifying entry without a child is skipped, and the threshold is fixed when the simulator is made. Its `Aggregate` runs only the `AddsUp` check, with no bound on the number of lengths (star.go:56-60).

Modules:

- `Sums` — sums over a map's values. Go visits map entries in an unspecified order; `SumRemove` proves that every visiting order gives the same total.
- `Aggregation` — the counters (`Counts`) and the mutable `AggregationState` with `AddLenTags`, `Augment` and `AddsUp`, proved against the value functions `AddLen`, `Augmented` and `PartialsAddUp`.
- `StarNode` — the trie: `Add`, its invariants, and the diagnostics `NumTags`, `NumNodes` and `NumLeafTags`.
- `NodeAggregate` — the recursive specification `Aggregated`, with the `Variant` flag `Code` or `Root`, and the method `Aggregate`, which is the Go loop proved to compute it.
- `Accounting` — what the counters add up to, for every trie and for tries built by `Add`.
- `CodeStar`, `RootStar` — the two simulator classes.
- `Batches` — how whole batches of measurements land in the trie.
- `Scenario` — the 17-measurement fixture of code/star_test.go, computed from the definitions.

## Model

| member | source | states |
|---|---|---|
| Sums.SumRemove | code/star.go:144-150 | a sum over a map's values can remove any key first, so the visiting order of Go's loop does not change the total |
| Sums.SumMerge | code/star.go:136-138 | merging two length maps key by key adds their sums |
| Aggregation.AddLen | code/star.go:123-130 | the entry of `key` becomes its old value (0 if absent) plus `value`; every other key keeps its value; no other key appears |
| Aggregation.AddLenSum | code/star.go:123-130 | adding `value` at one key raises the sum of all lengths by `value` |
| Aggregation.AugmentedEmpty | code/star.go:113-117 | the new, all-zero state is a neutral element of `Augment` on both sides |
| Aggregation.AugmentedCommutes | code/star.go:132-139 | the value after `Augment` does not depend on the order of the two states |
| Aggregation.AugmentedAssociates | code/star.go:132-139 | `Augment` is associative on values |
| Aggregation.AugmentedSum | code/star.go:132-139 | the sum of the lengths after `Augment` is the sum of both inputs' sums |
| Aggregation.AggregationState.constructor | code/star.go:113-117 | `NewAggregationState` (identical at star.go:96-100): every counter 0, no length tags |
| Aggregation.AggregationState.AddLenTags | code/star.go:123-130 | updates the length map as `AddLen` does and changes no other field (identical at star.go:106-113) |
| Aggregation.AggregationState.Augment | code/star.go:132-139 | the new value is the key-wise and field-wise sum of the old value and the argument's value, including when the argument is the receiver itself (identical at star.go:115-122) |
| Aggregation.AggregationState.AddsUp | code/star.go:144-150 | true exactly when the partial count equals the sum of all length tags (identical at star.go:127-133) |
| Aggregation.AugmentExample | code/star_test.go:100-114 | `{0:10, 1:5}` augmented by `{1:15}` gives exactly `{0:10, 1:20}` |
| StarNode.Add | code/star_node.go:58-76 | the first value's count rises by 1, or starts at 1; every other entry is unchanged; the entry has a child exactly when attributes remain or it already had one; a one-attribute insert keeps the existing child (identical at star_node.go:57-75) |
| StarNode.AddDescends | code/star_node.go:67-75 | when attributes remain, the child is the existing child (an empty node if none) with the rest inserted, so an existing child is reused |
| StarNode.AddAllSnoc | code/star.go:40-42 | inserting one more record after a sequence is `Add` applied to the trie of the sequence |
| StarNode.AddTotal | code/star_node.go:58-65 | each insertion adds exactly one to the sum of the counts at the node it starts from |
| StarNode.AddWellFormed | code/star_node.go:58-76 | inserting a measurement of `len` attributes keeps the trie well formed: positive counts, children exactly above the last attribute, and each entry's count equal to the sum of its child's counts |
| StarNode.AddAllWellFormed | code/star_node.go:58-76 | inserting records of equal length keeps the trie well formed and adds their number to its total |
| StarNode.AddExtends | code/star_node.go:58-76 | no entry disappears, no count decreases and no child is dropped, at any depth |
| StarNode.ExtendsItself | code/star_node.go:58-76 | the no-decrease relation used by `AddExtends` is reflexive |
| StarNode.TagsLeavesNodes | code/star_node.go:78-111 | for every trie, `NumTags = NumLeafTags + NumNodes - 1` |
| StarNode.NumTags | code/star_node.go:78-87 | the loop returns the number of entries plus the tags of every child (`Tags`; identical at star_node.go:77-86) |
| StarNode.NumNodes | code/star_node.go:89-98 | the loop returns 1 plus the nodes of every child (`Nodes`; identical at star_node.go:88-97) |
| StarNode.NumLeafTags | code/star_node.go:100-111 | the loop returns the number of entries without a child, summed over the trie (`LeafTags`; identical at star_node.go:99-110) |
| NodeAggregate.AggregatedOverRemove | code/star_node.go:23 | any entry can be merged first: the aggregate does not depend on the order Go visits the entries in |
| NodeAggregate.Unlock | code/star_node.go:41-52 | merging a child's state, tagging the newly unlocked measurements with this depth and, at the root, adding the partial count, gives `Unlocked` |
| NodeAggregate.AggregateEntry | code/star_node.go:24-52 | one iteration of the loop: it fails exactly when the `Code` version meets a qualifying entry without a child above the last depth; otherwise it adds the entry's `Contribution` |
| NodeAggregate.Aggregate | code/star_node.go:18-56 | fails exactly when the `Code` version meets an incomplete measurement (`star_node.go:34-37` skips it instead); otherwise returns a fresh state whose value is `Aggregated` |
| Accounting.AggregatedShape | code/star_node.go:18-56 | for every trie: partial measurements are counted at the root only, where they equal the already-counted ones; the length tags sum to those plus, in `Code`, the full ones; tags lie in `depth..maxDepth` |
| Accounting.RootAddsUp | star_node.go:40-51 | in the root-directory version, `AddsUp` holds for every trie, threshold and depth |
| Accounting.CodeAddsUpIffNoneFull | code/star.go:144-150 | in the `code/` version, `AddsUp` holds exactly when no measurement was fully unlocked |
| Accounting.CodeFullTag | code/star_node.go:30-33 | in `code/`, the tag of length `maxDepth` equals the full count, and every tag lies in `1..maxDepth` |
| Accounting.RootLengths | star_node.go:30-45 | in the root-directory version, every tag lies in `1..maxDepth - 1` |
| Accounting.LengthCount | code/star.go:68-71 | `code/` tags at most `maxDepth` lengths, the root-directory version at most `maxDepth - 1` |
| Accounting.AggregatedAgree | star_node.go:30-33 | both versions compute the same full, partial and already-counted numbers and the same tags, except that `code/` adds the full count at `maxDepth` |
| Accounting.BelowThreshold | code/star_node.go:25-27 | when every count of a node is below `k`, its aggregate is all zeros with no tags |
| Accounting.AggregatedBounded | code/star_node.go:44-46 | on a well-formed trie, no counter or tag is negative, so `numNewlyUnlocked` is never negative; at most the total is unlocked, all of it when `k <= 1` |
| Accounting.ContributionBounded | code/star_node.go:44-46 | the same bounds for the state one entry contributes, within its own count |
| Accounting.WellFormedComplete | code/star_node.go:35-38 | a well-formed trie has no qualifying entry without a child above the last depth, so the fatal branch never fires |
| Accounting.Reconciles | code/star_node.go:41-46 | at every depth of a well-formed trie, full plus already-counted is the sum of the counts of the entries that reach `k` |
| Accounting.ContributionReconciles | code/star_node.go:29-46 | one entry adds its whole count to full plus already-counted when it reaches `k`, and nothing otherwise |
| Accounting.RootReconciles | code/star_node.go:50-52 | at the root, full plus partial is the sum of the root counts that reach `k` |
| Accounting.AllCounted | code/star_node.go:50-52 | with `k <= 1`, full plus partial is every measurement in the trie |
| Accounting.AggregatedFullMonotone | code/star_node.go:25-33 | raising the threshold never increases the full count |
| Accounting.CountedMonotone | code/star_node.go:25-52 | on a well-formed trie, raising the threshold never increases full plus partial at the root |
| Accounting.QualifyingMonotone | code/star_node.go:25-27 | the root counts that reach a higher threshold sum to no more than those that reach a lower one |
| CodeStar.SumValues | code/star.go:52-58 | the loop returns the sum of the map's values |
| CodeStar.AsWrittenRejectsFull | code/star.go:62-66 | on any well-formed trie where some measurement is fully unlocked, `Aggregate` as written stops with "partial measurements don't add up" |
| CodeStar.CorrectedAccepts | code/star.go:62-77 | with both checks restricted to the lengths `1..numAttrs-1` that the printing loop walks, every trie passes them |
| CodeStar.NestedStar.constructor | code/star.go:29-35 | `NewNestedSTAR`: empty root and no measurements |
| CodeStar.NestedStar.AddRecords | code/star.go:37-43 | the measurement count rises by the number of records; the root becomes the trie with the records inserted in order |
| CodeStar.NestedStar.NumTags | code/star.go:19-21 | delegates to the root's `NumTags` |
| CodeStar.NestedStar.NumLeafTags | code/star.go:22-24 | delegates to the root's `NumLeafTags` |
| CodeStar.NestedStar.NumNodes | code/star.go:25-27 | delegates to the root's `NumNodes` |
| CodeStar.NestedStar.Aggregate | code/star.go:62-71 | fails on an incomplete measurement; otherwise fails when `AddsUp` fails, then when there are at least `numAttrs` lengths; otherwise returns the aggregated state |
| CodeStar.NestedStar.AggregateCorrected | code/star.go:62-77 | the same checks on the partial lengths only; on a well-formed trie it always returns the aggregated state |
| RootStar.NestedStar.constructor | star.go:31-37 | `NewNestedSTAR(k)` stores `k`, an empty root and no measurements |
| RootStar.NestedStar.AddReports | star.go:40-45 | the measurement count rises by the number of reports; the root becomes the trie with the reports inserted in order; `k` is unchanged |
| RootStar.NestedStar.NumTags | star.go:20-22 | delegates to the root's `NumTags` |
| RootStar.NestedStar.NumLeafTags | star.go:23-25 | delegates to the root's `NumLeafTags` |
| RootStar.NestedStar.NumNodes | star.go:26-28 | delegates to the root's `NumNodes` |
| RootStar.NestedStar.Aggregate | star.go:56-60 | aggregates with the stored `k` and always passes `AddsUp`, returning the aggregated state |
| Batches.AddAllAppend | code/star.go:40-42 | inserting two batches in a row is inserting their concatenation |
| Batches.AddAllBranch | code/star_node.go:58-76 | a batch of measurements that all start with `v` raises `v`'s count by the batch size and builds its child from the tails |
| Batches.AddAllLeaf | code/star_node.go:58-66 | `c` one-attribute measurements of `v` raise its count by `c` and keep its child |
| Scenario.InitTrieBuilt | code/star_test.go:5-33 | the 17 insertions of `initSTAR` build exactly the trie `InitTrie` |
| Scenario.InitWellFormed | code/star_test.go:5-33 | that trie is well formed for three attributes and holds 17 measurements |
| Scenario.InitCounts | code/star_test.go:77-98 | it has 10 nodes, 8 leaf tags and 17 tags |
| Scenario.InitAggregate | code/star_test.go:35-57 | with 3 attributes and threshold 5, both versions give 6 full, 10 partial and tags `{2:3, 1:7}`; `code/` also tags `{3:6}` |
| Scenario.CodeFixture | code/star_test.go:35-57 | in `code/`, the fixture's state is `{6, 10, {3:6, 2:3, 1:7}}`, `AddsUp` fails on it, the as-written checks reject it and the corrected checks accept it |
| Scenario.PartialRisesWithThreshold | code/star_node.go:50-52 | in both versions, the fixture's partial count is 10 with threshold 5 but 11 with threshold 7: the partial count alone is not monotone in the threshold |
| Scenario.RootFixture | star_node.go:18-55 | in the root-directory version, the fixture gives `{6, 10, {2:3, 1:7}}` and `AddsUp` holds |
| Scenario.InitStar | code/star_test.go:5-33 | `initSTAR` inserts straight into the root: the trie is `InitTrie` and the measurement count stays 0 |
| Scenario.RealStar | code/star_test.go:35-58 | the root aggregation gives the full, partial and length values the test expects, but the `AddsUp` it asserts first is false |
| Scenario.NumLeafs | code/star_test.go:77-98 | the three diagnostics return 10 nodes, 17 tags and 8 leaf tags |
| Scenario.CodeAggregates | code/star.go:62-71 | the simulator's `Aggregate` on the fixture stops with "partial measurements don't add up"; the corrected one returns the expected state |
| Scenario.RootAggregates | star.go:56-60 | the root-directory simulator built with threshold 5 returns `{6, 10, {2:3, 1:7}}` for the same measurements |

Raising the threshold never increases the number of full measurements (`AggregatedFullMonotone`), nor the full and partial measurements taken together (`CountedMonotone`). The partial count alone can rise, because measurements that stop being full become partial. On the fixture it goes from 10 at threshold 5 to 11 at threshold 7 (`PartialRisesWithThreshold`).

## Left out

- The trie is a value (a datatype of maps), not a graph of pointers. `Add` returns the new trie rather than updating entries in place, so the model does not capture pointer identity or sharing between nodes. Every node is owned by exactly one entry, so nothing observable depends on sharing.
- StarNode.Add: modelled as a recursive function rather than an in-place method on linked nodes, so the model does not capture the update in place of an existing entry or child.
- StarNode.Add: an empty measurement is excluded by its precondition. In Go, `orderedMsmt[0]` (code/star_node.go:59, star_node.go:58) panics on an empty measurement, and that panic is not modelled; `AddRecords` passes the result of `foursquareRec.Prepare` (foursquare.go:39-45), one value per location, and `parseRawRecord` always reads seven locations (foursquare.go:76-91), and the test passes three; `Report.Prepare`, used by `AddReports`, is not part of this model.
- The collections Go iterates over (`ValueToInfo`, `LenPartialMsmts`) are Dafny maps, and the loops visit their keys in an arbitrary order chosen by `:|`. Order independence is proved (`SumRemove`, `AggregatedOverRemove`); the specific randomised order of the Go runtime is not modelled.
- `Fatal`/`Fatalf` (code/star.go:64-71, code/star_node.go:35-38) become an `Err` result of `Failure`, not a process exit. The log line of star_node.go:34-37 is left out; only the skip is modelled.
- The printing in `Aggregate` is not modelled: `frac`, the percentages and all `fmt.Printf`/log output (code/star.go:45-50, 73-103; star.go:47-52, 62-86). It is floating point and output formatting. The corrected checks use the same partial lengths as that printing loop.
- The embedded `sync.WaitGroup` and the `inbox` channel of the simulator structs are never driven, so they are not modelled.
- `Record.Prepare`/`Report.Prepare` are an external interface; each measurement is given already prepared, as its ordered list of attribute values.
- foursquare.go, main.go and code/main.go (CSV ingestion, flag parsing, the sweep over `k`) are not part of this model.
- Integers are unbounded. Go's `int` is 64 bits; the counters are bounded by the number of measurements and cannot overflow in practice.

## Findings

| source | as written | input that shows it | evidently intended | confidence | as-written member | corrected member |
|---|---|---|---|---|---|---|
| code/star.go:144-150 | `AddsUp` compares the partial count with the sum of ALL length tags. code/star_node.go:32 also tags the full measurements with length `maxDepth`, so the sum is partial plus full, and `Aggregate` (code/star.go:64-66) stops on every trie with a fully unlocked measurement. The test's own expectations (code/star_test.go:38-57: partial 10, tags `{3:6, 2:3, 1:7}` summing to 16) cannot all hold | the 17 measurements of `initSTAR` with 3 attributes and threshold 5: the state is 6 full, 10 partial, tags `{3:6, 2:3, 1:7}`, and `AddsUp` is false | compare the partial count with the tags of lengths `1..numAttrs-1` only, the partial lengths that the printing loop (code/star.go:77) walks, and count only those against `numAttrs` | not executed | CodeStar.AsWrittenRejectsFull, Scenario.CodeFixture, Scenario.RealStar | CodeStar.NestedStar.AggregateCorrected, CodeStar.CorrectedAccepts, Scenario.CodeAggregates |
