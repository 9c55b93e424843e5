/**
 * The fixture of code/star_test.go: seventeen measurements of three
 * attributes (country, channel, platform), aggregated with three attributes
 * and threshold five.  The lemmas compute, from the definitions, the values
 * the tests expect: the trie `initSTAR` builds, its diagnostics, and the
 * aggregated counts in both versions.
 */
module Scenario {
  import opened Wrappers
  import opened Sums
  import opened Aggregation
  import opened StarNode
  import opened NodeAggregate
  import opened Accounting
  import opened CodeStar
  import RootStar
  import opened Batches

  // ----- The fixture -----

  /** The measurements `initSTAR` inserts, in its order. */
  function InitRecords(): (r: seq<seq<string>>)
    ensures |r| == 17 && forall i | 0 <= i < |r| :: |r[i]| == 3
  {
    [["US", "release", "windows"], ["US", "release", "windows"], ["US", "release", "windows"],
     ["US", "release", "windows"], ["US", "release", "windows"], ["US", "release", "windows"],
     ["US", "release", "linux"], ["US", "release", "linux"], ["US", "release", "macos"],
     ["US", "nightly", "windows"], ["US", "beta", "windows"],
     ["CA", "release", "windows"], ["CA", "release", "windows"], ["CA", "release", "windows"],
     ["CA", "release", "windows"], ["CA", "nightly", "windows"],
     ["MX", "release", "windows"]]
  }

  /** The trie they build. */
  const UsRelease := map["windows" := Leaf(6), "linux" := Leaf(2), "macos" := Leaf(1)]
  const JustWindows := map["windows" := Leaf(1)]
  const Us := map["release" := Inner(9, UsRelease), "nightly" := Inner(1, JustWindows), "beta" := Inner(1, JustWindows)]
  const Ca := map["release" := Inner(4, map["windows" := Leaf(4)]), "nightly" := Inner(1, JustWindows)]
  const Mx := map["release" := Inner(1, JustWindows)]
  const InitTrie := Node(map["US" := Inner(11, Us), "CA" := Inner(5, Ca), "MX" := Inner(1, Mx)])

  /** The same measurements, grouped by their leading attributes. */
  function UsReleaseTails(): (r: seq<seq<string>>)
    ensures |r| == 9 && forall i | 0 <= i < |r| :: |r[i]| == 1
    ensures NonEmpty(r)
  {
    Copies(["windows"], 6) + Copies(["linux"], 2) + Copies(["macos"], 1)
  }

  function UsTails(): (r: seq<seq<string>>)
    ensures |r| == 11 && forall i | 0 <= i < |r| :: |r[i]| == 2
    ensures NonEmpty(r)
  {
    Prefixed("release", UsReleaseTails()) + Prefixed("nightly", Copies(["windows"], 1))
      + Prefixed("beta", Copies(["windows"], 1))
  }

  function CaTails(): (r: seq<seq<string>>)
    ensures |r| == 5 && forall i | 0 <= i < |r| :: |r[i]| == 2
    ensures NonEmpty(r)
  {
    Prefixed("release", Copies(["windows"], 4)) + Prefixed("nightly", Copies(["windows"], 1))
  }

  function MxTails(): (r: seq<seq<string>>)
    ensures |r| == 1 && forall i | 0 <= i < |r| :: |r[i]| == 2
    ensures NonEmpty(r)
  {
    Prefixed("release", Copies(["windows"], 1))
  }

  lemma Grouped()
    ensures InitRecords() == Prefixed("US", UsTails()) + Prefixed("CA", CaTails()) + Prefixed("MX", MxTails())
  {
    var us, ca, mx := Prefixed("US", UsTails()), Prefixed("CA", CaTails()), Prefixed("MX", MxTails());
    var all := InitRecords();
    assert |us| == 11 && |ca| == 5 && |mx| == 1;
    forall i | 0 <= i < 11 ensures all[i] == us[i] {
      assert |UsTails()[i]| == 2;
    }
    forall i | 0 <= i < 5 ensures all[11 + i] == ca[i] {
    }
    assert all[16] == mx[0];
  }

  const UsRelease1 := Node(map["windows" := Leaf(6)])
  const UsRelease2 := Node(map["windows" := Leaf(6), "linux" := Leaf(2)])

  lemma UsReleaseBuilt()
    ensures AddAll(EmptyNode, UsReleaseTails()) == Node(UsRelease)
  {
    AddAllLeaf(EmptyNode, "windows", 6);
    AddAllLeaf(UsRelease1, "linux", 2);
    AddAllLeaf(UsRelease2, "macos", 1);
    Chain3(EmptyNode, Copies(["windows"], 6), Copies(["linux"], 2), Copies(["macos"], 1), UsRelease1, UsRelease2, Node(UsRelease));
  }

  lemma WindowsBuilt(c: nat)
    requires c > 0
    ensures AddAll(EmptyNode, Copies(["windows"], c)) == Node(map["windows" := Leaf(c)])
  {
    AddAllLeaf(EmptyNode, "windows", c);
  }

  const Us1 := Node(map["release" := Inner(9, UsRelease)])
  const Us2 := Node(map["release" := Inner(9, UsRelease), "nightly" := Inner(1, JustWindows)])

  lemma UsStep1()
    ensures AddAll(EmptyNode, Prefixed("release", UsReleaseTails())) == Us1
  {
    UsReleaseBuilt();
    AddAllNew(EmptyNode, "release", UsReleaseTails(), Node(UsRelease));
  }

  lemma UsStep2()
    ensures AddAll(Us1, Prefixed("nightly", Copies(["windows"], 1))) == Us2
  {
    WindowsBuilt(1);
    AddAllNew(Us1, "nightly", Copies(["windows"], 1), Node(JustWindows));
  }

  lemma UsStep3()
    ensures AddAll(Us2, Prefixed("beta", Copies(["windows"], 1))) == Node(Us)
  {
    WindowsBuilt(1);
    AddAllNew(Us2, "beta", Copies(["windows"], 1), Node(JustWindows));
  }

  lemma UsBuilt()
    ensures AddAll(EmptyNode, UsTails()) == Node(Us)
  {
    UsStep1();
    UsStep2();
    UsStep3();
    Chain3(EmptyNode, Prefixed("release", UsReleaseTails()), Prefixed("nightly", Copies(["windows"], 1)),
           Prefixed("beta", Copies(["windows"], 1)), Us1, Us2, Node(Us));
  }

  const Ca1 := Node(map["release" := Inner(4, map["windows" := Leaf(4)])])

  lemma CaStep1()
    ensures AddAll(EmptyNode, Prefixed("release", Copies(["windows"], 4))) == Ca1
  {
    WindowsBuilt(4);
    AddAllNew(EmptyNode, "release", Copies(["windows"], 4), Node(map["windows" := Leaf(4)]));
  }

  lemma CaStep2()
    ensures AddAll(Ca1, Prefixed("nightly", Copies(["windows"], 1))) == Node(Ca)
  {
    WindowsBuilt(1);
    AddAllNew(Ca1, "nightly", Copies(["windows"], 1), Node(JustWindows));
  }

  lemma CaBuilt()
    ensures AddAll(EmptyNode, CaTails()) == Node(Ca)
  {
    CaStep1();
    CaStep2();
    Chain2(EmptyNode, Prefixed("release", Copies(["windows"], 4)), Prefixed("nightly", Copies(["windows"], 1)), Ca1, Node(Ca));
  }

  lemma MxBuilt()
    ensures AddAll(EmptyNode, MxTails()) == Node(Mx)
  {
    WindowsBuilt(1);
    AddAllNew(EmptyNode, "release", Copies(["windows"], 1), Node(JustWindows));
  }

  const Init1 := Node(map["US" := Inner(11, Us)])
  const Init2 := Node(map["US" := Inner(11, Us), "CA" := Inner(5, Ca)])

  lemma InitStep1()
    ensures AddAll(EmptyNode, Prefixed("US", UsTails())) == Init1
  {
    UsBuilt();
    AddAllNew(EmptyNode, "US", UsTails(), Node(Us));
  }

  lemma InitStep2()
    ensures AddAll(Init1, Prefixed("CA", CaTails())) == Init2
  {
    CaBuilt();
    AddAllNew(Init1, "CA", CaTails(), Node(Ca));
  }

  lemma InitStep3()
    ensures AddAll(Init2, Prefixed("MX", MxTails())) == InitTrie
  {
    MxBuilt();
    AddAllNew(Init2, "MX", MxTails(), Node(Mx));
  }

  lemma UsCaBuilt()
    ensures AddAll(EmptyNode, Prefixed("US", UsTails()) + Prefixed("CA", CaTails())) == Init2
  {
    InitStep1();
    InitStep2();
    Chain2(EmptyNode, Prefixed("US", UsTails()), Prefixed("CA", CaTails()), Init1, Init2);
  }

  lemma GroupedBuilt(records: seq<seq<string>>)
    requires records == Prefixed("US", UsTails()) + Prefixed("CA", CaTails()) + Prefixed("MX", MxTails())
    ensures AddAll(EmptyNode, records) == InitTrie
  {
    UsCaBuilt();
    InitStep3();
    Chain2(EmptyNode, Prefixed("US", UsTails()) + Prefixed("CA", CaTails()), Prefixed("MX", MxTails()), Init2, InitTrie);
  }

  /** `initSTAR` builds `InitTrie`. */
  lemma InitTrieBuilt()
    ensures AddAll(EmptyNode, InitRecords()) == InitTrie
  {
    Grouped();
    GroupedBuilt(InitRecords());
  }

  // ----- The diagnostics of TestNumLeafs -----

  /** A node whose entries all have no child is a single node with one leaf tag per entry. */
  lemma FlatCounts(n: Node)
    requires forall v | v in n.valueToInfo :: n.valueToInfo[v].next.None?
    ensures Nodes(n) == 1 && LeafTags(n) == |n.valueToInfo|
  {
    var cn := map v | v in n.valueToInfo :: ChildNodes(n, v);
    var cl := map v | v in n.valueToInfo :: ChildLeafTags(n, v);
    SumConst(cn, 0);
    SumConst(cl, 1);
    assert cl.Keys == n.valueToInfo.Keys;
  }

  /** The diagnostics of a node with one entry add up from its child. */
  lemma SingleCounts(n: Node, a: string, x: int, ca: Node)
    requires n == Node(map[a := NodeInfo(x, Some(ca))])
    ensures Nodes(n) == 1 + Nodes(ca) && LeafTags(n) == LeafTags(ca)
  {
    SumSingle(map v | v in n.valueToInfo :: ChildNodes(n, v), a);
    SumSingle(map v | v in n.valueToInfo :: ChildLeafTags(n, v), a);
  }

  /** The diagnostics of a node with two entries add up from its children. */
  lemma PairCounts(n: Node, a: string, b: string, x: int, y: int, ca: Node, cb: Node)
    requires n == Node(map[a := NodeInfo(x, Some(ca)), b := NodeInfo(y, Some(cb))]) && a != b
    ensures Nodes(n) == 1 + Nodes(ca) + Nodes(cb)
    ensures LeafTags(n) == LeafTags(ca) + LeafTags(cb)
  {
    SumPair(map v | v in n.valueToInfo :: ChildNodes(n, v), a, b);
    SumPair(map v | v in n.valueToInfo :: ChildLeafTags(n, v), a, b);
  }

  /** The entries of a node with three entries, each with a child. */
  lemma TripleChildren(n: Node, a: string, b: string, c: string, x: int, y: int, z: int, ca: Node, cb: Node, cc: Node)
    requires n == Node(map[a := NodeInfo(x, Some(ca)), b := NodeInfo(y, Some(cb)), c := NodeInfo(z, Some(cc))])
    requires a != b && a != c && b != c
    ensures n.valueToInfo.Keys == {a, b, c}
    ensures n.valueToInfo[a].next == Some(ca) && n.valueToInfo[b].next == Some(cb) && n.valueToInfo[c].next == Some(cc)
  {
  }

  /** The diagnostics of a node with three entries add up from its children. */
  lemma TripleCounts(n: Node, a: string, b: string, c: string, x: int, y: int, z: int, ca: Node, cb: Node, cc: Node)
    requires n == Node(map[a := NodeInfo(x, Some(ca)), b := NodeInfo(y, Some(cb)), c := NodeInfo(z, Some(cc))])
    requires a != b && a != c && b != c
    ensures Nodes(n) == 1 + Nodes(ca) + Nodes(cb) + Nodes(cc)
    ensures LeafTags(n) == LeafTags(ca) + LeafTags(cb) + LeafTags(cc)
  {
    TripleChildren(n, a, b, c, x, y, z, ca, cb, cc);
    var cn := map v | v in n.valueToInfo :: ChildNodes(n, v);
    var cl := map v | v in n.valueToInfo :: ChildLeafTags(n, v);
    assert cn[a] == Nodes(ca) && cn[b] == Nodes(cb) && cn[c] == Nodes(cc);
    assert cl[a] == LeafTags(ca) && cl[b] == LeafTags(cb) && cl[c] == LeafTags(cc);
    SumTriple(cn, a, b, c);
    SumTriple(cl, a, b, c);
  }

  /** A map literal with three distinct keys has three entries (the leaf count of `UsRelease` in `UsCounts`). */
  lemma ThreeEntries<V>(a: string, b: string, c: string, x: V, y: V, z: V)
    requires a != b && a != c && b != c
    ensures |map[a := x, b := y, c := z]| == 3
  {
  }

  lemma UsCounts()
    ensures Nodes(Node(Us)) == 4 && LeafTags(Node(Us)) == 5
  {
    FlatCounts(Node(UsRelease));
    ThreeEntries("windows", "linux", "macos", Leaf(6), Leaf(2), Leaf(1));
    FlatCounts(Node(JustWindows));
    TripleCounts(Node(Us), "release", "nightly", "beta", 9, 1, 1, Node(UsRelease), Node(JustWindows), Node(JustWindows));
  }

  lemma CaCounts()
    ensures Nodes(Node(Ca)) == 3 && LeafTags(Node(Ca)) == 2
  {
    FlatCounts(Node(map["windows" := Leaf(4)]));
    FlatCounts(Node(JustWindows));
    PairCounts(Node(Ca), "release", "nightly", 4, 1, Node(map["windows" := Leaf(4)]), Node(JustWindows));
  }

  lemma MxCounts()
    ensures Nodes(Node(Mx)) == 2 && LeafTags(Node(Mx)) == 1
  {
    FlatCounts(Node(JustWindows));
    SingleCounts(Node(Mx), "release", 1, Node(JustWindows));
  }

  /** The trie of the fixture has 10 nodes, 17 tags and 8 leaf tags, as TestNumLeafs expects. */
  lemma InitCounts()
    ensures Nodes(InitTrie) == 10 && LeafTags(InitTrie) == 8 && Tags(InitTrie) == 17
  {
    UsCounts();
    CaCounts();
    MxCounts();
    TripleCounts(InitTrie, "US", "CA", "MX", 11, 5, 1, Node(Us), Node(Ca), Node(Mx));
    TagsLeavesNodes(InitTrie);
  }

  // ----- The aggregation of TestRealSTAR: three attributes, threshold five -----

  /** Peels the first key off the key set of a two-entry node (used by `PairAggregate`). */
  lemma RemoveFirst<K>(a: K, b: K)
    requires a != b
    ensures {a, b} - {a} == {b}
  {
  }

  /** Peels the first key off the key set of a three-entry node (used by `TripleAggregate`). */
  lemma RemoveFirstOfThree<K>(a: K, b: K, c: K)
    requires a != b && a != c
    ensures {a, b, c} - {a} == {b, c}
  {
  }

  /** Aggregating a node with two entries merges their contributions. */
  lemma PairAggregate(variant: Variant, n: Node, a: string, b: string, ia: NodeInfo, ib: NodeInfo,
                      maxDepth: int, k: int, depth: int)
    requires n == Node(map[a := ia, b := ib]) && a != b
    ensures Aggregated(variant, n, maxDepth, k, depth)
         == Augmented(Contribution(variant, ia, maxDepth, k, depth), Contribution(variant, ib, maxDepth, k, depth))
  {
    var ca, cb := Contribution(variant, ia, maxDepth, k, depth), Contribution(variant, ib, maxDepth, k, depth);
    assert n.valueToInfo.Keys == {a, b};
    assert n.valueToInfo[a] == ia && n.valueToInfo[b] == ib;
    AggregatedOverRemove(variant, n, {b}, maxDepth, k, depth, b);
    assert {b} - {b} == {};
    assert AggregatedOver(variant, n, {}, maxDepth, k, depth) == Empty;
    AugmentedEmpty(cb);
    assert AggregatedOver(variant, n, {b}, maxDepth, k, depth) == cb;
    AggregatedOverRemove(variant, n, {a, b}, maxDepth, k, depth, a);
    RemoveFirst(a, b);
  }

  /** Aggregating a node with three entries merges their contributions. */
  lemma TripleAggregate(variant: Variant, n: Node, a: string, b: string, c: string, ia: NodeInfo, ib: NodeInfo, ic: NodeInfo,
                        maxDepth: int, k: int, depth: int)
    requires n == Node(map[a := ia, b := ib, c := ic]) && a != b && a != c && b != c
    ensures Aggregated(variant, n, maxDepth, k, depth)
         == Augmented(Contribution(variant, ia, maxDepth, k, depth),
                      Augmented(Contribution(variant, ib, maxDepth, k, depth), Contribution(variant, ic, maxDepth, k, depth)))
  {
    var ca, cb, cc := Contribution(variant, ia, maxDepth, k, depth), Contribution(variant, ib, maxDepth, k, depth),
                      Contribution(variant, ic, maxDepth, k, depth);
    assert n.valueToInfo.Keys == {a, b, c};
    assert n.valueToInfo[a] == ia && n.valueToInfo[b] == ib && n.valueToInfo[c] == ic;
    AggregatedOverRemove(variant, n, {c}, maxDepth, k, depth, c);
    assert {c} - {c} == {};
    assert AggregatedOver(variant, n, {}, maxDepth, k, depth) == Empty;
    AugmentedEmpty(cc);
    assert AggregatedOver(variant, n, {c}, maxDepth, k, depth) == cc;
    AggregatedOverRemove(variant, n, {b, c}, maxDepth, k, depth, b);
    RemoveFirst(b, c);
    assert AggregatedOver(variant, n, {b, c}, maxDepth, k, depth) == Augmented(cb, cc);
    AggregatedOverRemove(variant, n, {a, b, c}, maxDepth, k, depth, a);
    RemoveFirstOfThree(a, b, c);
  }

  /** `AddLen` as a map update, to compute the tags of the fixture's entries as map displays. */
  lemma AddLenUpdate(lens: map<int, int>, key: int, value: int)
    ensures AddLen(lens, key, value) == lens[key := Get(lens, key) + value]
  {
  }

  /** The tag of the full measurements at the last of three attributes, which only code/star_node.go records. */
  function FullTags(variant: Variant, num: int): map<int, int>
  {
    if variant == Code then map[3 := num] else map[]
  }

  /** An entry below the threshold contributes nothing. */
  lemma BelowThresholdEntry(variant: Variant, info: NodeInfo, maxDepth: int, k: int, depth: int)
    requires info.num < k
    ensures Contribution(variant, info, maxDepth, k, depth) == Empty
  {
  }

  /** Below ["US", "release"]: six full measurements, for "windows"; "linux" and "macos" stay below five. */
  lemma UsReleaseAggregate(variant: Variant)
    ensures Aggregated(variant, Node(UsRelease), 3, 5, 3) == Counts(6, 0, 0, FullTags(variant, 6))
  {
    TripleAggregate(variant, Node(UsRelease), "windows", "linux", "macos", Leaf(6), Leaf(2), Leaf(1), 3, 5, 3);
    AugmentedEmpty(Empty);
    AugmentedEmpty(Counts(6, 0, 0, FullTags(variant, 6)));
  }

  lemma UsEntries(variant: Variant)
    ensures Aggregated(variant, Node(Us), 3, 5, 2)
         == Augmented(Contribution(variant, Inner(9, UsRelease), 3, 5, 2),
                      Augmented(Contribution(variant, Inner(1, JustWindows), 3, 5, 2),
                                Contribution(variant, Inner(1, JustWindows), 3, 5, 2)))
  {
    TripleAggregate(variant, Node(Us), "release", "nightly", "beta", Inner(9, UsRelease), Inner(1, JustWindows),
                    Inner(1, JustWindows), 3, 5, 2);
  }

  /** ["US", "release"] unlocks three more measurements than the six below it: three of length two. */
  lemma UsReleaseEntry(variant: Variant)
    ensures Contribution(variant, Inner(9, UsRelease), 3, 5, 2) == Counts(6, 0, 3, FullTags(variant, 6)[2 := 3])
  {
    UsReleaseAggregate(variant);
    AddLenUpdate(FullTags(variant, 6), 2, 3);
  }

  /** Below ["US"]: "release" unlocks three more measurements, of length two. */
  lemma UsAggregate(variant: Variant)
    ensures Aggregated(variant, Node(Us), 3, 5, 2) == Counts(6, 0, 3, FullTags(variant, 6)[2 := 3])
  {
    UsEntries(variant);
    UsReleaseEntry(variant);
    BelowThresholdEntry(variant, Inner(1, JustWindows), 3, 5, 2);
    AugmentedEmpty(Empty);
    AugmentedEmpty(Counts(6, 0, 3, FullTags(variant, 6)[2 := 3]));
  }

  /** Below ["CA"]: nothing reaches five. */
  lemma CaAggregate(variant: Variant)
    ensures Aggregated(variant, Node(Ca), 3, 5, 2) == Empty
  {
    PairAggregate(variant, Node(Ca), "release", "nightly", Inner(4, map["windows" := Leaf(4)]), Inner(1, JustWindows), 3, 5, 2);
    AugmentedEmpty(Empty);
  }

  lemma InitEntries(variant: Variant)
    ensures Aggregated(variant, InitTrie, 3, 5, RootDepth)
         == Augmented(Contribution(variant, Inner(11, Us), 3, 5, RootDepth),
                      Augmented(Contribution(variant, Inner(5, Ca), 3, 5, RootDepth),
                                Contribution(variant, Inner(1, Mx), 3, 5, RootDepth)))
  {
    TripleAggregate(variant, InitTrie, "US", "CA", "MX", Inner(11, Us), Inner(5, Ca), Inner(1, Mx), 3, 5, RootDepth);
  }

  /** ["US"] unlocks two more measurements, of length one, and five partial ones in all. */
  lemma UsEntry(variant: Variant)
    ensures Contribution(variant, Inner(11, Us), 3, 5, RootDepth) == Counts(6, 5, 5, FullTags(variant, 6)[2 := 3][1 := 2])
  {
    UsAggregate(variant);
    AddLenUpdate(FullTags(variant, 6)[2 := 3], 1, 2);
  }

  /** ["CA"] reaches five only as a whole: five partial measurements of length one. */
  lemma CaEntry(variant: Variant)
    ensures Contribution(variant, Inner(5, Ca), 3, 5, RootDepth) == Counts(0, 5, 5, map[1 := 5])
  {
    CaAggregate(variant);
    AddLenUpdate(map[], 1, 5);
  }

  /** Adding the five of ["CA"] to the two measurements of length one of ["US"]. */
  lemma InitMerged(tags: map<int, int>)
    ensures Augmented(Counts(6, 5, 5, tags[1 := 2]), Augmented(Counts(0, 5, 5, map[1 := 5]), Empty))
         == Counts(6, 10, 10, tags[1 := 7])
  {
    AugmentedEmpty(Counts(0, 5, 5, map[1 := 5]));
    AddLenIsMerge(tags[1 := 2], 1, 5);
    AddLenUpdate(tags[1 := 2], 1, 5);
    Overwrite(tags, 1, 2, 7);
  }

  /**
   * The whole fixture: 6 full and 10 partial measurements, 7 of length one
   * and 3 of length two, and in code/star_node.go 6 tagged with length three.
   */
  lemma InitAggregate(variant: Variant)
    ensures Aggregated(variant, InitTrie, 3, 5, RootDepth) == Counts(6, 10, 10, FullTags(variant, 6)[2 := 3][1 := 7])
  {
    InitEntries(variant);
    UsEntry(variant);
    CaEntry(variant);
    BelowThresholdEntry(variant, Inner(1, Mx), 3, 5, RootDepth);
    InitMerged(FullTags(variant, 6)[2 := 3]);
  }

  // ----- The same measurements with threshold seven -----

  /** Below ["US", "release"] nothing reaches seven. */
  lemma UsReleaseAggregate7(variant: Variant)
    ensures Aggregated(variant, Node(UsRelease), 3, 7, 3) == Empty
  {
    TripleAggregate(variant, Node(UsRelease), "windows", "linux", "macos", Leaf(6), Leaf(2), Leaf(1), 3, 7, 3);
    AugmentedEmpty(Empty);
  }

  /** ["US", "release"] reaches seven on its own: nine measurements of length two. */
  lemma UsReleaseEntry7(variant: Variant)
    ensures Contribution(variant, Inner(9, UsRelease), 3, 7, 2) == Counts(0, 0, 9, map[2 := 9])
  {
    UsReleaseAggregate7(variant);
    AddLenUpdate(map[], 2, 9);
  }

  lemma UsEntries7(variant: Variant)
    ensures Aggregated(variant, Node(Us), 3, 7, 2)
         == Augmented(Contribution(variant, Inner(9, UsRelease), 3, 7, 2),
                      Augmented(Contribution(variant, Inner(1, JustWindows), 3, 7, 2),
                                Contribution(variant, Inner(1, JustWindows), 3, 7, 2)))
  {
    TripleAggregate(variant, Node(Us), "release", "nightly", "beta", Inner(9, UsRelease), Inner(1, JustWindows),
                    Inner(1, JustWindows), 3, 7, 2);
  }

  lemma UsAggregate7(variant: Variant)
    ensures Aggregated(variant, Node(Us), 3, 7, 2) == Counts(0, 0, 9, map[2 := 9])
  {
    UsEntries7(variant);
    UsReleaseEntry7(variant);
    BelowThresholdEntry(variant, Inner(1, JustWindows), 3, 7, 2);
    AugmentedEmpty(Empty);
    AugmentedEmpty(Counts(0, 0, 9, map[2 := 9]));
  }

  /** ["US"] unlocks two more, of length one: all eleven measurements are partial. */
  lemma UsEntry7(variant: Variant)
    ensures Contribution(variant, Inner(11, Us), 3, 7, RootDepth) == Counts(0, 11, 11, map[2 := 9][1 := 2])
  {
    UsAggregate7(variant);
    AddLenUpdate(map[2 := 9], 1, 2);
  }

  lemma InitEntries7(variant: Variant)
    ensures Aggregated(variant, InitTrie, 3, 7, RootDepth)
         == Augmented(Contribution(variant, Inner(11, Us), 3, 7, RootDepth),
                      Augmented(Contribution(variant, Inner(5, Ca), 3, 7, RootDepth),
                                Contribution(variant, Inner(1, Mx), 3, 7, RootDepth)))
  {
    TripleAggregate(variant, InitTrie, "US", "CA", "MX", Inner(11, Us), Inner(5, Ca), Inner(1, Mx), 3, 7, RootDepth);
  }

  /** With threshold seven only ["US"] qualifies, and none of its measurements is full. */
  lemma InitAggregate7(variant: Variant)
    ensures Aggregated(variant, InitTrie, 3, 7, RootDepth) == Counts(0, 11, 11, map[2 := 9][1 := 2])
  {
    InitEntries7(variant);
    UsEntry7(variant);
    BelowThresholdEntry(variant, Inner(5, Ca), 3, 7, RootDepth);
    BelowThresholdEntry(variant, Inner(1, Mx), 3, 7, RootDepth);
    AugmentedEmpty(Empty);
    AugmentedEmpty(Counts(0, 11, 11, map[2 := 9][1 := 2]));
  }

  /**
   * The partial count is not monotone in the threshold: raising it from five
   * to seven turns the six full measurements of ["US", "release", "windows"]
   * into partial ones, and the partial count rises from 10 to 11.
   */
  lemma PartialRisesWithThreshold(variant: Variant)
    ensures Aggregated(variant, InitTrie, 3, 5, RootDepth).partial == 10
    ensures Aggregated(variant, InitTrie, 3, 7, RootDepth).partial == 11
  {
    InitAggregate(variant);
    InitAggregate7(variant);
  }

  // ----- What the tests check -----

  /** Every measurement of the fixture has three attributes, so its trie is well formed and counts all 17. */
  lemma InitWellFormed()
    ensures WellFormed(InitTrie, 3) && Total(InitTrie) == 17
  {
    InitTrieBuilt();
    BuiltWellFormed(InitRecords(), InitTrie, 3);
  }

  /** A trie built from nothing by measurements of `len` attributes is well formed and counts them all. */
  lemma BuiltWellFormed(records: seq<seq<string>>, t: Node, len: int)
    requires len >= 1 && forall i | 0 <= i < |records| :: |records[i]| == len
    requires AddAll(EmptyNode, records) == t
    ensures WellFormed(t, len) && Total(t) == |records|
  {
    EmptyTotal();
    AddAllWellFormed(EmptyNode, records, len);
  }

  /** The length tags code/star_node.go computes for the fixture sum to 16. */
  lemma CodeTagsSum(lens: map<int, int>)
    requires lens == map[3 := 6, 2 := 3, 1 := 7]
    ensures Sum(lens) == 16
  {
    SumTriple(lens, 3, 2, 1);
  }

  /** The length tags star_node.go computes for the fixture sum to 10. */
  lemma RootTagsSum(lens: map<int, int>)
    requires lens == map[2 := 3, 1 := 7]
    ensures Sum(lens) == 10
  {
    SumPair(lens, 2, 1);
  }

  /**
   * code/star.go on the fixture: the counts are the ones TestRealSTAR
   * expects, but the tag of length three makes them sum to 16, not 10, so
   * `AddsUp` fails and `Aggregate` stops; the corrected checks pass.
   */
  lemma CodeFixture()
    ensures var c := Aggregated(Code, InitTrie, 3, 5, RootDepth);
      && c == Counts(6, 10, 10, map[3 := 6, 2 := 3, 1 := 7])
      && !PartialsAddUp(c)
      && !Incomplete(InitTrie, 3, 5, RootDepth)
      && Checked(c, 3) == Err(PartialsDontAddUp)
      && CheckedCorrected(c, 3) == Ok(c)
  {
    InitAggregate(Code);
    CodeTagsSum(map[3 := 6, 2 := 3, 1 := 7]);
    InitWellFormed();
    WellFormedComplete(InitTrie, 3, 5, RootDepth);
    CorrectedAccepts(InitTrie, 3, 5);
  }

  /** `CodeFixture` at the depth of a root reached by an empty path. */
  lemma CodeFixtureAt(depth: int)
    requires depth == RootDepth
    ensures var c := Aggregated(Code, InitTrie, 3, 5, depth);
      c == Counts(6, 10, 10, map[3 := 6, 2 := 3, 1 := 7]) && !PartialsAddUp(c) && !Incomplete(InitTrie, 3, 5, depth)
  {
    CodeFixture();
  }

  /** star.go on the fixture: the same counts without the tag of length three, and they add up. */
  lemma RootFixture()
    ensures var c := Aggregated(Root, InitTrie, 3, 5, RootDepth);
      c == Counts(6, 10, 10, map[2 := 3, 1 := 7]) && PartialsAddUp(c)
  {
    InitAggregate(Root);
    RootTagsSum(map[2 := 3, 1 := 7]);
  }

  /**
   * `initSTAR` of code/star_test.go: the 17 measurements go straight to the
   * root's `Add`, bypassing `AddRecords`, so the simulator's measurement
   * count stays zero.
   */
  method InitStar() returns (star: CodeStar.NestedStar)
    ensures star.root == InitTrie && star.numMeasurements == 0
  {
    star := new CodeStar.NestedStar();
    var records := InitRecords();
    var i := 0;
    while i < |records|
      invariant 0 <= i <= |records|
      invariant star.root == AddAll(EmptyNode, records[..i]) && star.numMeasurements == 0
    {
      AddAllStep(EmptyNode, records, i);
      star.root := Add(star.root, records[i]);
      i := i + 1;
    }
    assert records[..|records|] == records;
    InitTrieBuilt();
  }

  /**
   * TestRealSTAR of code/star_test.go on the modelled code: the full and
   * partial counts and the length tags are the expected ones, and the check
   * `AddsUp` it runs first fails.
   */
  method RealStar() returns (addsUp: bool, state: Counts)
    ensures !addsUp && state == Counts(6, 10, 10, map[3 := 6, 2 := 3, 1 := 7])
  {
    var star := InitStar();
    var root := star.root;
    var path: seq<string> := [];
    CodeFixtureAt(|path| + 1);
    var walked := NodeAggregate.Aggregate(Code, root, 3, 5, path);
    var s := walked.value;
    state := s.Value();
    addsUp := s.AddsUp();
  }

  /** TestNumLeafs of code/star_test.go: 10 nodes, 17 tags, 8 leaf tags. */
  method NumLeafs() returns (nodes: int, tags: int, leaves: int)
    ensures nodes == 10 && tags == 17 && leaves == 8
  {
    var star := InitStar();
    InitCounts();
    nodes := star.NumNodes();
    tags := star.NumTags();
    leaves := star.NumLeafTags();
  }

  /** The fixture through `Aggregate` of code/star.go, as written and corrected. */
  method CodeAggregates() returns (asWritten: Result<Counts, Failure>, corrected: Result<Counts, Failure>)
    ensures asWritten == Err(PartialsDontAddUp)
    ensures corrected == Ok(Counts(6, 10, 10, map[3 := 6, 2 := 3, 1 := 7]))
  {
    var star := InitStar();
    CodeFixture();
    asWritten := star.Aggregate(3, 5);
    corrected := star.AggregateCorrected(3, 5);
  }

  /** The fixture through `Aggregate` of star.go, with threshold five fixed at construction. */
  method RootAggregates() returns (r: Result<Counts, Failure>)
    ensures r == Ok(Counts(6, 10, 10, map[2 := 3, 1 := 7]))
  {
    var star := new RootStar.NestedStar(5);
    star.AddReports(InitRecords());
    InitTrieBuilt();
    RootFixture();
    r := star.Aggregate(3);
  }
}
