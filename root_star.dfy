/**
 * The simulator of star.go: the same trie, with the threshold `k` fixed when
 * the simulator is made, and the version of the aggregation in star_node.go,
 * whose self-check `AddsUp` always passes (`RootAddsUp`).
 */
module RootStar {
  import opened Wrappers
  import opened Aggregation
  import opened StarNode
  import opened NodeAggregate
  import opened Accounting

  /** The simulator: the trie of all reports added so far, the threshold and the number of reports. */
  class NestedStar {
    var root: Node
    var k: int
    var numMeasurements: int

    /** `NewNestedSTAR(k)`. */
    constructor (k: int)
      ensures root == EmptyNode && this.k == k && numMeasurements == 0
    {
      root := EmptyNode;
      this.k := k;
      numMeasurements := 0;
    }

    /** `AddReports`: each report is given already prepared as its ordered attribute values. */
    method AddReports(reports: seq<seq<string>>)
      requires forall i | 0 <= i < |reports| :: |reports[i]| > 0
      modifies this
      ensures numMeasurements == old(numMeasurements) + |reports|
      ensures root == AddAll(old(root), reports) && k == old(k)
    {
      numMeasurements := numMeasurements + |reports|;
      var trie := root;
      ghost var start := trie;
      var i := 0;
      while i < |reports|
        invariant 0 <= i <= |reports|
        invariant trie == AddAll(start, reports[..i])
        modifies {}
      {
        AddAllStep(start, reports, i);
        trie := Add(trie, reports[i]);
        i := i + 1;
      }
      assert reports[..|reports|] == reports;
      root := trie;
    }

    method NumTags() returns (num: int)
      ensures num == Tags(root)
    {
      num := StarNode.NumTags(root);
    }

    method NumLeafTags() returns (num: int)
      ensures num == LeafTags(root)
    {
      num := StarNode.NumLeafTags(root);
    }

    method NumNodes() returns (num: int)
      ensures num == Nodes(root)
    {
      num := StarNode.NumNodes(root);
    }

    /**
     * `Aggregate`: walks the trie with the simulator's threshold and runs the
     * self-check, which never stops the program; the state it would print is
     * returned instead.
     */
    method Aggregate(numAttrs: int) returns (r: Result<Counts, Failure>)
      ensures r == Ok(Aggregated(Root, root, numAttrs, k, RootDepth))
    {
      var walked := NodeAggregate.Aggregate(Root, root, numAttrs, k, []);
      var state := walked.value;
      RootAddsUp(root, numAttrs, k);
      var addsUp := state.AddsUp();
      if !addsUp {
        return Err(PartialsDontAddUp);
      }
      return Ok(state.Value());
    }
  }
}
