/**
 * The simulator of code/star.go: a trie of measurements, the threshold
 * aggregation over it and the self-checks that stop the program when the
 * counters are inconsistent.
 *
 * `Aggregate` is the program as written.  Because code/star_node.go also tags
 * the fully unlocked measurements with length `numAttrs`, its check `AddsUp`
 * fails on every trie where some measurement is fully unlocked
 * (`AsWrittenRejectsFull`).  `AggregateCorrected` runs both checks on the
 * lengths 1 to numAttrs - 1 only, the partial lengths the printing loop of
 * code/star.go walks, and never stops on a trie of complete measurements
 * (`CorrectedAccepts`).
 */
module CodeStar {
  import opened Wrappers
  import opened Sums
  import opened Aggregation
  import opened StarNode
  import opened NodeAggregate
  import opened Accounting

  /** The length tags below `bound`: those of partially unlocked measurements. */
  function PartialLengths(lens: map<int, int>, bound: int): (r: map<int, int>)
    ensures r.Keys == set x | x in lens && x < bound
    ensures forall x | x in r :: r[x] == lens[x]
  {
    Restrict(lens, set x | x in lens && x < bound)
  }

  /** What `Aggregate` of code/star.go does with a state `c` once the trie was walked. */
  ghost function Checked(c: Counts, numAttrs: int): Result<Counts, Failure>
  {
    if !PartialsAddUp(c) then Err(PartialsDontAddUp)
    else if |c.lenPartial| >= numAttrs then Err(TooManyLengths(numAttrs, |c.lenPartial|))
    else Ok(c)
  }

  /** The same checks applied to the partial lengths only. */
  ghost function CheckedCorrected(c: Counts, numAttrs: int): Result<Counts, Failure>
  {
    var partial := PartialLengths(c.lenPartial, numAttrs);
    if c.partial != Sum(partial) then Err(PartialsDontAddUp)
    else if |partial| >= numAttrs then Err(TooManyLengths(numAttrs, |partial|))
    else Ok(c)
  }

  /** `sumValues`: the sum of the values of a map. */
  method SumValues(m: map<int, int>) returns (total: int)
    ensures total == Sum(m)
  {
    total := 0;
    var rest := m;
    while rest.Keys != {}
      invariant total + Sum(rest) == Sum(m)
      decreases |rest|
    {
      ghost var someKey := Pick(rest.Keys);
      var key :| key in rest.Keys;
      SumRemove(rest, key);
      total := total + rest[key];
      rest := rest - {key};
    }
  }

  /**
   * As written: on a trie of complete measurements, as soon as one
   * measurement is fully unlocked the self-check `AddsUp` stops the program.
   */
  lemma AsWrittenRejectsFull(n: Node, numAttrs: int, k: int)
    requires numAttrs >= RootDepth && WellFormed(n, numAttrs)
    requires Aggregated(Code, n, numAttrs, k, RootDepth).full > 0
    ensures !Incomplete(n, numAttrs, k, RootDepth)
    ensures Checked(Aggregated(Code, n, numAttrs, k, RootDepth), numAttrs) == Err(PartialsDontAddUp)
  {
    WellFormedComplete(n, numAttrs, k, RootDepth);
    CodeAddsUpIffNoneFull(n, numAttrs, k);
  }

  /**
   * Corrected: the partial lengths add up to the partial count and there are
   * fewer of them than attributes, whatever the trie.
   */
  lemma CorrectedAccepts(n: Node, numAttrs: int, k: int)
    requires numAttrs >= RootDepth
    ensures var c := Aggregated(Code, n, numAttrs, k, RootDepth);
      CheckedCorrected(c, numAttrs) == Ok(c)
  {
    var c := Aggregated(Code, n, numAttrs, k, RootDepth);
    AggregatedShape(Code, n, numAttrs, k, RootDepth);
    PartialsSum(c, numAttrs);
    FewPartialLengths(c, numAttrs);
  }

  /** In a root state the partial lengths add up to the partial count. */
  lemma PartialsSum(c: Counts, numAttrs: int)
    requires numAttrs >= RootDepth && Shape(Code, c, RootDepth, numAttrs)
    ensures c.partial == Sum(PartialLengths(c.lenPartial, numAttrs))
  {
    var lens := c.lenPartial;
    SumSplit(lens, numAttrs);
    SumSingle(Restrict(lens, set x | x in lens && x >= numAttrs), numAttrs);
  }

  /** In a root state there are fewer partial lengths than attributes. */
  lemma FewPartialLengths(c: Counts, numAttrs: int)
    requires numAttrs >= RootDepth && Shape(Code, c, RootDepth, numAttrs)
    ensures |PartialLengths(c.lenPartial, numAttrs)| < numAttrs
  {
    RangeSize(PartialLengths(c.lenPartial, numAttrs).Keys, 1, numAttrs - 1);
  }

  /** The simulator: the trie of all measurements added so far, and their number. */
  class NestedStar {
    var root: Node
    var numMeasurements: int

    /** `NewNestedSTAR`. */
    constructor ()
      ensures root == EmptyNode && numMeasurements == 0
    {
      root := EmptyNode;
      numMeasurements := 0;
    }

    /** `AddRecords`: each record is given already prepared as its ordered attribute values. */
    method AddRecords(records: seq<seq<string>>)
      requires forall i | 0 <= i < |records| :: |records[i]| > 0
      modifies this
      ensures numMeasurements == old(numMeasurements) + |records|
      ensures root == AddAll(old(root), records)
    {
      numMeasurements := numMeasurements + |records|;
      var trie := root;
      ghost var start := trie;
      var i := 0;
      while i < |records|
        invariant 0 <= i <= |records|
        invariant trie == AddAll(start, records[..i])
        modifies {}
      {
        AddAllStep(start, records, i);
        trie := Add(trie, records[i]);
        i := i + 1;
      }
      assert records[..|records|] == records;
      root := trie;
    }

    method NumTags() returns (num: int)
      ensures num == Tags(root)
    {
      num := StarNode.NumTags(root);
    }

    method NumLeafTags() returns (num: int)
      ensures num == LeafTags(root)
    {
      num := StarNode.NumLeafTags(root);
    }

    method NumNodes() returns (num: int)
      ensures num == Nodes(root)
    {
      num := StarNode.NumNodes(root);
    }

    /**
     * `Aggregate`: walks the trie and runs the two self-checks; the state it
     * would print is returned instead.
     */
    method Aggregate(numAttrs: int, k: int) returns (r: Result<Counts, Failure>)
      ensures Incomplete(root, numAttrs, k, RootDepth) ==> r.Err? && r.error.IncompleteMeasurement?
      ensures !Incomplete(root, numAttrs, k, RootDepth) ==>
        r == Checked(Aggregated(Code, root, numAttrs, k, RootDepth), numAttrs)
    {
      var walked := NodeAggregate.Aggregate(Code, root, numAttrs, k, []);
      if walked.Err? {
        return Err(walked.error);
      }
      var state := walked.value;
      var addsUp := state.AddsUp();
      if !addsUp {
        return Err(PartialsDontAddUp);
      }
      if |state.lenPartialMsmts| >= numAttrs {
        return Err(TooManyLengths(numAttrs, |state.lenPartialMsmts|));
      }
      return Ok(state.Value());
    }

    /**
     * `Aggregate` with both self-checks restricted to the partial lengths; on
     * a trie of complete measurements it always returns the aggregated state.
     */
    method AggregateCorrected(numAttrs: int, k: int) returns (r: Result<Counts, Failure>)
      ensures Incomplete(root, numAttrs, k, RootDepth) ==> r.Err? && r.error.IncompleteMeasurement?
      ensures !Incomplete(root, numAttrs, k, RootDepth) ==>
        r == CheckedCorrected(Aggregated(Code, root, numAttrs, k, RootDepth), numAttrs)
      ensures numAttrs >= RootDepth && WellFormed(root, numAttrs) ==>
        r == Ok(Aggregated(Code, root, numAttrs, k, RootDepth))
    {
      if numAttrs >= RootDepth && WellFormed(root, numAttrs) {
        WellFormedComplete(root, numAttrs, k, RootDepth);
        CorrectedAccepts(root, numAttrs, k);
      }
      var walked := NodeAggregate.Aggregate(Code, root, numAttrs, k, []);
      if walked.Err? {
        return Err(walked.error);
      }
      var state := walked.value;
      var partial := PartialLengths(state.lenPartialMsmts, numAttrs);
      var totalPartial := SumValues(partial);
      if state.partialMsmts != totalPartial {
        return Err(PartialsDontAddUp);
      }
      if |partial| >= numAttrs {
        return Err(TooManyLengths(numAttrs, |partial|));
      }
      return Ok(state.Value());
    }
  }
}
