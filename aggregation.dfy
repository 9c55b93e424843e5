/**
 * The aggregation state of Nested STAR: the counters one `Aggregate` call
 * returns and merges into its caller's (code/star.go and star.go hold the same
 * state under the names `aggregationState` and `AggregationState`).
 *
 * `Counts` is the value of a state; `AggregationState` is the mutable object
 * the program passes around, whose methods are proved against the value-level
 * functions `AddLen` and `Augmented`.
 */
module Aggregation {
  import opened Sums

  /**
   * The four counters: fully unlocked measurements, partially unlocked ones
   * (set at the root only), measurements already attributed to some length,
   * and, per number of unlocked attributes, how many measurements stop there.
   */
  datatype Counts = Counts(full: int, partial: int, alreadyCounted: int, lenPartial: map<int, int>)

  /** The value of a new state: all counters zero and no lengths. */
  const Empty := Counts(0, 0, 0, map[])

  /** Adding `value` to the entry for `key`; a missing entry counts as zero and is created. */
  function AddLen(lens: map<int, int>, key: int, value: int): (r: map<int, int>)
    ensures r.Keys == lens.Keys + {key}
    ensures r[key] == Get(lens, key) + value
    ensures forall x | x in lens && x != key :: r[x] == lens[x]
  {
    lens[key := Get(lens, key) + value]
  }

  /** The value of `c` after it has been augmented by `d`. */
  function Augmented(c: Counts, d: Counts): Counts
  {
    Counts(c.full + d.full, c.partial + d.partial, c.alreadyCounted + d.alreadyCounted,
           Merge(c.lenPartial, d.lenPartial))
  }

  /** The self-check of `AddsUp`: the per-length counts sum to the partial count. */
  ghost predicate PartialsAddUp(c: Counts)
  {
    c.partial == Sum(c.lenPartial)
  }

  /** Adding to one length adds to the sum of all lengths. */
  lemma AddLenSum(lens: map<int, int>, key: int, value: int)
    ensures Sum(AddLen(lens, key, value)) == Sum(lens) + value
  {
    SumUpdate(lens, key, Get(lens, key) + value);
  }

  /** The empty state is a neutral element of `Augmented`. */
  lemma AugmentedEmpty(c: Counts)
    ensures Augmented(Empty, c) == c
    ensures Augmented(c, Empty) == c
  {
    assert Merge(map[], c.lenPartial) == c.lenPartial;
    assert Merge(c.lenPartial, map[]) == c.lenPartial;
  }

  /** The order in which two states are merged does not matter. */
  lemma AugmentedCommutes(c: Counts, d: Counts)
    ensures Augmented(c, d) == Augmented(d, c)
  {
    assert Merge(c.lenPartial, d.lenPartial) == Merge(d.lenPartial, c.lenPartial);
  }

  /** Nor does the grouping of three merges. */
  lemma AugmentedAssociates(b: Counts, c: Counts, d: Counts)
    ensures Augmented(Augmented(b, c), d) == Augmented(b, Augmented(c, d))
  {
    var l := Augmented(Augmented(b, c), d).lenPartial;
    var r := Augmented(b, Augmented(c, d)).lenPartial;
    assert l.Keys == r.Keys;
    forall x | x in l ensures l[x] == r[x] {
      assert Get(l, x) == Get(r, x);
    }
  }

  /** The per-length counts of a merge sum to the sums of both parts. */
  lemma AugmentedSum(c: Counts, d: Counts)
    ensures Sum(Augmented(c, d).lenPartial) == Sum(c.lenPartial) + Sum(d.lenPartial)
  {
    SumMerge(c.lenPartial, d.lenPartial);
  }

  /** Moving one key of `rest` into the accumulated map, as each round of `Augment`'s loop does. */
  lemma MergeShift(acc: map<int, int>, rest: map<int, int>, key: int)
    requires key in rest
    ensures Merge(AddLen(acc, key, rest[key]), rest - {key}) == Merge(acc, rest)
  {
    var l := Merge(AddLen(acc, key, rest[key]), rest - {key});
    var r := Merge(acc, rest);
    assert l.Keys == r.Keys;
    forall x | x in l ensures l[x] == r[x] {
      assert Get(l, x) == Get(r, x);
    }
  }

  /** Tagging one length is merging in a single-entry map. */
  lemma AddLenIsMerge(lens: map<int, int>, key: int, value: int)
    ensures AddLen(lens, key, value) == Merge(lens, map[key := value])
  {
    var l, r := AddLen(lens, key, value), Merge(lens, map[key := value]);
    assert l.Keys == r.Keys;
    forall x | x in l ensures l[x] == r[x] {
    }
  }

  /** Tagging a length after a merge is the same as tagging it in the merged-in part. */
  lemma AddLenAfterMerge(lens: map<int, int>, other: map<int, int>, key: int, value: int)
    ensures AddLen(Merge(lens, other), key, value) == Merge(lens, AddLen(other, key, value))
  {
    var l, r := AddLen(Merge(lens, other), key, value), Merge(lens, AddLen(other, key, value));
    assert l.Keys == r.Keys;
    forall x | x in l ensures l[x] == r[x] {
    }
  }

  /**
   * The mutable state; `Value` is what it holds.  The methods below carry the
   * names and the bodies of the Go methods.
   */
  class AggregationState {
    var fullMsmts: int
    var partialMsmts: int
    var alreadyCounted: int
    var lenPartialMsmts: map<int, int>

    function Value(): Counts
      reads this
    {
      Counts(fullMsmts, partialMsmts, alreadyCounted, lenPartialMsmts)
    }

    /** `NewAggregationState`. */
    constructor ()
      ensures Value() == Empty
    {
      fullMsmts, partialMsmts, alreadyCounted := 0, 0, 0;
      lenPartialMsmts := map[];
    }

    method AddLenTags(key: int, value: int)
      modifies this
      ensures lenPartialMsmts == AddLen(old(lenPartialMsmts), key, value)
      ensures fullMsmts == old(fullMsmts) && partialMsmts == old(partialMsmts)
      ensures alreadyCounted == old(alreadyCounted)
    {
      if key !in lenPartialMsmts {
        lenPartialMsmts := lenPartialMsmts[key := value];
      } else {
        var num := lenPartialMsmts[key];
        lenPartialMsmts := lenPartialMsmts[key := num + value];
      }
    }

    /** Adds `s2` into this state; `s2` may be this very state, which then doubles. */
    method Augment(s2: AggregationState)
      modifies this
      ensures Value() == Augmented(old(Value()), old(s2.Value()))
    {
      fullMsmts := fullMsmts + s2.fullMsmts;
      partialMsmts := partialMsmts + s2.partialMsmts;
      alreadyCounted := alreadyCounted + s2.alreadyCounted;
      ghost var target := Merge(lenPartialMsmts, s2.lenPartialMsmts);
      var rest := s2.lenPartialMsmts;
      while rest.Keys != {}
        invariant Merge(lenPartialMsmts, rest) == target
        invariant fullMsmts == old(fullMsmts) + old(s2.fullMsmts)
        invariant partialMsmts == old(partialMsmts) + old(s2.partialMsmts)
        invariant alreadyCounted == old(alreadyCounted) + old(s2.alreadyCounted)
        decreases |rest.Keys|
      {
        ghost var someKey := Pick(rest.Keys);
        var key :| key in rest.Keys;
        var value := rest[key];
        ghost var acc := lenPartialMsmts;
        AddLenTags(key, value);
        MergeShift(acc, rest, key);
        RemoveOne(rest.Keys, key);
        rest := rest - {key};
      }
      assert Merge(lenPartialMsmts, map[]) == lenPartialMsmts;
    }

    /** Whether the per-length counts sum to the partial count. */
    method AddsUp() returns (b: bool)
      ensures b == PartialsAddUp(Value())
    {
      var totalPartial := 0;
      var rest := lenPartialMsmts;
      while rest.Keys != {}
        invariant totalPartial + Sum(rest) == Sum(lenPartialMsmts)
        decreases |rest|
      {
        ghost var someKey := Pick(rest.Keys);
        var key :| key in rest.Keys;
        SumRemove(rest, key);
        totalPartial := totalPartial + rest[key];
        rest := rest - {key};
      }
      b := partialMsmts == totalPartial;
    }
  }

  /**
   * The unit test of code/star_test.go: `{0: 10, 1: 5}` augmented by `{1: 15}`
   * gives `{0: 10, 1: 20}`.
   */
  method AugmentExample() returns (s1: AggregationState)
    ensures s1.lenPartialMsmts == map[0 := 10, 1 := 20]
  {
    s1 := new AggregationState();
    var s2 := new AggregationState();
    s1.AddLenTags(0, 10);
    s1.AddLenTags(1, 5);
    s2.AddLenTags(1, 15);
    s1.Augment(s2);
    assert s1.lenPartialMsmts.Keys == {0, 1};
  }
}
