/**
 * The threshold aggregation over the trie (`Aggregate` in code/star_node.go
 * and star_node.go).  The two files hold two versions of the same algorithm;
 * `Variant` selects one.
 *
 * Walking a node at depth `d` (the root is at depth 1), an entry whose count
 * is below the threshold `k` contributes nothing.  At the last depth its
 * measurements count as full.  Otherwise the child is aggregated, and the
 * measurements of the entry that did not unlock anything deeper are tagged as
 * unlocking exactly `d` attributes; at the root, every measurement of a
 * qualifying entry that did not unlock fully counts as partial.
 *
 * `Aggregated` states this recursively as a merge of one state per entry
 * (`Contribution`), independent of the order in which Go visits the entries;
 * the method `Aggregate` is the loop of the source, proved to compute it.
 */
module NodeAggregate {
  import opened Wrappers
  import opened Sums
  import opened Aggregation
  import opened StarNode

  /** The two versions of the algorithm. */
  datatype Variant =
    | Code  // code/star_node.go: full measurements are also tagged with length maxDepth; a missing child is fatal
    | Root  // star_node.go: full measurements get no length tag; a missing child is logged and skipped

  /** Why aggregation stops the program (Go's `Fatal`/`Fatalf`). */
  datatype Failure =
    | IncompleteMeasurement(path: seq<string>)  // a qualifying entry above the last depth has no child
    | PartialsDontAddUp                         // the self-check `AddsUp` failed
    | TooManyLengths(expected: int, got: int)   // more length tags than attributes allow

  /**
   * The counts that an entry of `num` measurements at depth `depth` adds when
   * its child aggregated to `sub`: the child's counts, plus the measurements
   * that unlocked this value and nothing below, tagged with length `depth`.
   */
  function Unlocked(sub: Counts, num: int, depth: int): Counts
  {
    var newly := num - sub.full - sub.alreadyCounted;
    Counts(sub.full,
           sub.partial + (if depth == RootDepth then num - sub.full else 0),
           sub.alreadyCounted + newly,
           AddLen(sub.lenPartial, depth, newly))
  }

  /** The counts that an entry, at depth `depth`, adds to the state of its node. */
  ghost function Contribution(variant: Variant, info: NodeInfo, maxDepth: int, k: int, depth: int): Counts
    decreases info, 0, 0
  {
    if info.num < k then Empty
    else if depth == maxDepth then
      Counts(info.num, 0, 0, if variant == Code then map[depth := info.num] else map[])
    else if info.next.None? then Empty
    else Unlocked(Aggregated(variant, info.next.value, maxDepth, k, depth + 1), info.num, depth)
  }

  /** The merged contributions of the entries of `n` whose values lie in `keys`. */
  ghost function AggregatedOver(variant: Variant, n: Node, keys: set<string>, maxDepth: int, k: int, depth: int): Counts
    requires keys <= n.valueToInfo.Keys
    decreases n, 1, |keys|
  {
    if keys == {} then Empty
    else
      var v := Pick(keys);
      assert |keys - {v}| == |keys| - 1;
      Augmented(Contribution(variant, n.valueToInfo[v], maxDepth, k, depth),
                AggregatedOver(variant, n, keys - {v}, maxDepth, k, depth))
  }

  /** The state that aggregating node `n` at depth `depth` returns when it does not stop. */
  ghost function Aggregated(variant: Variant, n: Node, maxDepth: int, k: int, depth: int): Counts
    decreases n, 2, 0
  {
    AggregatedOver(variant, n, n.valueToInfo.Keys, maxDepth, k, depth)
  }

  /** Order independence: the entry of any value may be merged first. */
  lemma {:induction false} AggregatedOverRemove(variant: Variant, n: Node, keys: set<string>, maxDepth: int, k: int, depth: int, y: string)
    requires keys <= n.valueToInfo.Keys && y in keys
    ensures AggregatedOver(variant, n, keys, maxDepth, k, depth)
         == Augmented(Contribution(variant, n.valueToInfo[y], maxDepth, k, depth),
                      AggregatedOver(variant, n, keys - {y}, maxDepth, k, depth))
    decreases |keys|
  {
    var x := Pick(keys);
    if x != y {
      assert |keys - {x}| == |keys| - 1;
      var rest := (keys - {x}) - {y};
      assert rest == (keys - {y}) - {x};
      var cx := Contribution(variant, n.valueToInfo[x], maxDepth, k, depth);
      var cy := Contribution(variant, n.valueToInfo[y], maxDepth, k, depth);
      var r := AggregatedOver(variant, n, rest, maxDepth, k, depth);
      AggregatedOverRemove(variant, n, keys - {x}, maxDepth, k, depth, y);
      AggregatedOverRemove(variant, n, keys - {y}, maxDepth, k, depth, x);
      AugmentedAssociates(cx, cy, r);
      AugmentedAssociates(cy, cx, r);
      AugmentedCommutes(cx, cy);
    }
  }

  /**
   * One round of `Aggregate`'s loop: merging the contribution of `y` into `s`
   * and dropping `y` from the values still to visit keeps the total.
   */
  lemma AggregatedOverShift(variant: Variant, n: Node, keys: set<string>, maxDepth: int, k: int, depth: int, y: string, s: Counts)
    requires keys <= n.valueToInfo.Keys && y in keys
    ensures Augmented(Augmented(s, Contribution(variant, n.valueToInfo[y], maxDepth, k, depth)),
                      AggregatedOver(variant, n, keys - {y}, maxDepth, k, depth))
         == Augmented(s, AggregatedOver(variant, n, keys, maxDepth, k, depth))
  {
    AggregatedOverRemove(variant, n, keys, maxDepth, k, depth, y);
    AugmentedAssociates(s, Contribution(variant, n.valueToInfo[y], maxDepth, k, depth),
                        AggregatedOver(variant, n, keys - {y}, maxDepth, k, depth));
  }

  /**
   * Some qualifying entry reached from `n` through qualifying entries lies
   * above the last depth and has no child (the fatal case of code/star_node.go).
   */
  ghost predicate Incomplete(n: Node, maxDepth: int, k: int, depth: int)
    decreases n, 1
  {
    exists v | v in n.valueToInfo :: IncompleteEntry(n.valueToInfo[v], maxDepth, k, depth)
  }

  ghost predicate IncompleteEntry(info: NodeInfo, maxDepth: int, k: int, depth: int)
    decreases info, 0
  {
    info.num >= k && depth != maxDepth &&
    (info.next.None? || Incomplete(info.next.value, maxDepth, k, depth + 1))
  }

  /**
   * The state changes of the recursive branch: merge the child's state, tag
   * the newly unlocked measurements with the current depth, count them, and
   * at the root add the partial ones.
   */
  method Unlock(state: AggregationState, subState: AggregationState, num: int, depth: int)
    requires state != subState
    modifies state
    ensures state.Value() == Augmented(old(state.Value()), Unlocked(subState.Value(), num, depth))
  {
    ghost var before, sub := state.Value(), subState.Value();
    state.Augment(subState);
    var numNewlyUnlocked := num - subState.fullMsmts - subState.alreadyCounted;
    state.AddLenTags(depth, numNewlyUnlocked);
    state.alreadyCounted := state.alreadyCounted + numNewlyUnlocked;
    if depth == RootDepth {
      state.partialMsmts := state.partialMsmts + num - subState.fullMsmts;
    }
    AddLenAfterMerge(before.lenPartial, sub.lenPartial, depth, numNewlyUnlocked);
    ghost var unlocked := Unlocked(sub, num, depth);
    assert state.fullMsmts == before.full + unlocked.full;
    assert state.partialMsmts == before.partial + unlocked.partial;
    assert state.alreadyCounted == before.alreadyCounted + unlocked.alreadyCounted;
    assert state.lenPartialMsmts == Merge(before.lenPartial, unlocked.lenPartial);
  }

  /**
   * Aggregates node `n`, reached by the path `m` of attribute values.  In the
   * `Code` version an incomplete measurement stops everything; otherwise the
   * result is a new state holding `Aggregated`.
   */
  method Aggregate(variant: Variant, n: Node, maxDepth: int, k: int, m: seq<string>)
    returns (r: Result<AggregationState, Failure>)
    ensures r.Err? <==> variant == Code && Incomplete(n, maxDepth, k, |m| + 1)
    ensures r.Err? ==> r.error.IncompleteMeasurement?
    ensures r.Ok? ==> fresh(r.value) && r.value.Value() == Aggregated(variant, n, maxDepth, k, |m| + 1)
    decreases n, 1
  {
    var state := new AggregationState();
    var depth := |m| + 1;
    AugmentedEmpty(Aggregated(variant, n, maxDepth, k, depth));
    var rest := n.valueToInfo.Keys;
    while rest != {}
      invariant rest <= n.valueToInfo.Keys
      invariant fresh(state)
      invariant Augmented(state.Value(), AggregatedOver(variant, n, rest, maxDepth, k, depth))
             == Aggregated(variant, n, maxDepth, k, depth)
      invariant variant == Code ==>
        forall x | x in n.valueToInfo.Keys - rest :: !IncompleteEntry(n.valueToInfo[x], maxDepth, k, depth)
      decreases |rest|
    {
      ghost var someKey := Pick(rest);
      var value :| value in rest;
      var info := n.valueToInfo[value];
      ghost var before := state.Value();
      var failure := AggregateEntry(variant, value, info, state, maxDepth, k, m);
      if failure.Some? {
        return Err(failure.value);
      }
      AggregatedOverShift(variant, n, rest, maxDepth, k, depth, value, before);
      RemoveOne(rest, value);
      rest := rest - {value};
    }
    AugmentedEmpty(state.Value());
    return Ok(state);
  }

  /**
   * One round of `Aggregate`'s loop: entry `value`, `info` of the node at the
   * end of path `m` merges its contribution into `state`, unless it stops the
   * program.
   */
  method AggregateEntry(variant: Variant, value: string, info: NodeInfo, state: AggregationState,
                        maxDepth: int, k: int, m: seq<string>)
    returns (failure: Option<Failure>)
    modifies state
    ensures failure.Some? <==> variant == Code && IncompleteEntry(info, maxDepth, k, |m| + 1)
    ensures failure.Some? ==> failure.value.IncompleteMeasurement?
    ensures failure.None? ==>
      state.Value() == Augmented(old(state.Value()), Contribution(variant, info, maxDepth, k, |m| + 1))
    decreases info, 0
  {
    var depth := |m| + 1;
    ghost var before := state.Value();
    // An entry below the threshold does not unlock its value.
    if info.num < k {
      AugmentedEmpty(before);
      return None;
    }
    // The last attribute: the measurements are fully unlocked.
    if depth == maxDepth {
      state.fullMsmts := state.fullMsmts + info.num;
      if variant == Code {
        state.AddLenTags(depth, info.num);
        AddLenIsMerge(before.lenPartial, depth, info.num);
      } else {
        assert Merge(before.lenPartial, map[]) == before.lenPartial;
      }
      return None;
    }
    if info.next.None? {
      if variant == Code {
        return Some(IncompleteMeasurement(m));
      }
      AugmentedEmpty(before);
      return None;
    }
    // Go one level deeper and count what was unlocked here and nowhere below.
    var sub := Aggregate(variant, info.next.value, maxDepth, k, m + [value]);
    if sub.Err? {
      return Some(sub.error);
    }
    Unlock(state, sub.value, info.num, depth);
    return None;
  }
}
