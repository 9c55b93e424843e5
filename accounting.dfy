/**
 * What the counters of an aggregation add up to.
 *
 * These are the facts the self-checks of `nestedSTAR.Aggregate` rely on (that
 * the per-length tags add up to the partial count, and how many lengths can
 * be tagged), stated for every trie and proved by induction over the trie,
 * together with the bounds a trie built by `Add` guarantees.
 */
module Accounting {
  import opened Sums
  import opened Aggregation
  import opened StarNode
  import opened NodeAggregate

  // ----- Accounting that holds for every trie -----

  /** A length that a state computed at depth `depth` may tag. */
  ghost predicate LengthInRange(variant: Variant, x: int, depth: int, maxDepth: int)
  {
    depth <= x && (x < maxDepth || (variant == Code && x == maxDepth))
  }

  /**
   * The bookkeeping of a state computed at depth `depth`: partial measurements
   * are counted at the root only, where they are the measurements attributed
   * to some length; the length tags add up to those, plus the full
   * measurements in the version that tags them; and the tagged lengths lie
   * between `depth` and `maxDepth`.
   */
  ghost predicate Shape(variant: Variant, c: Counts, depth: int, maxDepth: int)
  {
    && c.partial == (if depth == RootDepth then c.alreadyCounted else 0)
    && Sum(c.lenPartial) == c.alreadyCounted + (if variant == Code then c.full else 0)
    && (depth <= maxDepth ==>
          && (forall x | x in c.lenPartial :: LengthInRange(variant, x, depth, maxDepth))
          && Get(c.lenPartial, maxDepth) == (if variant == Code then c.full else 0))
  }

  lemma ShapeEmpty(variant: Variant, depth: int, maxDepth: int)
    ensures Shape(variant, Empty, depth, maxDepth)
  {
  }

  lemma ShapeAugmented(variant: Variant, c: Counts, d: Counts, depth: int, maxDepth: int)
    requires Shape(variant, c, depth, maxDepth) && Shape(variant, d, depth, maxDepth)
    ensures Shape(variant, Augmented(c, d), depth, maxDepth)
  {
    SumMerge(c.lenPartial, d.lenPartial);
    GetMerge(c.lenPartial, d.lenPartial, maxDepth);
  }

  lemma ShapeTerminal(variant: Variant, num: int, maxDepth: int)
    ensures Shape(variant, Counts(num, 0, 0, if variant == Code then map[maxDepth := num] else map[]), maxDepth, maxDepth)
  {
    if variant == Code {
      SumSingle(map[maxDepth := num], maxDepth);
    }
  }

  lemma ShapeUnlocked(variant: Variant, sub: Counts, num: int, depth: int, maxDepth: int)
    requires depth >= RootDepth && depth != maxDepth
    requires Shape(variant, sub, depth + 1, maxDepth)
    ensures Shape(variant, Unlocked(sub, num, depth), depth, maxDepth)
  {
    AddLenSum(sub.lenPartial, depth, num - sub.full - sub.alreadyCounted);
  }

  lemma {:induction false} AggregatedShape(variant: Variant, n: Node, maxDepth: int, k: int, depth: int)
    requires depth >= RootDepth
    ensures Shape(variant, Aggregated(variant, n, maxDepth, k, depth), depth, maxDepth)
    decreases n, 2, 0
  {
    OverShape(variant, n, n.valueToInfo.Keys, maxDepth, k, depth);
  }

  lemma {:induction false} OverShape(variant: Variant, n: Node, keys: set<string>, maxDepth: int, k: int, depth: int)
    requires keys <= n.valueToInfo.Keys && depth >= RootDepth
    ensures Shape(variant, AggregatedOver(variant, n, keys, maxDepth, k, depth), depth, maxDepth)
    decreases n, 1, |keys|
  {
    if keys == {} {
      ShapeEmpty(variant, depth, maxDepth);
    } else {
      var v := Pick(keys);
      assert |keys - {v}| == |keys| - 1;
      ContributionShape(variant, n.valueToInfo[v], maxDepth, k, depth);
      OverShape(variant, n, keys - {v}, maxDepth, k, depth);
      ShapeAugmented(variant, Contribution(variant, n.valueToInfo[v], maxDepth, k, depth),
                     AggregatedOver(variant, n, keys - {v}, maxDepth, k, depth), depth, maxDepth);
    }
  }

  lemma {:induction false} ContributionShape(variant: Variant, info: NodeInfo, maxDepth: int, k: int, depth: int)
    requires depth >= RootDepth
    ensures Shape(variant, Contribution(variant, info, maxDepth, k, depth), depth, maxDepth)
    decreases info, 0, 0
  {
    if info.num < k || (depth != maxDepth && info.next.None?) {
      ShapeEmpty(variant, depth, maxDepth);
    } else if depth == maxDepth {
      ShapeTerminal(variant, info.num, maxDepth);
    } else {
      AggregatedShape(variant, info.next.value, maxDepth, k, depth + 1);
      ShapeUnlocked(variant, Aggregated(variant, info.next.value, maxDepth, k, depth + 1), info.num, depth, maxDepth);
    }
  }

  /** In star_node.go the length tags always add up to the partial count at the root. */
  lemma RootAddsUp(n: Node, maxDepth: int, k: int)
    ensures PartialsAddUp(Aggregated(Root, n, maxDepth, k, RootDepth))
  {
    AggregatedShape(Root, n, maxDepth, k, RootDepth);
  }

  /**
   * In code/star_node.go the full measurements are tagged too, so the tags add
   * up to the partial count exactly when nothing was fully unlocked.
   */
  lemma CodeAddsUpIffNoneFull(n: Node, maxDepth: int, k: int)
    ensures var c := Aggregated(Code, n, maxDepth, k, RootDepth);
      PartialsAddUp(c) <==> c.full == 0
  {
    AggregatedShape(Code, n, maxDepth, k, RootDepth);
  }

  /** In code/star_node.go the tag of length `maxDepth` counts exactly the full measurements. */
  lemma CodeFullTag(n: Node, maxDepth: int, k: int)
    requires maxDepth >= RootDepth
    ensures var c := Aggregated(Code, n, maxDepth, k, RootDepth);
      Get(c.lenPartial, maxDepth) == c.full && forall x | x in c.lenPartial :: 1 <= x <= maxDepth
  {
    AggregatedShape(Code, n, maxDepth, k, RootDepth);
  }

  /** In star_node.go only the lengths 1 to maxDepth - 1 are tagged: a full measurement has no tag. */
  lemma RootLengths(n: Node, maxDepth: int, k: int)
    requires maxDepth >= RootDepth
    ensures var c := Aggregated(Root, n, maxDepth, k, RootDepth);
      forall x | x in c.lenPartial :: 1 <= x < maxDepth
  {
    AggregatedShape(Root, n, maxDepth, k, RootDepth);
  }

  /** So code/star_node.go tags at most maxDepth lengths, and star_node.go at most maxDepth - 1. */
  lemma LengthCount(variant: Variant, n: Node, maxDepth: int, k: int)
    requires maxDepth >= RootDepth
    ensures |Aggregated(variant, n, maxDepth, k, RootDepth).lenPartial.Keys|
         <= if variant == Code then maxDepth else maxDepth - 1
  {
    var c := Aggregated(variant, n, maxDepth, k, RootDepth);
    AggregatedShape(variant, n, maxDepth, k, RootDepth);
    RangeSize(c.lenPartial.Keys, 1, if variant == Code then maxDepth else maxDepth - 1);
  }

  // ----- The two versions compute the same counts -----

  /**
   * `c` (code/star_node.go) and `r` (star_node.go) agree on every counter and
   * every length tag, except that `c` also tags the full measurements with
   * length `maxDepth`.
   */
  ghost predicate Agree(c: Counts, r: Counts, maxDepth: int)
  {
    && c.full == r.full && c.partial == r.partial && c.alreadyCounted == r.alreadyCounted
    && forall x :: Get(c.lenPartial, x) == Get(r.lenPartial, x) + (if x == maxDepth then c.full else 0)
  }

  lemma AgreeAugmented(c: Counts, r: Counts, c': Counts, r': Counts, maxDepth: int)
    requires Agree(c, r, maxDepth) && Agree(c', r', maxDepth)
    ensures Agree(Augmented(c, c'), Augmented(r, r'), maxDepth)
  {
    forall x
      ensures Get(Augmented(c, c').lenPartial, x)
           == Get(Augmented(r, r').lenPartial, x) + (if x == maxDepth then c.full + c'.full else 0)
    {
      GetMerge(c.lenPartial, c'.lenPartial, x);
      GetMerge(r.lenPartial, r'.lenPartial, x);
    }
  }

  lemma AgreeUnlocked(c: Counts, r: Counts, num: int, depth: int, maxDepth: int)
    requires depth != maxDepth && Agree(c, r, maxDepth)
    ensures Agree(Unlocked(c, num, depth), Unlocked(r, num, depth), maxDepth)
  {
    var newly := num - c.full - c.alreadyCounted;
    forall x
      ensures Get(AddLen(c.lenPartial, depth, newly), x)
           == Get(AddLen(r.lenPartial, depth, newly), x) + (if x == maxDepth then c.full else 0)
    {
      assert Get(c.lenPartial, x) == Get(r.lenPartial, x) + (if x == maxDepth then c.full else 0);
    }
  }

  lemma {:induction false} AggregatedAgree(n: Node, maxDepth: int, k: int, depth: int)
    ensures Agree(Aggregated(Code, n, maxDepth, k, depth), Aggregated(Root, n, maxDepth, k, depth), maxDepth)
    decreases n, 2, 0
  {
    OverAgree(n, n.valueToInfo.Keys, maxDepth, k, depth);
  }

  lemma {:induction false} OverAgree(n: Node, keys: set<string>, maxDepth: int, k: int, depth: int)
    requires keys <= n.valueToInfo.Keys
    ensures Agree(AggregatedOver(Code, n, keys, maxDepth, k, depth), AggregatedOver(Root, n, keys, maxDepth, k, depth), maxDepth)
    decreases n, 1, |keys|
  {
    if keys != {} {
      var v := Pick(keys);
      assert |keys - {v}| == |keys| - 1;
      ContributionAgree(n.valueToInfo[v], maxDepth, k, depth);
      OverAgree(n, keys - {v}, maxDepth, k, depth);
      AgreeAugmented(Contribution(Code, n.valueToInfo[v], maxDepth, k, depth),
                     Contribution(Root, n.valueToInfo[v], maxDepth, k, depth),
                     AggregatedOver(Code, n, keys - {v}, maxDepth, k, depth),
                     AggregatedOver(Root, n, keys - {v}, maxDepth, k, depth), maxDepth);
    }
  }

  lemma {:induction false} ContributionAgree(info: NodeInfo, maxDepth: int, k: int, depth: int)
    ensures Agree(Contribution(Code, info, maxDepth, k, depth), Contribution(Root, info, maxDepth, k, depth), maxDepth)
    decreases info, 0, 0
  {
    if info.num >= k && depth != maxDepth && info.next.Some? {
      AggregatedAgree(info.next.value, maxDepth, k, depth + 1);
      AgreeUnlocked(Aggregated(Code, info.next.value, maxDepth, k, depth + 1),
                    Aggregated(Root, info.next.value, maxDepth, k, depth + 1), info.num, depth, maxDepth);
    }
  }

  // ----- Entries below the threshold -----

  /** When every count of a node is below the threshold, aggregating it unlocks nothing. */
  lemma {:induction false} BelowThreshold(variant: Variant, n: Node, keys: set<string>, maxDepth: int, k: int, depth: int)
    requires keys <= n.valueToInfo.Keys
    requires forall v | v in n.valueToInfo :: n.valueToInfo[v].num < k
    ensures AggregatedOver(variant, n, keys, maxDepth, k, depth) == Empty
    decreases |keys|
  {
    if keys != {} {
      var v := Pick(keys);
      assert |keys - {v}| == |keys| - 1;
      BelowThreshold(variant, n, keys - {v}, maxDepth, k, depth);
      AugmentedEmpty(Empty);
    }
  }

  // ----- What a trie built by insertion guarantees -----

  /** The counts of the entries of `n` whose values lie in `keys`. */
  ghost function NumsOver(n: Node, keys: set<string>): map<string, int>
    requires keys <= n.valueToInfo.Keys
  {
    map v | v in keys :: n.valueToInfo[v].num
  }

  /**
   * The bounds of a state computed from a well-formed trie of `total`
   * measurements: no counter is negative, no length tag is negative, and at
   * most `total` measurements are unlocked, all of them when the threshold
   * does not exclude anything.
   */
  ghost predicate Bounded(c: Counts, total: int, k: int)
  {
    && 0 <= c.full && 0 <= c.partial && 0 <= c.alreadyCounted && c.full + c.alreadyCounted <= total
    && (k <= 1 ==> c.full + c.alreadyCounted == total)
    && forall x | x in c.lenPartial :: c.lenPartial[x] >= 0
  }

  lemma BoundedAugmented(c: Counts, d: Counts, s: int, t: int, k: int)
    requires Bounded(c, s, k) && Bounded(d, t, k)
    ensures Bounded(Augmented(c, d), s + t, k)
  {
  }

  lemma {:induction false} AggregatedBounded(variant: Variant, n: Node, maxDepth: int, k: int, depth: int)
    requires depth <= maxDepth && WellFormed(n, maxDepth - depth + 1)
    ensures Bounded(Aggregated(variant, n, maxDepth, k, depth), Total(n), k)
    decreases n, 2, 0
  {
    OverBounded(variant, n, n.valueToInfo.Keys, maxDepth, k, depth);
    assert NumsOver(n, n.valueToInfo.Keys) == map v | v in n.valueToInfo :: n.valueToInfo[v].num;
  }

  lemma {:induction false} OverBounded(variant: Variant, n: Node, keys: set<string>, maxDepth: int, k: int, depth: int)
    requires keys <= n.valueToInfo.Keys
    requires depth <= maxDepth && WellFormed(n, maxDepth - depth + 1)
    ensures Bounded(AggregatedOver(variant, n, keys, maxDepth, k, depth), Sum(NumsOver(n, keys)), k)
    decreases n, 1, |keys|
  {
    if keys == {} {
      assert NumsOver(n, keys) == map[];
    } else {
      var v := Pick(keys);
      assert |keys - {v}| == |keys| - 1;
      assert EntryWellFormed(n, v, maxDepth - depth + 1);
      ContributionBounded(variant, n.valueToInfo[v], maxDepth, k, depth);
      OverBounded(variant, n, keys - {v}, maxDepth, k, depth);
      SumRemove(NumsOver(n, keys), v);
      assert NumsOver(n, keys) - {v} == NumsOver(n, keys - {v});
      BoundedAugmented(Contribution(variant, n.valueToInfo[v], maxDepth, k, depth),
                       AggregatedOver(variant, n, keys - {v}, maxDepth, k, depth),
                       n.valueToInfo[v].num, Sum(NumsOver(n, keys - {v})), k);
    }
  }

  lemma {:induction false} ContributionBounded(variant: Variant, info: NodeInfo, maxDepth: int, k: int, depth: int)
    requires depth <= maxDepth && InfoWellFormed(info, maxDepth - depth + 1)
    ensures Bounded(Contribution(variant, info, maxDepth, k, depth), info.num, k)
    decreases info, 0, 0
  {
    if info.num >= k && depth != maxDepth {
      var sub := Aggregated(variant, info.next.value, maxDepth, k, depth + 1);
      AggregatedBounded(variant, info.next.value, maxDepth, k, depth + 1);
      var newly := info.num - sub.full - sub.alreadyCounted;
      assert newly >= 0;
      assert Unlocked(sub, info.num, depth).lenPartial == AddLen(sub.lenPartial, depth, newly);
    }
  }

  /** A well-formed trie holds no qualifying entry without a child above the last depth. */
  lemma {:induction false} WellFormedComplete(n: Node, maxDepth: int, k: int, depth: int)
    requires depth <= maxDepth && WellFormed(n, maxDepth - depth + 1)
    ensures !Incomplete(n, maxDepth, k, depth)
    decreases n, 1
  {
    forall v | v in n.valueToInfo
      ensures !IncompleteEntry(n.valueToInfo[v], maxDepth, k, depth)
    {
      assert EntryWellFormed(n, v, maxDepth - depth + 1);
      InfoComplete(n.valueToInfo[v], maxDepth, k, depth);
    }
  }

  lemma {:induction false} InfoComplete(info: NodeInfo, maxDepth: int, k: int, depth: int)
    requires depth <= maxDepth && InfoWellFormed(info, maxDepth - depth + 1)
    ensures !IncompleteEntry(info, maxDepth, k, depth)
    decreases info, 0
  {
    if depth != maxDepth {
      WellFormedComplete(info.next.value, maxDepth, k, depth + 1);
    }
  }

  /**
   * At the root of a well-formed trie, every measurement is counted once as
   * full or as partial when the threshold is at most one.
   */
  lemma AllCounted(variant: Variant, n: Node, maxDepth: int, k: int)
    requires maxDepth >= RootDepth && WellFormed(n, maxDepth) && k <= 1
    ensures var c := Aggregated(variant, n, maxDepth, k, RootDepth);
      c.full + c.partial == Total(n)
  {
    AggregatedBounded(variant, n, maxDepth, k, RootDepth);
    AggregatedShape(variant, n, maxDepth, k, RootDepth);
  }

  /** The counts of the entries of `n` whose values lie in `keys` and that reach the threshold. */
  ghost function Qualifying(n: Node, keys: set<string>, k: int): map<string, int>
    requires keys <= n.valueToInfo.Keys
  {
    map v | v in keys && n.valueToInfo[v].num >= k :: n.valueToInfo[v].num
  }

  /**
   * At every depth of a well-formed trie, the measurements of the qualifying
   * entries are attributed exactly once: as full, or as already counted at
   * some length.
   */
  lemma Reconciles(variant: Variant, n: Node, maxDepth: int, k: int, depth: int)
    requires depth <= maxDepth && WellFormed(n, maxDepth - depth + 1)
    ensures var c := Aggregated(variant, n, maxDepth, k, depth);
      c.full + c.alreadyCounted == Sum(Qualifying(n, n.valueToInfo.Keys, k))
  {
    OverReconciles(variant, n, n.valueToInfo.Keys, maxDepth, k, depth);
  }

  /**
   * At the root, the full and partial counts together are the measurements
   * of the root entries that reach the threshold.
   */
  lemma RootReconciles(variant: Variant, n: Node, maxDepth: int, k: int)
    requires maxDepth >= RootDepth && WellFormed(n, maxDepth)
    ensures var c := Aggregated(variant, n, maxDepth, k, RootDepth);
      c.full + c.partial == Sum(Qualifying(n, n.valueToInfo.Keys, k))
  {
    Reconciles(variant, n, maxDepth, k, RootDepth);
    AggregatedShape(variant, n, maxDepth, k, RootDepth);
  }

  lemma {:induction false} OverReconciles(variant: Variant, n: Node, keys: set<string>, maxDepth: int, k: int, depth: int)
    requires keys <= n.valueToInfo.Keys
    requires depth <= maxDepth && WellFormed(n, maxDepth - depth + 1)
    ensures var c := AggregatedOver(variant, n, keys, maxDepth, k, depth);
      c.full + c.alreadyCounted == Sum(Qualifying(n, keys, k))
    decreases |keys|
  {
    if keys == {} {
      assert Qualifying(n, keys, k) == map[];
    } else {
      var v := Pick(keys);
      RemoveOne(keys, v);
      assert EntryWellFormed(n, v, maxDepth - depth + 1);
      ContributionReconciles(variant, n.valueToInfo[v], maxDepth, k, depth);
      OverReconciles(variant, n, keys - {v}, maxDepth, k, depth);
      QualifyingRemove(n, keys, k, v);
    }
  }

  /**
   * Raising the threshold never raises the number of measurements counted as
   * full or partial at the root, although the partial count alone can rise
   * (`PartialRisesWithThreshold` of the fixture).
   */
  lemma CountedMonotone(variant: Variant, n: Node, maxDepth: int, k: int, k': int)
    requires k <= k' && maxDepth >= RootDepth && WellFormed(n, maxDepth)
    ensures var c, c' := Aggregated(variant, n, maxDepth, k, RootDepth), Aggregated(variant, n, maxDepth, k', RootDepth);
      c'.full + c'.partial <= c.full + c.partial
  {
    RootReconciles(variant, n, maxDepth, k);
    RootReconciles(variant, n, maxDepth, k');
    forall v | v in n.valueToInfo
      ensures n.valueToInfo[v].num >= 0
    {
      assert EntryWellFormed(n, v, maxDepth);
      assert InfoWellFormed(n.valueToInfo[v], maxDepth);
    }
    QualifyingMonotone(n, n.valueToInfo.Keys, k, k');
  }

  /** Fewer entries reach a higher threshold, so their counts sum to less. */
  lemma {:induction false} QualifyingMonotone(n: Node, keys: set<string>, k: int, k': int)
    requires keys <= n.valueToInfo.Keys && k <= k'
    requires forall v | v in keys :: n.valueToInfo[v].num >= 0
    ensures Sum(Qualifying(n, keys, k')) <= Sum(Qualifying(n, keys, k))
    decreases |keys|
  {
    if keys == {} {
      assert Qualifying(n, keys, k) == map[];
      assert Qualifying(n, keys, k') == map[];
    } else {
      var v := Pick(keys);
      RemoveOne(keys, v);
      QualifyingRemove(n, keys, k, v);
      QualifyingRemove(n, keys, k', v);
      QualifyingMonotone(n, keys - {v}, k, k');
    }
  }

  /** Taking one value out of `keys` takes its count out of the qualifying sum, if it qualifies. */
  lemma QualifyingRemove(n: Node, keys: set<string>, k: int, v: string)
    requires keys <= n.valueToInfo.Keys && v in keys
    ensures Sum(Qualifying(n, keys, k))
         == (if n.valueToInfo[v].num >= k then n.valueToInfo[v].num else 0) + Sum(Qualifying(n, keys - {v}, k))
  {
    var q := Qualifying(n, keys, k);
    if n.valueToInfo[v].num >= k {
      SumRemove(q, v);
      assert q - {v} == Qualifying(n, keys - {v}, k);
    } else {
      assert q == Qualifying(n, keys - {v}, k);
    }
  }

  /** A qualifying entry is attributed in full, as full or as already counted; any other adds nothing. */
  lemma ContributionReconciles(variant: Variant, info: NodeInfo, maxDepth: int, k: int, depth: int)
    requires depth <= maxDepth && InfoWellFormed(info, maxDepth - depth + 1)
    ensures var c := Contribution(variant, info, maxDepth, k, depth);
      c.full + c.alreadyCounted == if info.num >= k then info.num else 0
  {
  }

  // ----- Raising the threshold -----

  /** Raising the threshold never unlocks more full measurements. */
  lemma {:induction false} AggregatedFullMonotone(variant: Variant, n: Node, maxDepth: int, k: int, k': int, depth: int)
    requires k <= k' && depth <= maxDepth && WellFormed(n, maxDepth - depth + 1)
    ensures Aggregated(variant, n, maxDepth, k', depth).full <= Aggregated(variant, n, maxDepth, k, depth).full
    decreases n, 2, 0
  {
    OverFullMonotone(variant, n, n.valueToInfo.Keys, maxDepth, k, k', depth);
  }

  lemma {:induction false} OverFullMonotone(variant: Variant, n: Node, keys: set<string>, maxDepth: int, k: int, k': int, depth: int)
    requires keys <= n.valueToInfo.Keys
    requires k <= k' && depth <= maxDepth && WellFormed(n, maxDepth - depth + 1)
    ensures AggregatedOver(variant, n, keys, maxDepth, k', depth).full <= AggregatedOver(variant, n, keys, maxDepth, k, depth).full
    decreases n, 1, |keys|
  {
    if keys != {} {
      var v := Pick(keys);
      assert |keys - {v}| == |keys| - 1;
      assert EntryWellFormed(n, v, maxDepth - depth + 1);
      ContributionFullMonotone(variant, n.valueToInfo[v], maxDepth, k, k', depth);
      OverFullMonotone(variant, n, keys - {v}, maxDepth, k, k', depth);
    }
  }

  lemma {:induction false} ContributionFullMonotone(variant: Variant, info: NodeInfo, maxDepth: int, k: int, k': int, depth: int)
    requires k <= k' && depth <= maxDepth && InfoWellFormed(info, maxDepth - depth + 1)
    ensures Contribution(variant, info, maxDepth, k', depth).full <= Contribution(variant, info, maxDepth, k, depth).full
    decreases info, 0, 0
  {
    ContributionBounded(variant, info, maxDepth, k, depth);
    if info.num >= k' && depth != maxDepth {
      AggregatedFullMonotone(variant, info.next.value, maxDepth, k, k', depth + 1);
    }
  }
}
