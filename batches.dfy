/**
 * Inserting batches of measurements that share leading attributes: the
 * general facts the fixture of code/star_test.go is built from.
 */
module Batches {
  import opened Wrappers
  import opened StarNode

  // ----- Building a trie from batches of measurements -----

  function Leaf(num: int): NodeInfo
  {
    NodeInfo(num, None)
  }

  function Inner(num: int, entries: map<string, NodeInfo>): NodeInfo
  {
    NodeInfo(num, Some(Node(entries)))
  }

  /** The count of value `v` in node `n`, zero when absent. */
  function Num(n: Node, v: string): int
  {
    if v in n.valueToInfo then n.valueToInfo[v].num else 0
  }

  /** Every measurement has at least one attribute, as `Add` needs. */
  ghost predicate NonEmpty(records: seq<seq<string>>)
  {
    forall i | 0 <= i < |records| :: |records[i]| > 0
  }

  /** The measurements `[v] + t` for each `t` of `tails`. */
  function Prefixed(v: string, tails: seq<seq<string>>): (r: seq<seq<string>>)
    ensures |r| == |tails| && forall i | 0 <= i < |tails| :: r[i] == [v] + tails[i]
    ensures NonEmpty(r)
  {
    seq(|tails|, i requires 0 <= i < |tails| => [v] + tails[i])
  }

  /** `c` copies of the measurement `m`. */
  function Copies(m: seq<string>, c: nat): (r: seq<seq<string>>)
    ensures |r| == c && forall i | 0 <= i < c :: r[i] == m
    ensures |m| > 0 ==> NonEmpty(r)
  {
    seq(c, _ => m)
  }

  /** Inserting two batches in a row is inserting their concatenation. */
  lemma {:induction false} AddAllAppend(n: Node, a: seq<seq<string>>, b: seq<seq<string>>)
    requires NonEmpty(a)
    requires NonEmpty(b)
    ensures AddAll(n, a + b) == AddAll(AddAll(n, a), b)
    decreases |a|
  {
    if a == [] {
      assert a + b == b;
    } else {
      assert (a + b)[1..] == a[1..] + b;
      AddAllAppend(Add(n, a[0]), a[1..], b);
    }
  }

  /** Two batches in a row, each known to take one trie to the next. */
  lemma Chain2(n: Node, a: seq<seq<string>>, b: seq<seq<string>>, t1: Node, t2: Node)
    requires NonEmpty(a)
    requires NonEmpty(b)
    requires AddAll(n, a) == t1 && AddAll(t1, b) == t2
    ensures AddAll(n, a + b) == t2
  {
    AddAllAppend(n, a, b);
  }

  /** Three batches in a row. */
  lemma Chain3(n: Node, a: seq<seq<string>>, b: seq<seq<string>>, c: seq<seq<string>>, t1: Node, t2: Node, t3: Node)
    requires NonEmpty(a)
    requires NonEmpty(b)
    requires NonEmpty(c)
    requires AddAll(n, a) == t1 && AddAll(t1, b) == t2 && AddAll(t2, c) == t3
    ensures AddAll(n, a + b + c) == t3
  {
    AddAllAppend(n, a + b, c);
    AddAllAppend(n, a, b);
  }

  /** Inserting a measurement of several attributes, as one node update. */
  lemma AddHead(n: Node, v: string, t: seq<string>)
    requires |t| > 0
    ensures Add(n, [v] + t) == Node(n.valueToInfo[v := Inner(Num(n, v) + 1, Add(ChildOrEmpty(n, v), t).valueToInfo)])
  {
    var m := [v] + t;
    assert m[0] == v && m[1..] == t;
    AddDescends(n, m);
  }

  /** A second update of the same key overwrites the first (re-entering a batch in `Reentry`, the tag of length one in `InitMerged`). */
  lemma Overwrite<K, V>(m: map<K, V>, x: K, a: V, b: V)
    ensures m[x := a][x := b] == m[x := b]
  {
  }

  /**
   * After the first measurement of a batch moved the entry of `v` to `child`
   * (so `n` became `n'`), the entry's final state can be stated against `n`
   * itself.
   */
  lemma Reentry(n: Node, v: string, child: Node, n': Node, final: NodeInfo, a: Node)
    requires n' == Node(n.valueToInfo[v := Inner(Num(n, v) + 1, child.valueToInfo)])
    requires a == Node(n'.valueToInfo[v := final])
    ensures a == Node(n.valueToInfo[v := final])
  {
    Overwrite(n.valueToInfo, v, Inner(Num(n, v) + 1, child.valueToInfo), final);
  }

  /**
   * The first measurement of a batch that starts with `v`, taken on its own:
   * it moves `n` to `n'` and the old child of `v` to `child`.
   */
  lemma FirstOfBatch(n: Node, v: string, tails: seq<seq<string>>) returns (child: Node, n': Node)
    requires |tails| > 0 && NonEmpty(tails)
    ensures n' == Node(n.valueToInfo[v := Inner(Num(n, v) + 1, child.valueToInfo)])
    ensures ChildOrEmpty(n', v) == child && Num(n', v) == Num(n, v) + 1
    ensures AddAll(n, Prefixed(v, tails)) == AddAll(n', Prefixed(v, tails[1..]))
    ensures AddAll(ChildOrEmpty(n, v), tails) == AddAll(child, tails[1..])
  {
    child := Add(ChildOrEmpty(n, v), tails[0]);
    n' := Node(n.valueToInfo[v := Inner(Num(n, v) + 1, child.valueToInfo)]);
    var records := Prefixed(v, tails);
    AddHead(n, v, tails[0]);
    assert records[0] == [v] + tails[0];
    assert records[1..] == Prefixed(v, tails[1..]);
  }

  /** A batch of one measurement that starts with `v`. */
  lemma SingleBatch(n: Node, v: string, tails: seq<seq<string>>, grown: Node, count: int)
    requires |tails| == 1 && NonEmpty(tails)
    requires AddAll(ChildOrEmpty(n, v), tails) == grown
    requires count == Num(n, v) + 1
    ensures AddAll(n, Prefixed(v, tails)) == Node(n.valueToInfo[v := Inner(count, grown.valueToInfo)])
  {
    var child, n' := FirstOfBatch(n, v, tails);
    assert tails[1..] == [] && Prefixed(v, []) == [];
  }

  /**
   * A batch of measurements that all start with `v` lands below the entry of
   * `v`: the entry ends with `count`, its old count plus one per measurement,
   * and its child is what the batch's remaining attributes make of the old
   * child.
   */
  lemma {:induction false} AddAllBranch(n: Node, v: string, tails: seq<seq<string>>, grown: Node, count: int)
    requires |tails| > 0 && NonEmpty(tails)
    requires AddAll(ChildOrEmpty(n, v), tails) == grown
    requires count == Num(n, v) + |tails|
    ensures AddAll(n, Prefixed(v, tails)) == Node(n.valueToInfo[v := Inner(count, grown.valueToInfo)])
    decreases |tails|
  {
    if |tails| == 1 {
      SingleBatch(n, v, tails, grown, count);
    } else {
      var rest := tails[1..];
      var child, n' := FirstOfBatch(n, v, tails);
      AddAllBranch(n', v, rest, grown, count);
      Reentry(n, v, child, n', Inner(count, grown.valueToInfo), AddAll(n', Prefixed(v, rest)));
    }
  }

  /** `c` measurements of the single attribute `v` only count at the entry of `v`. */
  lemma {:induction false} AddAllLeaf(n: Node, v: string, c: nat)
    requires c > 0
    ensures AddAll(n, Copies([v], c))
         == Node(n.valueToInfo[v := NodeInfo(Num(n, v) + c, if v in n.valueToInfo then n.valueToInfo[v].next else None)])
    decreases c
  {
    var records := Copies([v], c);
    var n' := Add(n, [v]);
    assert n' == Node(n.valueToInfo[v := NodeInfo(Num(n, v) + 1, if v in n.valueToInfo then n.valueToInfo[v].next else None)]);
    if c > 1 {
      assert records[1..] == Copies([v], c - 1);
      AddAllLeaf(n', v, c - 1);
    }
  }

  /** A batch of measurements that start with a new value `v` makes a new entry for `v`. */
  lemma AddAllNew(n: Node, v: string, tails: seq<seq<string>>, child: Node)
    requires v !in n.valueToInfo
    requires |tails| > 0 && NonEmpty(tails)
    requires AddAll(EmptyNode, tails) == child
    ensures AddAll(n, Prefixed(v, tails)) == Node(n.valueToInfo[v := Inner(|tails|, child.valueToInfo)])
  {
    AddAllBranch(n, v, tails, child, |tails|);
  }

}
