/**
 * The measurement trie of Nested STAR (code/star_node.go; star_node.go holds
 * the same trie and diagnostics under exported names).
 *
 * A node maps each attribute value seen at its depth to an entry: how many
 * measurements carried that value after the path leading to the node, and the
 * child node holding their next attribute.  The trie is modelled as a value:
 * every child belongs to exactly one entry, so a node is a tree of values.
 */
module StarNode {
  import opened Wrappers
  import opened Sums

  /** Depth of the root node, whose entries hold the first attribute. */
  const RootDepth := 1

  datatype NodeInfo = NodeInfo(num: int, next: Option<Node>)

  datatype Node = Node(valueToInfo: map<string, NodeInfo>)

  /** A node without entries, as created for a fresh root or a fresh child. */
  const EmptyNode := Node(map[])

  /** The child of entry `v`, or a node without entries when there is none yet. */
  function ChildOrEmpty(n: Node, v: string): (c: Node)
    ensures v in n.valueToInfo && n.valueToInfo[v].next.Some? ==> c == n.valueToInfo[v].next.value
    ensures v !in n.valueToInfo || n.valueToInfo[v].next.None? ==> c == EmptyNode
  {
    if v in n.valueToInfo && n.valueToInfo[v].next.Some? then n.valueToInfo[v].next.value else EmptyNode
  }

  /**
   * Inserts one measurement, its attributes in order.  The first attribute's
   * count goes up by one (a new entry starts at one), every other entry stays
   * as it was, and the remaining attributes go into the entry's child, which
   * is created only when attributes remain and otherwise reused.
   */
  function Add(n: Node, m: seq<string>): (r: Node)
    requires |m| > 0
    ensures r.valueToInfo.Keys == n.valueToInfo.Keys + {m[0]}
    ensures r.valueToInfo[m[0]].num == (if m[0] in n.valueToInfo then n.valueToInfo[m[0]].num + 1 else 1)
    ensures forall v | v in n.valueToInfo && v != m[0] :: r.valueToInfo[v] == n.valueToInfo[v]
    ensures r.valueToInfo[m[0]].next.Some? <==> |m| > 1 || (m[0] in n.valueToInfo && n.valueToInfo[m[0]].next.Some?)
    ensures |m| == 1 && m[0] in n.valueToInfo ==> r.valueToInfo[m[0]].next == n.valueToInfo[m[0]].next
    decreases |m|
  {
    var info :=
      if m[0] !in n.valueToInfo then NodeInfo(1, None)
      else n.valueToInfo[m[0]].(num := n.valueToInfo[m[0]].num + 1);
    var next :=
      if |m[1..]| > 0 then
        if info.next.None? then Some(Add(EmptyNode, m[1..])) else Some(Add(info.next.value, m[1..]))
      else info.next;
    Node(n.valueToInfo[m[0] := info.(next := next)])
  }

  /**
   * The remaining attributes go into the child of the first one's entry.
   * (Kept out of `Add`'s own contract, where it would make every insertion
   * describe the next one without end.)
   */
  lemma AddDescends(n: Node, m: seq<string>)
    requires |m| > 1
    ensures Add(n, m).valueToInfo[m[0]].next == Some(Add(ChildOrEmpty(n, m[0]), m[1..]))
  {
  }

  /** Inserts the measurements one after the other, in order. */
  function AddAll(n: Node, records: seq<seq<string>>): Node
    requires forall i | 0 <= i < |records| :: |records[i]| > 0
    decreases |records|
  {
    if records == [] then n else AddAll(Add(n, records[0]), records[1..])
  }

  /** One round of a loop that inserts `records` in order. */
  lemma AddAllStep(n: Node, records: seq<seq<string>>, i: int)
    requires forall j | 0 <= j < |records| :: |records[j]| > 0
    requires 0 <= i < |records|
    ensures AddAll(n, records[..i + 1]) == Add(AddAll(n, records[..i]), records[i])
  {
    assert records[..i + 1] == records[..i] + [records[i]];
    AddAllSnoc(n, records[..i], records[i]);
  }

  /** Inserting a batch and then one more measurement is inserting the longer batch. */
  lemma {:induction false} AddAllSnoc(n: Node, records: seq<seq<string>>, m: seq<string>)
    requires forall i | 0 <= i < |records| :: |records[i]| > 0
    requires |m| > 0
    ensures AddAll(n, records + [m]) == Add(AddAll(n, records), m)
    decreases |records|
  {
    if records == [] {
      assert [] + [m] == [m];
    } else {
      assert (records + [m])[1..] == records[1..] + [m];
      AddAllSnoc(Add(n, records[0]), records[1..], m);
    }
  }

  // ----- What insertion keeps true -----

  /** Number of measurements counted at this node: the sum of its entries' counts. */
  ghost function Total(n: Node): int
  {
    Sum(map v | v in n.valueToInfo :: n.valueToInfo[v].num)
  }

  /**
   * The shape a trie has when every inserted measurement had `len` attributes:
   * every count is positive, entries at the last attribute have no child, and
   * every other entry has a child whose counts add up to the entry's own.
   */
  ghost predicate WellFormed(n: Node, len: int)
    decreases n, 2
  {
    forall v | v in n.valueToInfo :: EntryWellFormed(n, v, len)
  }

  ghost predicate EntryWellFormed(n: Node, v: string, len: int)
    requires v in n.valueToInfo
    decreases n, 1
  {
    InfoWellFormed(n.valueToInfo[v], len)
  }

  /** The condition on one entry: a positive count, and a child exactly above the last attribute, whose counts add up to its own. */
  ghost predicate InfoWellFormed(info: NodeInfo, len: int)
    decreases info, 0
  {
    info.num >= 1 &&
    if len <= 1 then info.next.None?
    else info.next.Some? && WellFormed(info.next.value, len - 1) && info.num == Total(info.next.value)
  }

  /** Each insertion counts exactly one more measurement at the node it starts from. */
  lemma AddTotal(n: Node, m: seq<string>)
    requires |m| > 0
    ensures Total(Add(n, m)) == Total(n) + 1
  {
    var before := map v | v in n.valueToInfo :: n.valueToInfo[v].num;
    var r := Add(n, m);
    var after := map v | v in r.valueToInfo :: r.valueToInfo[v].num;
    var updated := before[m[0] := Get(before, m[0]) + 1];
    assert after.Keys == updated.Keys;
    forall v | v in after
      ensures after[v] == updated[v]
    {
    }
    assert after == updated;
    SumUpdate(before, m[0], Get(before, m[0]) + 1);
  }

  lemma EmptyTotal()
    ensures Total(EmptyNode) == 0
  {
    assert (map v | v in EmptyNode.valueToInfo :: EmptyNode.valueToInfo[v].num) == map[];
  }

  /** Inserting a measurement of `len` attributes keeps the shape of a trie of such measurements. */
  lemma {:induction false} AddWellFormed(n: Node, m: seq<string>)
    requires |m| > 0 && WellFormed(n, |m|)
    ensures WellFormed(Add(n, m), |m|)
    decreases |m|
  {
    var r := Add(n, m);
    forall v | v in r.valueToInfo
      ensures EntryWellFormed(r, v, |m|)
    {
      if v != m[0] {
        assert EntryWellFormed(n, v, |m|);
        assert InfoWellFormed(n.valueToInfo[v], |m|);
      } else if |m| > 1 {
        var c := ChildOrEmpty(n, m[0]);
        if m[0] in n.valueToInfo {
          assert EntryWellFormed(n, m[0], |m|);
          assert InfoWellFormed(n.valueToInfo[m[0]], |m|);
        } else {
          EmptyTotal();
        }
        AddWellFormed(c, m[1..]);
        AddTotal(c, m[1..]);
      }
      assert InfoWellFormed(r.valueToInfo[v], |m|);
    }
  }

  /** Inserting any number of measurements of `len` attributes keeps the shape and counts each one. */
  lemma {:induction false} AddAllWellFormed(n: Node, records: seq<seq<string>>, len: int)
    requires len >= 1 && WellFormed(n, len)
    requires forall i | 0 <= i < |records| :: |records[i]| == len
    ensures WellFormed(AddAll(n, records), len)
    ensures Total(AddAll(n, records)) == Total(n) + |records|
    decreases |records|
  {
    if records != [] {
      AddWellFormed(n, records[0]);
      AddTotal(n, records[0]);
      AddAllWellFormed(Add(n, records[0]), records[1..], len);
    }
  }

  /**
   * `r` contains `n`: every entry of `n` is still there with at least its
   * count, and every child of `n` is still there, contained in the new child.
   */
  ghost predicate Extends(n: Node, r: Node)
    decreases n, 1
  {
    forall v | v in n.valueToInfo :: EntryExtends(n, r, v)
  }

  ghost predicate EntryExtends(n: Node, r: Node, v: string)
    requires v in n.valueToInfo
    decreases n, 0
  {
    var info := n.valueToInfo[v];
    v in r.valueToInfo && r.valueToInfo[v].num >= info.num &&
    (info.next.Some? ==> r.valueToInfo[v].next.Some? && Extends(info.next.value, r.valueToInfo[v].next.value))
  }

  lemma {:induction false} ExtendsItself(n: Node)
    ensures Extends(n, n)
    decreases n
  {
    forall v | v in n.valueToInfo
      ensures EntryExtends(n, n, v)
    {
      if n.valueToInfo[v].next.Some? {
        ExtendsItself(n.valueToInfo[v].next.value);
      }
    }
  }

  /** Insertion never lowers a count and never drops or replaces a child. */
  lemma {:induction false} AddExtends(n: Node, m: seq<string>)
    requires |m| > 0
    ensures Extends(n, Add(n, m))
    decreases |m|
  {
    var r := Add(n, m);
    forall v | v in n.valueToInfo
      ensures EntryExtends(n, r, v)
    {
      var info := n.valueToInfo[v];
      if info.next.Some? {
        if v == m[0] && |m| > 1 {
          AddExtends(info.next.value, m[1..]);
        } else {
          ExtendsItself(info.next.value);
        }
      }
    }
  }

  // ----- The diagnostics: recursive folds over the trie -----

  /** Number of entries in the trie: a node's own entries plus those below them. */
  ghost function Tags(n: Node): int
    decreases n, 1
  {
    |n.valueToInfo| + Sum(map v | v in n.valueToInfo :: ChildTags(n, v))
  }

  ghost function ChildTags(n: Node, v: string): int
    requires v in n.valueToInfo
    decreases n, 0
  {
    match n.valueToInfo[v].next
    case None => 0
    case Some(c) => Tags(c)
  }

  /** Number of nodes in the trie, this one included. */
  ghost function Nodes(n: Node): int
    decreases n, 1
  {
    1 + Sum(map v | v in n.valueToInfo :: ChildNodes(n, v))
  }

  ghost function ChildNodes(n: Node, v: string): int
    requires v in n.valueToInfo
    decreases n, 0
  {
    match n.valueToInfo[v].next
    case None => 0
    case Some(c) => Nodes(c)
  }

  /** Number of entries that have no child. */
  ghost function LeafTags(n: Node): int
    decreases n, 1
  {
    Sum(map v | v in n.valueToInfo :: ChildLeafTags(n, v))
  }

  ghost function ChildLeafTags(n: Node, v: string): int
    requires v in n.valueToInfo
    decreases n, 0
  {
    match n.valueToInfo[v].next
    case None => 1
    case Some(c) => LeafTags(c)
  }

  /** Every node but the root hangs below exactly one entry, and every entry is a leaf or has a node. */
  lemma {:induction false} TagsLeavesNodes(n: Node)
    ensures Tags(n) == LeafTags(n) + Nodes(n) - 1
    decreases n
  {
    forall v | v in n.valueToInfo
      ensures 1 + ChildTags(n, v) == ChildLeafTags(n, v) + ChildNodes(n, v)
    {
      if n.valueToInfo[v].next.Some? {
        TagsLeavesNodes(n.valueToInfo[v].next.value);
      }
    }
    EntriesAddUp(n);
  }

  /** The step of `TagsLeavesNodes`: the relation for every entry adds up to the relation for the node. */
  lemma EntriesAddUp(n: Node)
    requires forall v | v in n.valueToInfo :: 1 + ChildTags(n, v) == ChildLeafTags(n, v) + ChildNodes(n, v)
    ensures Tags(n) == LeafTags(n) + Nodes(n) - 1
  {
    var e := n.valueToInfo;
    var ct := map v | v in e :: ChildTags(n, v);
    var cn := map v | v in e :: ChildNodes(n, v);
    var cl := map v | v in e :: ChildLeafTags(n, v);
    var ones := map v | v in e :: 1;
    var both := map v | v in e :: ChildLeafTags(n, v) + ChildNodes(n, v);
    assert Tags(n) == |e| + Sum(ct);
    assert Nodes(n) == 1 + Sum(cn);
    assert LeafTags(n) == Sum(cl);
    SumConst(ones, 1);
    assert ones.Keys == e.Keys;
    SumAdd(ones, ct, both);
    SumAdd(cl, cn, both);
  }

  method NumTags(n: Node) returns (num: int)
    ensures num == Tags(n)
    decreases n
  {
    ghost var children := map v | v in n.valueToInfo :: ChildTags(n, v);
    assert children.Keys == n.valueToInfo.Keys;
    RestrictAll(children, n.valueToInfo.Keys);
    num := |n.valueToInfo|;
    var rest := n.valueToInfo.Keys;
    while rest != {}
      invariant rest <= n.valueToInfo.Keys
      invariant num + Sum(Restrict(children, rest)) == Tags(n)
      decreases |rest|
    {
      ghost var someKey := Pick(rest);
      var value :| value in rest;
      var info := n.valueToInfo[value];
      SumRemove(Restrict(children, rest), value);
      assert Restrict(children, rest) - {value} == Restrict(children, rest - {value});
      if info.next.Some? {
        var sub := NumTags(info.next.value);
        num := num + sub;
      }
      rest := rest - {value};
    }
    assert Restrict(children, {}) == map[];
  }

  method NumNodes(n: Node) returns (num: int)
    ensures num == Nodes(n)
    decreases n
  {
    ghost var children := map v | v in n.valueToInfo :: ChildNodes(n, v);
    assert children.Keys == n.valueToInfo.Keys;
    RestrictAll(children, n.valueToInfo.Keys);
    num := 1;
    var rest := n.valueToInfo.Keys;
    while rest != {}
      invariant rest <= n.valueToInfo.Keys
      invariant num + Sum(Restrict(children, rest)) == Nodes(n)
      decreases |rest|
    {
      ghost var someKey := Pick(rest);
      var value :| value in rest;
      var info := n.valueToInfo[value];
      SumRemove(Restrict(children, rest), value);
      assert Restrict(children, rest) - {value} == Restrict(children, rest - {value});
      if info.next.Some? {
        var sub := NumNodes(info.next.value);
        num := num + sub;
      }
      rest := rest - {value};
    }
    assert Restrict(children, {}) == map[];
  }

  method NumLeafTags(n: Node) returns (num: int)
    ensures num == LeafTags(n)
    decreases n
  {
    ghost var children := map v | v in n.valueToInfo :: ChildLeafTags(n, v);
    assert children.Keys == n.valueToInfo.Keys;
    RestrictAll(children, n.valueToInfo.Keys);
    num := 0;
    var rest := n.valueToInfo.Keys;
    while rest != {}
      invariant rest <= n.valueToInfo.Keys
      invariant num + Sum(Restrict(children, rest)) == LeafTags(n)
      decreases |rest|
    {
      ghost var someKey := Pick(rest);
      var value :| value in rest;
      var info := n.valueToInfo[value];
      SumRemove(Restrict(children, rest), value);
      assert Restrict(children, rest) - {value} == Restrict(children, rest - {value});
      if info.next.None? {
        num := num + 1;
      } else {
        var sub := NumLeafTags(info.next.value);
        num := num + sub;
      }
      rest := rest - {value};
    }
    assert Restrict(children, {}) == map[];
  }
}
