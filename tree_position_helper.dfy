/**
 * The traversals of the position helper (components/TreePositionHelper.ts:4-34): the edge
 * id of a parent and a child, and two recursive walks that push into an accumulator the
 * caller passes in and gets back.
 */
module PositionHelper {
  import opened Types
  import opened TreeUtils
  import opened StepLog

  /** A growable list shared between a caller and the walks that push into it. */
  class Accumulator<T> {
    var items: seq<T>

    constructor (init: seq<T>)
      ensures items == init
    {
      items := init;
    }

    method Push(x: T)
      modifies this
      ensures items == old(items) + [x]
    {
      items := items + [x];
    }
  }

  /** The id of the edge from `source` to `target`: the key the engines give that edge. */
  function GetEdgeId(source: Tree, target: Tree): (r: string)
    requires source.Node? && target.Node?
    ensures r == EdgeKey(source.id, target.id)
    ensures |r| == |source.id| + 1 + |target.id| && r[|source.id|] == '-'
    ensures r[..|source.id|] == source.id && r[|source.id| + 1..] == target.id
  {
    source.id + "-" + target.id
  }

  /** The nodes of `t` in pre-order: root, then the left subtree, then the right subtree. */
  function PreOrder(t: Tree): seq<Tree>
  {
    match t
    case Nil => []
    case Node(_, _, l, r) => [t] + PreOrder(l) + PreOrder(r)
  }

  /**
   * The (parent, child) pairs of `t`: the left pair, the left subtree's pairs, then the
   * right pair and the right subtree's pairs.
   */
  function EdgePairs(t: Tree): seq<(Tree, Tree)>
  {
    match t
    case Nil => []
    case Node(_, _, l, r) =>
      (if l.Node? then [(t, l)] + EdgePairs(l) else []) + (if r.Node? then [(t, r)] + EdgePairs(r) else [])
  }

  /** `collectNodes`: appends the nodes of `root` in pre-order and returns the same list. */
  method CollectNodes(root: Tree, nodes: Accumulator<Tree>) returns (r: Accumulator<Tree>)
    modifies nodes
    ensures r == nodes
    ensures nodes.items == old(nodes.items) + PreOrder(root)
    decreases root
  {
    if root == Nil {
      return nodes;
    }
    nodes.Push(root);
    var afterLeft := CollectNodes(root.left, nodes);
    var afterRight := CollectNodes(root.right, nodes);
    assert [root] + PreOrder(root.left) + PreOrder(root.right) == PreOrder(root);
    return nodes;
  }

  /** `calculateEdges`: appends the (parent, child) pairs of `root` and returns the same list. */
  method CalculateEdges(root: Tree, edges: Accumulator<(Tree, Tree)>) returns (r: Accumulator<(Tree, Tree)>)
    modifies edges
    ensures r == edges
    ensures edges.items == old(edges.items) + EdgePairs(root)
    decreases root
  {
    if root == Nil {
      return edges;
    }
    ghost var before := edges.items;
    if root.left.Node? {
      edges.Push((root, root.left));
      var afterLeft := CalculateEdges(root.left, edges);
    }
    ghost var middle := edges.items;
    if root.right.Node? {
      edges.Push((root, root.right));
      var afterRight := CalculateEdges(root.right, edges);
    }
    ghost var leftPart := if root.left.Node? then [(root, root.left)] + EdgePairs(root.left) else [];
    ghost var rightPart := if root.right.Node? then [(root, root.right)] + EdgePairs(root.right) else [];
    assert middle == before + leftPart;
    assert edges.items == before + leftPart + rightPart;
    return edges;
  }

  /** The call with the default empty accumulator: exactly the pre-order nodes. */
  method AllNodes(root: Tree) returns (nodes: seq<Tree>)
    ensures |nodes| == Size(root) && |PreOrderValues(root)| == Size(root)
    ensures forall i :: 0 <= i < |nodes| ==> nodes[i].Node? && nodes[i].val == PreOrderValues(root)[i]
  {
    var acc := new Accumulator<Tree>([]);
    var same := CollectNodes(root, acc);
    nodes := acc.items;
    PreOrderMatchesValues(root);
  }

  /** The call with the default empty accumulator: one pair per parent-child link. */
  method AllEdges(root: Tree) returns (edges: seq<(Tree, Tree)>)
    ensures root.Node? ==> |edges| == Size(root) - 1
    ensures root == Nil ==> edges == []
    ensures forall i :: 0 <= i < |edges| ==> IsChildLink(edges[i])
  {
    var acc := new Accumulator<(Tree, Tree)>([]);
    var same := CalculateEdges(root, acc);
    edges := acc.items;
    EdgePairsCount(root);
    EdgePairsAreLinks(root);
  }

  /** There is one pre-order entry per node, and it holds that node's value. */
  lemma {:induction false} PreOrderMatchesValues(t: Tree)
    ensures |PreOrder(t)| == Size(t) && |PreOrderValues(t)| == Size(t)
    ensures forall i :: 0 <= i < |PreOrder(t)| ==> PreOrder(t)[i].Node? && PreOrder(t)[i].val == PreOrderValues(t)[i]
  {
    match t
    case Nil =>
    case Node(v, _, l, r) =>
      PreOrderMatchesValues(l);
      PreOrderMatchesValues(r);
      forall i | 0 <= i < |PreOrder(t)|
        ensures PreOrder(t)[i].Node? && PreOrder(t)[i].val == PreOrderValues(t)[i]
      {
        if i == 0 {
        } else if i <= Size(l) {
          assert PreOrder(t)[i] == PreOrder(l)[i - 1];
          assert PreOrderValues(t)[i] == PreOrderValues(l)[i - 1];
        } else {
          assert PreOrder(t)[i] == PreOrder(r)[i - 1 - Size(l)];
          assert PreOrderValues(t)[i] == PreOrderValues(r)[i - 1 - Size(l)];
        }
      }
  }

  /** Every node but the root is the child end of exactly one pair. */
  lemma {:induction false} EdgePairsCount(t: Tree)
    ensures t.Node? ==> |EdgePairs(t)| == Size(t) - 1
    ensures t == Nil ==> EdgePairs(t) == []
  {
    match t
    case Nil =>
    case Node(_, _, l, r) =>
      EdgePairsCount(l);
      EdgePairsCount(r);
  }

  /** The second node of a pair is the first node's left or right child. */
  predicate IsChildLink(e: (Tree, Tree))
  {
    e.0.Node? && e.1.Node? && (e.1 == e.0.left || e.1 == e.0.right)
  }

  lemma {:induction false} EdgePairsAreLinks(t: Tree)
    ensures forall i :: 0 <= i < |EdgePairs(t)| ==> IsChildLink(EdgePairs(t)[i])
  {
    match t
    case Nil =>
    case Node(_, _, l, r) =>
      EdgePairsAreLinks(l);
      EdgePairsAreLinks(r);
      var a := if l.Node? then [(t, l)] + EdgePairs(l) else [];
      var b := if r.Node? then [(t, r)] + EdgePairs(r) else [];
      assert forall i :: 0 <= i < |a| ==> IsChildLink(a[i]);
      assert forall i :: 0 <= i < |b| ==> IsChildLink(b[i]);
      assert EdgePairs(t) == a + b;
  }

  /** The edge ids of a list of pairs, in order. */
  function EdgeIds(pairs: seq<(Tree, Tree)>): seq<string>
    requires forall i :: 0 <= i < |pairs| ==> pairs[i].0.Node? && pairs[i].1.Node?
  {
    if pairs == [] then [] else [GetEdgeId(pairs[0].0, pairs[0].1)] + EdgeIds(pairs[1..])
  }

  lemma {:induction false} EdgeIdsAppend(a: seq<(Tree, Tree)>, b: seq<(Tree, Tree)>)
    requires forall i :: 0 <= i < |a| ==> a[i].0.Node? && a[i].1.Node?
    requires forall i :: 0 <= i < |b| ==> b[i].0.Node? && b[i].1.Node?
    ensures EdgeIds(a + b) == EdgeIds(a) + EdgeIds(b)
  {
    if a == [] {
      assert a + b == b;
    } else {
      assert (a + b)[0] == a[0] && (a + b)[1..] == a[1..] + b;
      EdgeIdsAppend(a[1..], b);
    }
  }

  /**
   * In a tree whose nodes all have ids, the ids of the edges the helper lists are exactly
   * the edge keys the engines draw, inside the tree and below `parent`'s link into it.
   */
  lemma {:induction false} EdgeIdsAreEngineKeys(parent: string, t: Tree)
    requires Named(t)
    decreases t
    ensures EdgePairsAreLinksAt(t)
    ensures t.Node? ==> forall k :: k in EdgeKeys(parent, t) <==> k in EdgeInto(parent, t.id) || k in EdgeIds(EdgePairs(t))
  {
    EdgePairsAreLinks(t);
    match t
    case Nil =>
    case Node(_, id, l, r) =>
      EdgeIdsAreEngineKeys(id, l);
      EdgeIdsAreEngineKeys(id, r);
      var a := if l.Node? then [(t, l)] + EdgePairs(l) else [];
      var b := if r.Node? then [(t, r)] + EdgePairs(r) else [];
      assert forall i :: 0 <= i < |a| ==> IsChildLink(a[i]);
      assert forall i :: 0 <= i < |b| ==> IsChildLink(b[i]);
      EdgeIdsAppend(a, b);
      if l.Node? {
        EdgeIdsAppend([(t, l)], EdgePairs(l));
      }
      if r.Node? {
        EdgeIdsAppend([(t, r)], EdgePairs(r));
      }
  }

  predicate EdgePairsAreLinksAt(t: Tree)
  {
    forall i :: 0 <= i < |EdgePairs(t)| ==> IsChildLink(EdgePairs(t)[i])
  }

  /** For a whole tree (no link into its root) the two key sets coincide. */
  lemma EdgeIdsOfTree(t: Tree)
    requires Named(t)
    ensures EdgePairsAreLinksAt(t)
    ensures forall k :: k in EdgeKeys("", t) <==> k in EdgeIds(EdgePairs(t))
  {
    EdgeIdsAreEngineKeys("", t);
  }
}
