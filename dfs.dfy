/**
 * generateDFSAnimationSteps (dfsAlgorithm.ts:8-482): a recursive pre-order merge that
 * records one step per narration, highlighting and then restoring the nodes it visits.
 */
module DfsAlgorithm {
  import opened Types
  import opened TreeUtils
  import opened StepLog

  // ---------------------------------------------------------------------------------------
  // Specification

  /**
   * The tree the recursion builds. A position where both trees are empty stays empty;
   * otherwise the merged node holds the sum of the values present (the lone value when only
   * one tree has a node) and the id `merged-<id1>-<id2>`, with `null` for a missing node.
   */
  function DfsMerged(n1: Tree, n2: Tree): Tree
    decreases Size(n1) + Size(n2)
  {
    if n1 == Nil && n2 == Nil then Nil
    else Node(ValueOr0(n1) + ValueOr0(n2), "merged-" + IdOrNull(n1) + "-" + IdOrNull(n2),
              DfsMerged(Child(n1, Left), Child(n2, Left)), DfsMerged(Child(n1, Right), Child(n2, Right)))
  }

  function IdOrNull(t: Tree): string
  {
    if t.Node? then t.id else "null"
  }

  /** The two announcement steps before a child position, given only if a child has an id. */
  function Announce(dir: Dir, c1: Tree, c2: Tree): seq<StepKind>
  {
    if HasId(c1) || HasId(c2) then [RecurseInto(dir), PrepareChild(dir)] else []
  }

  /** The narration the recursion emits at a position, at recursion depth `depth`. */
  function DfsNarration(n1: Tree, n2: Tree, depth: nat): (r: seq<StepKind>)
    ensures |r| >= 1
    ensures r[0] == if n1 == Nil && n2 == Nil then BothNull
                    else if n2 == Nil then UseOnly(First, n1.val)
                    else if n1 == Nil then UseOnly(Second, n2.val)
                    else MergeNodes(n1.val, n2.val, n1.val + n2.val)
    decreases Size(n1) + Size(n2)
  {
    if n1 == Nil && n2 == Nil then [BothNull]
    else if n2 == Nil then
      [UseOnly(First, n1.val)]
      + (if n1.left.Node? then DfsNarration(n1.left, Nil, depth + 1) else [])
      + (if n1.right.Node? then DfsNarration(n1.right, Nil, depth + 1) else [])
    else if n1 == Nil then
      [UseOnly(Second, n2.val)]
      + (if n2.left.Node? then DfsNarration(Nil, n2.left, depth + 1) else [])
      + (if n2.right.Node? then DfsNarration(Nil, n2.right, depth + 1) else [])
    else
      [MergeNodes(n1.val, n2.val, n1.val + n2.val)]
      + Announce(Left, n1.left, n2.left)
      + DfsNarration(n1.left, n2.left, depth + 1)
      + (if n1.left.Node? || n2.left.Node? then [LeftDone] else [])
      + Announce(Right, n1.right, n2.right)
      + DfsNarration(n1.right, n2.right, depth + 1)
      + (if depth > 0 then [SubtreeDone(n1.val + n2.val)] else [])
  }

  /** Only the styles of the two nodes about to be visited may be unsettled. */
  ghost predicate RootsOnlyUnsettled(nodes: map<string, NodeState>, n1: Tree, n2: Tree)
  {
    forall k :: k in nodes && !Settled(nodes[k]) ==> (HasId(n1) && k == n1.id) || (HasId(n2) && k == n2.id)
  }

  /**
   * The one step a visit appends shows its highlight, and the merged node's edge (given a
   * parent) at width 1.5 and opacity 0.7.
   */
  ghost predicate ShowsVisit(log: Log, out: Log, n1: Tree, n2: Tree, id: string, val: int, parent: string)
  {
    |out.steps| == |log.steps| + 1
    && var shown := out.steps[|log.steps|].snapshot;
    Highlighted(shown.nodesState, n1, n2, Node(val, id, Nil, Nil))
    && (parent != "" ==> EdgeKey(parent, id) in shown.edgesState && shown.edgesState[EdgeKey(parent, id)] == TentativeEdge)
  }

  /** What a visit shows: the sources blue and orange, and the merged node `id` green with `val`. */
  function VisitInks(n1: Tree, n2: Tree, id: string, val: int): set<Ink>
  {
    InkOf(n1, Blue) + InkOf(n2, Orange) + {Ink(id, val, Green)}
  }

  /** What one call may show: the nodes of `n1` blue, of `n2` orange, of the merged subtree green. */
  function DfsInks(n1: Tree, n2: Tree): set<Ink>
  {
    Inks(n1, Blue) + Inks(n2, Orange) + Inks(DfsMerged(n1, n2), Green)
  }

  /**
   * What one call `dfs(n1, n2, parent, _, depth)` does to the log and returns: it appends
   * its narration, returns the merged subtree, adds the styles of every node it visits or
   * creates and leaves every other style alone, draws exactly the edges into and within the
   * merged subtree at width 1.5 and opacity 0.7, and leaves every node it touched restored.
   */
  ghost predicate Performs(n1: Tree, n2: Tree, parent: string, depth: nat, log: Log, out: Log, node: Tree)
  {
    node == DfsMerged(n1, n2)
    && Extends(log, out, DfsNarration(n1, n2, depth), Ids(n1) + Ids(n2) + Ids(node), EdgeKeys(parent, node), TentativeEdge)
    && (RootsOnlyUnsettled(log.nodes, n1, n2) ==> AllSettled(out.nodes))
  }

  /** A lone tree merged with nothing keeps its shape and values (only the ids change). */
  lemma {:induction false} DfsMergedWithNothing(t: Tree)
    ensures Erase(DfsMerged(t, Nil)) == Erase(t) && Erase(DfsMerged(Nil, t)) == Erase(t)
    decreases t
  {
    if t.Node? {
      DfsMergedWithNothing(t.left);
      DfsMergedWithNothing(t.right);
    }
  }

  /** Up to ids, the tree the recursion builds is the reference merge `mergeTrees`. */
  lemma {:induction false} DfsMergedIsMergeTrees(n1: Tree, n2: Tree, newId: Path -> string, at: Path)
    ensures Erase(DfsMerged(n1, n2)) == Erase(MergeTrees(n1, n2, newId, at))
    decreases Size(n1) + Size(n2)
  {
    if n1 == Nil || n2 == Nil {
      DfsMergedWithNothing(if n1 == Nil then n2 else n1);
    } else {
      DfsMergedIsMergeTrees(n1.left, n2.left, newId, at + [Left]);
      DfsMergedIsMergeTrees(n1.right, n2.right, newId, at + [Right]);
    }
  }

  /** Position by position, the recursion's tree holds the sum, the lone value, or nothing. */
  lemma DfsValuesFollowMergeRule(n1: Tree, n2: Tree, p: Path)
    ensures ValueAt(DfsMerged(n1, n2), p) == AddValues(ValueAt(n1, p), ValueAt(n2, p))
  {
    var newId := (q: Path) => "";
    DfsMergedIsMergeTrees(n1, n2, newId, []);
    ValueAtErase(DfsMerged(n1, n2), p);
    ValueAtErase(MergeTrees(n1, n2, newId, []), p);
    MergeIsPositionwiseSum(n1, n2, newId, [], p);
  }

  /** The values the narration reports as placed, in the order it reports them. */
  function Placed(ks: seq<StepKind>): seq<int>
  {
    if ks == [] then []
    else
      (match ks[0]
       case UseOnly(_, v) => [v]
       case MergeNodes(_, _, sum) => [sum]
       case _ => [])
      + Placed(ks[1..])
  }

  lemma {:induction false} PlacedAppend(a: seq<StepKind>, b: seq<StepKind>)
    ensures Placed(a + b) == Placed(a) + Placed(b)
    decreases |a|
  {
    if a != [] {
      assert (a + b)[1..] == a[1..] + b;
      PlacedAppend(a[1..], b);
    } else {
      assert a + b == b;
    }
  }

  /** The narration places the merged values one node at a time, in pre-order. */
  lemma {:induction false} NarrationPlacesInPreOrder(n1: Tree, n2: Tree, depth: nat)
    ensures Placed(DfsNarration(n1, n2, depth)) == PreOrderValues(DfsMerged(n1, n2))
    decreases Size(n1) + Size(n2), 1
  {
    if n1 == Nil && n2 == Nil {
      assert Placed([BothNull]) == Placed([]);
    } else if n2 == Nil {
      OnlyPlaced(First, n1, depth);
    } else if n1 == Nil {
      OnlyPlaced(Second, n2, depth);
    } else {
      NarrationPlacesInPreOrder(n1.left, n2.left, depth + 1);
      NarrationPlacesInPreOrder(n1.right, n2.right, depth + 1);
      BothPlaced(n1, n2, depth);
    }
  }

  lemma BothPlaced(n1: Tree, n2: Tree, depth: nat)
    requires n1.Node? && n2.Node?
    requires Placed(DfsNarration(n1.left, n2.left, depth + 1)) == PreOrderValues(DfsMerged(n1.left, n2.left))
    requires Placed(DfsNarration(n1.right, n2.right, depth + 1)) == PreOrderValues(DfsMerged(n1.right, n2.right))
    ensures Placed(DfsNarration(n1, n2, depth)) == PreOrderValues(DfsMerged(n1, n2))
  {
    BothNarration(n1, n2, depth);
    BothMerged(n1, n2);
    var v := n1.val + n2.val;
    var d := if n1.left.Node? || n2.left.Node? then [LeftDone] else [];
    var g := if depth > 0 then [SubtreeDone(v)] else [];
    SilentSteps(n1, n2, depth);
    PlacedShape([MergeNodes(n1.val, n2.val, v)], Announce(Left, n1.left, n2.left), DfsNarration(n1.left, n2.left, depth + 1), d,
                Announce(Right, n1.right, n2.right), DfsNarration(n1.right, n2.right, depth + 1), g, v);
  }

  lemma PlacedShape(a: seq<StepKind>, b: seq<StepKind>, c: seq<StepKind>, d: seq<StepKind>,
                    e: seq<StepKind>, f: seq<StepKind>, g: seq<StepKind>, v: int)
    requires |a| == 1 && a[0].MergeNodes? && a[0].sum == v
    requires Placed(b) == [] && Placed(d) == [] && Placed(e) == [] && Placed(g) == []
    ensures Placed(a + (((b + c) + d) + ((e + f) + g))) == [v] + Placed(c) + Placed(f)
  {
    Regroup7(a, b, c, d, e, f, g);
    Placed7(a, b, c, d, e, f, g);
    assert Placed(a) == [v] by { assert a[1..] == []; }
  }

  lemma SilentSteps(n1: Tree, n2: Tree, depth: nat)
    requires n1.Node? && n2.Node?
    ensures Placed(Announce(Left, n1.left, n2.left)) == [] && Placed(Announce(Right, n1.right, n2.right)) == []
    ensures Placed(if n1.left.Node? || n2.left.Node? then [LeftDone] else []) == []
    ensures Placed(if depth > 0 then [SubtreeDone(n1.val + n2.val)] else []) == []
  {
    PlacedSilent(Announce(Left, n1.left, n2.left));
    PlacedSilent(Announce(Right, n1.right, n2.right));
    PlacedSilent(if n1.left.Node? || n2.left.Node? then [LeftDone] else []);
    PlacedSilent(if depth > 0 then [SubtreeDone(n1.val + n2.val)] else []);
  }

  /** Steps that place no value. */
  predicate Silent(k: StepKind)
  {
    !k.UseOnly? && !k.MergeNodes?
  }

  lemma {:induction false} PlacedSilent(ks: seq<StepKind>)
    requires forall i :: 0 <= i < |ks| ==> Silent(ks[i])
    ensures Placed(ks) == []
    decreases |ks|
  {
    if ks != [] {
      PlacedSilent(ks[1..]);
    }
  }

  lemma Placed7(a: seq<StepKind>, b: seq<StepKind>, c: seq<StepKind>, d: seq<StepKind>,
                e: seq<StepKind>, f: seq<StepKind>, g: seq<StepKind>)
    ensures Placed(a + b + c + d + e + f + g)
         == Placed(a) + Placed(b) + Placed(c) + Placed(d) + Placed(e) + Placed(f) + Placed(g)
  {
    PlacedAppend(a + b + c + d + e + f, g);
    PlacedAppend(a + b + c + d + e, f);
    PlacedAppend(a + b + c + d, e);
    PlacedAppend(a + b + c, d);
    PlacedAppend(a + b, c);
    PlacedAppend(a, b);
  }

  lemma {:induction false} OnlyPlaced(side: Side, t: Tree, depth: nat)
    requires t.Node?
    ensures Placed(DfsNarration(Arrange(side, t).0, Arrange(side, t).1, depth))
         == PreOrderValues(DfsMerged(Arrange(side, t).0, Arrange(side, t).1))
    decreases Size(t), 0
  {
    var a := [UseOnly(side, t.val)];
    var b, c := OnlyNarration(side, t.left, depth), OnlyNarration(side, t.right, depth);
    OnlyNarrationSplit(side, t, depth);
    OnlyMerged(side, t);
    if t.left.Node? {
      NarrationPlacesInPreOrder(Arrange(side, t.left).0, Arrange(side, t.left).1, depth + 1);
    }
    if t.right.Node? {
      NarrationPlacesInPreOrder(Arrange(side, t.right).0, Arrange(side, t.right).1, depth + 1);
    }
    PlacedAppend(a + b, c);
    PlacedAppend(a, b);
  }

  // ---------------------------------------------------------------------------------------
  // The engine

  function SideColor(side: Side): Color
  {
    if side == First then Blue else Orange
  }

  /** The pair of nodes a call receives when only `side` has the node `t`. */
  function Arrange(side: Side, t: Tree): (Tree, Tree)
  {
    if side == First then (t, Nil) else (Nil, t)
  }

  /** The inner `dfs`: merges the nodes at one position of the two trees. */
  method Dfs(n1: Tree, n2: Tree, parent: string, depth: nat, log: Log) returns (out: Log, node: Tree)
    requires Good(log)
    ensures Performs(n1, n2, parent, depth, log, out, node)
    ensures Repainted(log.nodes, out.nodes, DfsInks(n1, n2))
    decreases Size(n1) + Size(n2), 2
  {
    if n1 == Nil && n2 == Nil {
      out := Push(log, BothNull);
      node := Nil;
      PushExtends(log, BothNull, TentativeEdge);
      ExtendsSame(log, out, [BothNull], {}, {}, DfsNarration(n1, n2, depth), Ids(n1) + Ids(n2) + Ids(node), EdgeKeys(parent, node), TentativeEdge);
    } else if n2 == Nil {
      out, node := DfsOnly(First, n1, parent, depth, log);
    } else if n1 == Nil {
      out, node := DfsOnly(Second, n2, parent, depth, log);
    } else {
      out, node := DfsBoth(n1, n2, parent, depth, log);
    }
  }

  /**
   * The visit of one position: highlight the source nodes, draw the merged node (and its
   * edge, given a parent) tentatively, narrate `kind`, then restore all of them.
   */
  method VisitNode(n1: Tree, n2: Tree, id: string, val: int, parent: string, kind: StepKind, log: Log)
    returns (out: Log)
    requires Good(log) && id != ""
    ensures Extends(log, out, [kind], IdSet(n1) + IdSet(n2) + {id}, EdgeInto(parent, id), TentativeEdge)
    ensures RootsOnlyUnsettled(log.nodes, n1, n2) ==> AllSettled(out.nodes)
    ensures ShowsVisit(log, out, n1, n2, id, val, parent)
    ensures Repainted(log.nodes, out.nodes, VisitInks(n1, n2, id, val))
  {
    var merged := CreateTreeNode(val, id, "");
    var touched := IdSet(n1) + IdSet(n2) + {id};
    var o1 := Highlight(n1, n2, merged, parent, log);
    out := NarrateAndRestore(kind, n1, n2, merged, o1);
    RepaintedTrans(log.nodes, o1.nodes, out.nodes, InkOf(n1, Blue) + InkOf(n2, Orange) + InkOf(merged, Green),
                   InkOf(n1, Blue) + InkOf(n2, Orange) + InkOf(merged, Green), VisitInks(n1, n2, id, val));
    assert touched + touched == touched;
    assert EdgeInto(parent, id) + {} == EdgeInto(parent, id);
    ExtendsChain(log, o1, out, [], touched, EdgeInto(parent, id), [kind], touched, {}, [kind], touched, EdgeInto(parent, id), TentativeEdge);
    if RootsOnlyUnsettled(log.nodes, n1, n2) {
      SettledAfter(log.nodes, out.nodes, touched);
    }
  }

  /** `if (n1.id)` paint `n1` blue and `if (n2.id)` paint `n2` orange, at the given scale and opacity. */
  method PaintSources(n1: Tree, n2: Tree, scale: int, opacity: int, log: Log) returns (out: Log)
    requires Good(log)
    ensures Extends(log, out, [], IdSet(n1) + IdSet(n2), {}, TentativeEdge)
    ensures HasId(n1) ==> out.nodes[n1.id].scale == scale && out.nodes[n1.id].opacity == opacity
    ensures HasId(n2) ==> out.nodes[n2.id].scale == scale && out.nodes[n2.id].opacity == opacity
    ensures Shows(out.nodes, n2, Orange, scale, opacity) && (Apart(n1, n2) ==> Shows(out.nodes, n1, Blue, scale, opacity))
    ensures out.steps == log.steps && out.edges == log.edges
    ensures Repainted(log.nodes, out.nodes, InkOf(n1, Blue) + InkOf(n2, Orange))
  {
    var o1 := SetNode(log, n1, Blue, scale, opacity);
    SetNodeExtends(log, n1, Blue, scale, opacity, TentativeEdge);
    out := SetNode(o1, n2, Orange, scale, opacity);
    SetNodeExtends(o1, n2, Orange, scale, opacity, TentativeEdge);
    ExtendsTrans(log, o1, out, [], IdSet(n1), {}, [], IdSet(n2), {}, TentativeEdge);
    SetNodeRepaints(log, n1, Blue, scale, opacity);
    SetNodeRepaints(o1, n2, Orange, scale, opacity);
    RepaintedTrans(log.nodes, o1.nodes, out.nodes, InkOf(n1, Blue), InkOf(n2, Orange), InkOf(n1, Blue) + InkOf(n2, Orange));
  }

  /** Source nodes at scale 1.2, the merged node at scale 1.2 and opacity 0.7, and its edge. */
  method Highlight(n1: Tree, n2: Tree, merged: Tree, parent: string, log: Log) returns (out: Log)
    requires Good(log) && HasId(merged)
    ensures Extends(log, out, [], IdSet(n1) + IdSet(n2) + {merged.id}, EdgeInto(parent, merged.id), TentativeEdge)
    ensures out.steps == log.steps && Highlighted(out.nodes, n1, n2, merged)
    ensures Repainted(log.nodes, out.nodes, InkOf(n1, Blue) + InkOf(n2, Orange) + InkOf(merged, Green))
  {
    var touched := IdSet(n1) + IdSet(n2) + {merged.id};
    var o1 := PaintSources(n1, n2, 12, 10, log);
    var o2 := SetNode(o1, merged, Green, 12, 7);
    SetNodeExtends(o1, merged, Green, 12, 7, TentativeEdge);
    var none: seq<StepKind>, noKeys: set<string> := [], {};
    HighlightJoin(n1, n2, merged, parent);
    Nothing(none, noKeys);
    ExtendsChain(log, o1, o2, none, IdSet(n1) + IdSet(n2), noKeys, none, IdSet(merged), noKeys, none, touched, noKeys, TentativeEdge);
    SetNodeRepaints(o1, merged, Green, 12, 7);
    RepaintedTrans(log.nodes, o1.nodes, o2.nodes, InkOf(n1, Blue) + InkOf(n2, Orange), InkOf(merged, Green),
                   InkOf(n1, Blue) + InkOf(n2, Orange) + InkOf(merged, Green));
    out := DrawEdge(parent, merged.id, o2);
    ExtendsChain(log, o2, out, none, touched, noKeys, none, noKeys, EdgeInto(parent, merged.id), none, touched, EdgeInto(parent, merged.id), TentativeEdge);
  }

  lemma HighlightJoin(n1: Tree, n2: Tree, merged: Tree, parent: string)
    requires HasId(merged)
    ensures IdSet(n1) + IdSet(n2) + {merged.id} == IdSet(n1) + IdSet(n2) + IdSet(merged)
    ensures IdSet(n1) + IdSet(n2) + {merged.id} == IdSet(n1) + IdSet(n2) + {merged.id} + {}
    ensures EdgeInto(parent, merged.id) == {} + EdgeInto(parent, merged.id)
  {
  }

  lemma Nothing(k: seq<StepKind>, e: set<string>)
    requires k == [] && e == {}
    ensures k == k + k && e == e + e
  {
  }

  /** `if (parentMergedId) edgesState.set("<parent>-<id>", ...)` at width 1.5 and opacity 0.7. */
  method DrawEdge(parent: string, id: string, log: Log) returns (out: Log)
    requires Good(log)
    ensures Extends(log, out, [], {}, EdgeInto(parent, id), TentativeEdge)
    ensures out.steps == log.steps && out.nodes == log.nodes
  {
    if parent != "" {
      out := SetEdge(log, EdgeKey(parent, id), TentativeEdge);
      SetEdgeExtends(log, EdgeKey(parent, id), TentativeEdge);
    } else {
      out := log;
      ExtendsRefl(log, TentativeEdge);
    }
  }

  /** The step narrating `kind`, then every highlighted node back at scale 1 and opacity 1. */
  method NarrateAndRestore(kind: StepKind, n1: Tree, n2: Tree, merged: Tree, log: Log) returns (out: Log)
    requires Good(log) && HasId(merged)
    ensures Extends(log, out, [kind], IdSet(n1) + IdSet(n2) + {merged.id}, {}, TentativeEdge)
    ensures forall k :: k in IdSet(n1) + IdSet(n2) + {merged.id} ==> Settled(out.nodes[k])
    ensures |out.steps| == |log.steps| + 1 && out.steps[|log.steps|].snapshot.nodesState == log.nodes
    ensures out.steps[|log.steps|].snapshot.edgesState == log.edges
    ensures Repainted(log.nodes, out.nodes, InkOf(n1, Blue) + InkOf(n2, Orange) + InkOf(merged, Green))
  {
    var o1 := PushThenPaint(kind, n1, n2, 10, 10, log);
    out := SetNode(o1, merged, Green, 10, 10);
    SetNodeExtends(o1, merged, Green, 10, 10, TentativeEdge);
    SetNodeRepaints(o1, merged, Green, 10, 10);
    RepaintedTrans(log.nodes, o1.nodes, out.nodes, InkOf(n1, Blue) + InkOf(n2, Orange), InkOf(merged, Green),
                   InkOf(n1, Blue) + InkOf(n2, Orange) + InkOf(merged, Green));
    assert IdSet(merged) == {merged.id};
    ExtendsChain(log, o1, out, [kind], IdSet(n1) + IdSet(n2), {}, [], IdSet(merged), {},
                 [kind], IdSet(n1) + IdSet(n2) + {merged.id}, {}, TentativeEdge);
  }

  /** The branch where only `side` has a node `t`: reuse its value, recurse into its children. */
  method DfsOnly(side: Side, t: Tree, parent: string, depth: nat, log: Log) returns (out: Log, node: Tree)
    requires t.Node? && Good(log)
    ensures Performs(Arrange(side, t).0, Arrange(side, t).1, parent, depth, log, out, node)
    ensures Repainted(log.nodes, out.nodes, DfsInks(Arrange(side, t).0, Arrange(side, t).1))
    decreases Size(t), 1
  {
    var (n1, n2) := Arrange(side, t);
    var id := if side == First then "merged-" + t.id + "-null" else "merged-null-" + t.id;
    var o1 := VisitNode(n1, n2, id, t.val, parent, UseOnly(side, t.val), log);
    var o2, left := OnlyChild(side, t.left, id, depth, o1);
    var right;
    out, right := OnlyChild(side, t.right, id, depth, o2);
    node := Node(t.val, id, left, right);
    OnlyFinish(side, t, parent, depth, log, o1, o2, out, id, left, right);
    OnlyInks(side, t, id, log.nodes, o1.nodes, o2.nodes, out.nodes);
  }

  /** The visit of a lone node and its two child positions show only what the call may show. */
  lemma OnlyInks(side: Side, t: Tree, id: string, a: map<string, NodeState>, b: map<string, NodeState>,
                 c: map<string, NodeState>, d: map<string, NodeState>)
    requires t.Node? && id == if side == First then "merged-" + t.id + "-null" else "merged-null-" + t.id
    requires Repainted(a, b, VisitInks(Arrange(side, t).0, Arrange(side, t).1, id, t.val))
    requires Repainted(b, c, DfsInks(Arrange(side, t.left).0, Arrange(side, t.left).1))
    requires Repainted(c, d, DfsInks(Arrange(side, t.right).0, Arrange(side, t.right).1))
    ensures Repainted(a, d, DfsInks(Arrange(side, t).0, Arrange(side, t).1))
  {
    var w := DfsInks(Arrange(side, t).0, Arrange(side, t).1);
    OnlyMerged(side, t);
    InksOfNode(t, Blue);
    InksOfNode(t, Orange);
    InksOfNode(DfsMerged(Arrange(side, t).0, Arrange(side, t).1), Green);
    RepaintedTrans(a, b, c, VisitInks(Arrange(side, t).0, Arrange(side, t).1, id, t.val),
                   DfsInks(Arrange(side, t.left).0, Arrange(side, t.left).1), w);
    RepaintedTrans(a, c, d, w, DfsInks(Arrange(side, t.right).0, Arrange(side, t.right).1), w);
  }

  /** The inks of a node: its own, then those of its subtrees. */
  lemma InksOfNode(t: Tree, color: Color)
    requires t.Node?
    ensures Inks(t, color) == InkOf(t, color) + Inks(t.left, color) + Inks(t.right, color)
  {
  }

  /** The visit and the two child positions of a lone node add up to one call's work. */
  lemma OnlyFinish(side: Side, t: Tree, parent: string, depth: nat, log: Log, o1: Log, o2: Log, o3: Log,
                   id: string, left: Tree, right: Tree)
    requires t.Node? && id == if side == First then "merged-" + t.id + "-null" else "merged-null-" + t.id
    requires left == DfsMerged(Arrange(side, t.left).0, Arrange(side, t.left).1)
    requires right == DfsMerged(Arrange(side, t.right).0, Arrange(side, t.right).1)
    requires Extends(log, o1, [UseOnly(side, t.val)], IdSet(Arrange(side, t).0) + IdSet(Arrange(side, t).1) + {id}, EdgeInto(parent, id), TentativeEdge)
    requires Extends(o1, o2, OnlyNarration(side, t.left, depth), Ids(t.left) + Ids(left), EdgeKeys(id, left), TentativeEdge)
    requires Extends(o2, o3, OnlyNarration(side, t.right, depth), Ids(t.right) + Ids(right), EdgeKeys(id, right), TentativeEdge)
    requires RootsOnlyUnsettled(log.nodes, Arrange(side, t).0, Arrange(side, t).1) ==> AllSettled(o1.nodes)
    requires (AllSettled(o1.nodes) ==> AllSettled(o2.nodes)) && (AllSettled(o2.nodes) ==> AllSettled(o3.nodes))
    ensures Performs(Arrange(side, t).0, Arrange(side, t).1, parent, depth, log, o3, Node(t.val, id, left, right))
  {
    var node := Node(t.val, id, left, right);
    OnlyMerged(side, t);
    OnlyNarrationSplit(side, t, depth);
    OnlyIds(side, t, id, left, right);
    NodeEdges(parent, t.val, id, left, right);
    ExtendsChain3(log, o1, o2, o3,
                  [UseOnly(side, t.val)], IdSet(Arrange(side, t).0) + IdSet(Arrange(side, t).1) + {id}, EdgeInto(parent, id),
                  OnlyNarration(side, t.left, depth), Ids(t.left) + Ids(left), EdgeKeys(id, left),
                  OnlyNarration(side, t.right, depth), Ids(t.right) + Ids(right), EdgeKeys(id, right),
                  DfsNarration(Arrange(side, t).0, Arrange(side, t).1, depth),
                  Ids(Arrange(side, t).0) + Ids(Arrange(side, t).1) + Ids(node), EdgeKeys(parent, node), TentativeEdge);
  }

  /** The merged node of a lone node: its value, the id naming it and `null`, merged children. */
  lemma OnlyMerged(side: Side, t: Tree)
    requires t.Node?
    ensures DfsMerged(Arrange(side, t).0, Arrange(side, t).1)
         == Node(t.val, if side == First then "merged-" + t.id + "-null" else "merged-null-" + t.id,
                 DfsMerged(Arrange(side, t.left).0, Arrange(side, t.left).1),
                 DfsMerged(Arrange(side, t.right).0, Arrange(side, t.right).1))
  {
    if side == First {
      assert "merged-" + t.id + "-" + "null" == "merged-" + t.id + "-null";
    } else {
      assert "merged-" + "null" + "-" + t.id == "merged-null-" + t.id;
    }
  }

  /** The merged node of two nodes: the sum, the id naming both, merged children. */
  lemma BothMerged(n1: Tree, n2: Tree)
    requires n1.Node? && n2.Node?
    ensures DfsMerged(n1, n2) == Node(n1.val + n2.val, "merged-" + n1.id + "-" + n2.id,
                                      DfsMerged(n1.left, n2.left), DfsMerged(n1.right, n2.right))
  {
  }

  /** The narration of a lone child position: nothing when the child is absent. */
  function OnlyNarration(side: Side, c: Tree, depth: nat): seq<StepKind>
  {
    if c.Node? then DfsNarration(Arrange(side, c).0, Arrange(side, c).1, depth + 1) else []
  }

  lemma OnlyNarrationSplit(side: Side, t: Tree, depth: nat)
    requires t.Node?
    ensures [UseOnly(side, t.val)] + OnlyNarration(side, t.left, depth) + OnlyNarration(side, t.right, depth)
         == DfsNarration(Arrange(side, t).0, Arrange(side, t).1, depth)
  {
  }

  lemma OnlyIds(side: Side, t: Tree, id: string, left: Tree, right: Tree)
    requires t.Node? && id != ""
    ensures IdSet(Arrange(side, t).0) + IdSet(Arrange(side, t).1) + {id} + (Ids(t.left) + Ids(left)) + (Ids(t.right) + Ids(right))
         == Ids(Arrange(side, t).0) + Ids(Arrange(side, t).1) + Ids(Node(t.val, id, left, right))
  {
    var node := Node(t.val, id, left, right);
    IdsOfNode(t);
    IdsOfNode(node);
    if side == First {
      RegroupOnly(IdSet(t), {}, {id}, Ids(t.left), Ids(left), Ids(t.right), Ids(right));
    } else {
      RegroupOnly({}, IdSet(t), {id}, Ids(t.left), Ids(left), Ids(t.right), Ids(right));
    }
  }

  lemma RegroupOnly(a: set<string>, b: set<string>, c: set<string>, d: set<string>, e: set<string>,
                    f: set<string>, g: set<string>)
    ensures a + b + c + (d + e) + (f + g) == (a + d + f) + (b + {}) + (c + e + g)
    ensures a + b + c + (d + e) + (f + g) == (a + {}) + (b + d + f) + (c + e + g)
  {
  }

  /** `if (t.left) mergedNode.left = dfs(...)` for a lone node's child `c`. */
  method OnlyChild(side: Side, c: Tree, id: string, depth: nat, log: Log) returns (out: Log, child: Tree)
    requires Good(log)
    ensures child == DfsMerged(Arrange(side, c).0, Arrange(side, c).1)
    ensures Extends(log, out, OnlyNarration(side, c, depth), Ids(c) + Ids(child), EdgeKeys(id, child), TentativeEdge)
    ensures AllSettled(log.nodes) ==> AllSettled(out.nodes)
    ensures Repainted(log.nodes, out.nodes, DfsInks(Arrange(side, c).0, Arrange(side, c).1))
    decreases Size(c), 3
  {
    if c.Node? {
      var (a, b) := Arrange(side, c);
      out, child := Dfs(a, b, id, depth + 1, log);
      ExtendsSame(log, out, DfsNarration(a, b, depth + 1), Ids(a) + Ids(b) + Ids(child), EdgeKeys(id, child),
                  OnlyNarration(side, c, depth), Ids(c) + Ids(child), EdgeKeys(id, child), TentativeEdge);
    } else {
      out, child := log, Nil;
      ExtendsRefl(log, TentativeEdge);
      ExtendsSame(log, out, [], {}, {}, OnlyNarration(side, c, depth), Ids(c) + Ids(child), EdgeKeys(id, child), TentativeEdge);
    }
  }

  /** A step narrating `kind`, then the two children painted at the given scale and opacity. */
  method PushThenPaint(kind: StepKind, c1: Tree, c2: Tree, scale: int, opacity: int, log: Log) returns (out: Log)
    requires Good(log)
    ensures Extends(log, out, [kind], IdSet(c1) + IdSet(c2), {}, TentativeEdge)
    ensures HasId(c1) ==> out.nodes[c1.id].scale == scale && out.nodes[c1.id].opacity == opacity
    ensures HasId(c2) ==> out.nodes[c2.id].scale == scale && out.nodes[c2.id].opacity == opacity
    ensures Shows(out.nodes, c2, Orange, scale, opacity) && (Apart(c1, c2) ==> Shows(out.nodes, c1, Blue, scale, opacity))
    ensures |out.steps| == |log.steps| + 1 && out.steps[|log.steps|].snapshot.nodesState == log.nodes
    ensures out.steps[|log.steps|].snapshot.edgesState == log.edges
    ensures Repainted(log.nodes, out.nodes, InkOf(c1, Blue) + InkOf(c2, Orange))
  {
    var o1 := Push(log, kind);
    PushExtends(log, kind, TentativeEdge);
    out := PaintSources(c1, c2, scale, opacity, o1);
    ExtendsTrans(log, o1, out, [kind], {}, {}, [], IdSet(c1) + IdSet(c2), {}, TentativeEdge);
  }

  /** The announcement before a child position: a step, the children highlighted, a step, restored. */
  method AnnounceChildren(dir: Dir, c1: Tree, c2: Tree, log: Log) returns (out: Log)
    requires Good(log)
    ensures Extends(log, out, Announce(dir, c1, c2), IdSet(c1) + IdSet(c2), {}, TentativeEdge)
    ensures AllSettled(log.nodes) ==> AllSettled(out.nodes)
    ensures Repainted(log.nodes, out.nodes, InkOf(c1, Blue) + InkOf(c2, Orange))
  {
    if HasId(c1) || HasId(c2) {
      var touched := IdSet(c1) + IdSet(c2);
      var o2 := PushThenPaint(RecurseInto(dir), c1, c2, 12, 7, log);
      out := PushThenPaint(PrepareChild(dir), c1, c2, 10, 10, o2);
      ExtendsTrans(log, o2, out, [RecurseInto(dir)], touched, {}, [PrepareChild(dir)], touched, {}, TentativeEdge);
      RepaintedTrans(log.nodes, o2.nodes, out.nodes, InkOf(c1, Blue) + InkOf(c2, Orange), InkOf(c1, Blue) + InkOf(c2, Orange),
                     InkOf(c1, Blue) + InkOf(c2, Orange));
      assert touched + touched == touched;
      if AllSettled(log.nodes) {
        SettledAfter(log.nodes, out.nodes, touched);
      }
    } else {
      out := log;
      ExtendsRefl(log, TentativeEdge);
    }
  }

  /** The branch where both trees have a node: sum them, then the left and right positions. */
  method DfsBoth(n1: Tree, n2: Tree, parent: string, depth: nat, log: Log) returns (out: Log, node: Tree)
    requires n1.Node? && n2.Node? && Good(log)
    ensures Performs(n1, n2, parent, depth, log, out, node)
    ensures Repainted(log.nodes, out.nodes, DfsInks(n1, n2))
    decreases Size(n1) + Size(n2), 1
  {
    var id, sum := "merged-" + n1.id + "-" + n2.id, n1.val + n2.val;
    var o1 := VisitNode(n1, n2, id, sum, parent, MergeNodes(n1.val, n2.val, n1.val + n2.val), log);
    var left, right;
    out, left, right := BothChildren(n1, n2, id, depth, o1);
    node := Node(n1.val + n2.val, id, left, right);
    BothFinish(n1, n2, parent, depth, log, o1, out, id, left, right);
    BothInks(n1, n2, id, sum, log.nodes, o1.nodes, out.nodes);
  }

  /** The visit of two nodes and their two child positions show only what the call may show. */
  lemma BothInks(n1: Tree, n2: Tree, id: string, sum: int, a: map<string, NodeState>, b: map<string, NodeState>, c: map<string, NodeState>)
    requires n1.Node? && n2.Node? && id == "merged-" + n1.id + "-" + n2.id && sum == n1.val + n2.val
    requires Repainted(a, b, VisitInks(n1, n2, id, sum))
    requires Repainted(b, c, DfsInks(n1.left, n2.left) + DfsInks(n1.right, n2.right))
    ensures Repainted(a, c, DfsInks(n1, n2))
  {
    BothInksWithin(n1, n2, id);
    RepaintedTrans(a, b, c, VisitInks(n1, n2, id, sum),
                   DfsInks(n1.left, n2.left) + DfsInks(n1.right, n2.right), DfsInks(n1, n2));
  }

  lemma BothInksWithin(n1: Tree, n2: Tree, id: string)
    requires n1.Node? && n2.Node? && id == "merged-" + n1.id + "-" + n2.id
    ensures VisitInks(n1, n2, id, n1.val + n2.val) + (DfsInks(n1.left, n2.left) + DfsInks(n1.right, n2.right)) <= DfsInks(n1, n2)
  {
    var m := DfsMerged(n1, n2);
    BothMerged(n1, n2);
    assert InkOf(m, Green) == {Ink(id, n1.val + n2.val, Green)};
    InksOfNode(n1, Blue);
    InksOfNode(n2, Orange);
    InksOfNode(m, Green);
  }

  /** The left position, `LeftDone` if it held a node, the right position, `SubtreeDone` below the root. */
  method BothChildren(n1: Tree, n2: Tree, id: string, depth: nat, log: Log) returns (out: Log, left: Tree, right: Tree)
    requires n1.Node? && n2.Node? && Good(log)
    ensures left == DfsMerged(n1.left, n2.left) && right == DfsMerged(n1.right, n2.right)
    ensures Extends(log, out, BothChildrenNarration(n1, n2, depth),
                    ChildTouched(n1.left, n2.left, left) + ChildTouched(n1.right, n2.right, right),
                    EdgeKeys(id, left) + EdgeKeys(id, right), TentativeEdge)
    ensures AllSettled(log.nodes) ==> AllSettled(out.nodes)
    ensures Repainted(log.nodes, out.nodes, DfsInks(n1.left, n2.left) + DfsInks(n1.right, n2.right))
    decreases Size(n1) + Size(n2), 0
  {
    var o1;
    o1, left := ChildThenPush(Left, n1.left, n2.left, id, depth, n1.left.Node? || n2.left.Node?, LeftDone, log);
    out, right := ChildThenPush(Right, n1.right, n2.right, id, depth, depth > 0, SubtreeDone(n1.val + n2.val), o1);
    BothChildrenJoin(n1, n2, id, depth, log, o1, out, left, right);
    RepaintedTrans(log.nodes, o1.nodes, out.nodes, DfsInks(n1.left, n2.left), DfsInks(n1.right, n2.right),
                   DfsInks(n1.left, n2.left) + DfsInks(n1.right, n2.right));
  }

  /** The left position and then the right one add up to what both child positions do. */
  lemma BothChildrenJoin(n1: Tree, n2: Tree, id: string, depth: nat, log: Log, o1: Log, out: Log, left: Tree, right: Tree)
    requires n1.Node? && n2.Node?
    requires Extends(log, o1, ChildThen(Left, n1.left, n2.left, depth, n1.left.Node? || n2.left.Node?, LeftDone),
                     ChildTouched(n1.left, n2.left, left), EdgeKeys(id, left), TentativeEdge)
    requires Extends(o1, out, ChildThen(Right, n1.right, n2.right, depth, depth > 0, SubtreeDone(n1.val + n2.val)),
                     ChildTouched(n1.right, n2.right, right), EdgeKeys(id, right), TentativeEdge)
    ensures Extends(log, out, BothChildrenNarration(n1, n2, depth),
                    ChildTouched(n1.left, n2.left, left) + ChildTouched(n1.right, n2.right, right),
                    EdgeKeys(id, left) + EdgeKeys(id, right), TentativeEdge)
  {
    BothChildrenSplit(n1, n2, depth);
    ExtendsChain(log, o1, out,
                 ChildThen(Left, n1.left, n2.left, depth, n1.left.Node? || n2.left.Node?, LeftDone),
                 ChildTouched(n1.left, n2.left, left), EdgeKeys(id, left),
                 ChildThen(Right, n1.right, n2.right, depth, depth > 0, SubtreeDone(n1.val + n2.val)),
                 ChildTouched(n1.right, n2.right, right), EdgeKeys(id, right),
                 BothChildrenNarration(n1, n2, depth),
                 ChildTouched(n1.left, n2.left, left) + ChildTouched(n1.right, n2.right, right),
                 EdgeKeys(id, left) + EdgeKeys(id, right), TentativeEdge);
  }

  /** What the two child positions of a two-sided node narrate. */
  function BothChildrenNarration(n1: Tree, n2: Tree, depth: nat): seq<StepKind>
    requires n1.Node? && n2.Node?
  {
    ChildThen(Left, n1.left, n2.left, depth, n1.left.Node? || n2.left.Node?, LeftDone)
    + ChildThen(Right, n1.right, n2.right, depth, depth > 0, SubtreeDone(n1.val + n2.val))
  }

  lemma BothChildrenSplit(n1: Tree, n2: Tree, depth: nat)
    requires n1.Node? && n2.Node?
    ensures BothChildrenNarration(n1, n2, depth)
         == ChildThen(Left, n1.left, n2.left, depth, n1.left.Node? || n2.left.Node?, LeftDone)
            + ChildThen(Right, n1.right, n2.right, depth, depth > 0, SubtreeDone(n1.val + n2.val))
  {
  }

  /** One child position, then `kind` when `cond` holds. */
  function ChildThen(dir: Dir, c1: Tree, c2: Tree, depth: nat, cond: bool, kind: StepKind): seq<StepKind>
  {
    ChildNarration(dir, c1, c2, depth) + (if cond then [kind] else [])
  }

  /** The visit and the two child positions of a two-sided node add up to one call's work. */
  lemma BothFinish(n1: Tree, n2: Tree, parent: string, depth: nat, log: Log, o1: Log, o2: Log,
                   id: string, left: Tree, right: Tree)
    requires n1.Node? && n2.Node? && id == "merged-" + n1.id + "-" + n2.id
    requires left == DfsMerged(n1.left, n2.left) && right == DfsMerged(n1.right, n2.right)
    requires Extends(log, o1, [MergeNodes(n1.val, n2.val, n1.val + n2.val)], IdSet(n1) + IdSet(n2) + {id}, EdgeInto(parent, id), TentativeEdge)
    requires Extends(o1, o2, BothChildrenNarration(n1, n2, depth),
                     ChildTouched(n1.left, n2.left, left) + ChildTouched(n1.right, n2.right, right),
                     EdgeKeys(id, left) + EdgeKeys(id, right), TentativeEdge)
    requires RootsOnlyUnsettled(log.nodes, n1, n2) ==> AllSettled(o1.nodes)
    requires AllSettled(o1.nodes) ==> AllSettled(o2.nodes)
    ensures Performs(n1, n2, parent, depth, log, o2, Node(n1.val + n2.val, id, left, right))
  {
    var node := Node(n1.val + n2.val, id, left, right);
    BothMerged(n1, n2);
    BothNarration(n1, n2, depth);
    BothIds(n1, n2, id, left, right);
    NodeEdges(parent, n1.val + n2.val, id, left, right);
    ExtendsChain(log, o1, o2,
                 [MergeNodes(n1.val, n2.val, n1.val + n2.val)], IdSet(n1) + IdSet(n2) + {id}, EdgeInto(parent, id),
                 BothChildrenNarration(n1, n2, depth),
                 ChildTouched(n1.left, n2.left, left) + ChildTouched(n1.right, n2.right, right),
                 EdgeKeys(id, left) + EdgeKeys(id, right),
                 DfsNarration(n1, n2, depth), Ids(n1) + Ids(n2) + Ids(node), EdgeKeys(parent, node), TentativeEdge);
  }

  lemma BothNarration(n1: Tree, n2: Tree, depth: nat)
    requires n1.Node? && n2.Node?
    ensures [MergeNodes(n1.val, n2.val, n1.val + n2.val)] + BothChildrenNarration(n1, n2, depth) == DfsNarration(n1, n2, depth)
  {
    var a := [MergeNodes(n1.val, n2.val, n1.val + n2.val)];
    var b, c := Announce(Left, n1.left, n2.left), DfsNarration(n1.left, n2.left, depth + 1);
    var d := if n1.left.Node? || n2.left.Node? then [LeftDone] else [];
    var e, f := Announce(Right, n1.right, n2.right), DfsNarration(n1.right, n2.right, depth + 1);
    var g := if depth > 0 then [SubtreeDone(n1.val + n2.val)] else [];
    DfsNarrationBoth(n1, n2, depth);
    BothChildrenSplit(n1, n2, depth);
    ChildNarrationSplit(Left, n1.left, n2.left, depth);
    ChildNarrationSplit(Right, n1.right, n2.right, depth);
    Regroup7(a, b, c, d, e, f, g);
  }

  lemma DfsNarrationBoth(n1: Tree, n2: Tree, depth: nat)
    requires n1.Node? && n2.Node?
    ensures DfsNarration(n1, n2, depth)
         == [MergeNodes(n1.val, n2.val, n1.val + n2.val)]
            + Announce(Left, n1.left, n2.left) + DfsNarration(n1.left, n2.left, depth + 1)
            + (if n1.left.Node? || n2.left.Node? then [LeftDone] else [])
            + Announce(Right, n1.right, n2.right) + DfsNarration(n1.right, n2.right, depth + 1)
            + (if depth > 0 then [SubtreeDone(n1.val + n2.val)] else [])
  {
  }

  lemma Regroup7(a: seq<StepKind>, b: seq<StepKind>, c: seq<StepKind>, d: seq<StepKind>,
                 e: seq<StepKind>, f: seq<StepKind>, g: seq<StepKind>)
    ensures a + (((b + c) + d) + ((e + f) + g)) == a + b + c + d + e + f + g
  {
  }

  /** The ids of a node: its own, if truthy, then those of its subtrees. */
  lemma IdsOfNode(t: Tree)
    requires t.Node?
    ensures Ids(t) == IdSet(t) + Ids(t.left) + Ids(t.right)
  {
  }

  lemma Regroup(a: set<string>, b: set<string>, c: set<string>, d: set<string>, e: set<string>,
                f: set<string>, g: set<string>, h: set<string>, i: set<string>)
    ensures a + b + c + ((d + e + f) + (g + h + i)) == (a + d + g) + (b + e + h) + (c + f + i)
  {
  }

  lemma BothIds(n1: Tree, n2: Tree, id: string, left: Tree, right: Tree)
    requires n1.Node? && n2.Node? && id != ""
    ensures IdSet(n1) + IdSet(n2) + {id} + (ChildTouched(n1.left, n2.left, left) + ChildTouched(n1.right, n2.right, right))
         == Ids(n1) + Ids(n2) + Ids(Node(n1.val + n2.val, id, left, right))
  {
    var node := Node(n1.val + n2.val, id, left, right);
    IdsOfNode(n1);
    IdsOfNode(n2);
    IdsOfNode(node);
    Regroup(IdSet(n1), IdSet(n2), {id}, Ids(n1.left), Ids(n2.left), Ids(left), Ids(n1.right), Ids(n2.right), Ids(right));
  }

  /** The edges of a merged node: the one into it, then those of its subtrees. */
  lemma NodeEdges(parent: string, v: int, id: string, left: Tree, right: Tree)
    ensures EdgeInto(parent, id) + (EdgeKeys(id, left) + EdgeKeys(id, right)) == EdgeKeys(parent, Node(v, id, left, right))
    ensures EdgeInto(parent, id) + EdgeKeys(id, left) + EdgeKeys(id, right) == EdgeKeys(parent, Node(v, id, left, right))
  {
  }

  /** The announcement and the recursion of one child position of a two-sided node. */
  function ChildNarration(dir: Dir, c1: Tree, c2: Tree, depth: nat): seq<StepKind>
  {
    Announce(dir, c1, c2) + DfsNarration(c1, c2, depth + 1)
  }

  function ChildTouched(c1: Tree, c2: Tree, child: Tree): set<string>
  {
    Ids(c1) + Ids(c2) + Ids(child)
  }

  /** One child position of a two-sided node, then the step that may follow it. */
  method ChildThenPush(dir: Dir, c1: Tree, c2: Tree, id: string, depth: nat, cond: bool, kind: StepKind, log: Log)
    returns (out: Log, child: Tree)
    requires Good(log)
    ensures child == DfsMerged(c1, c2)
    ensures Extends(log, out, ChildThen(dir, c1, c2, depth, cond, kind),
                    ChildTouched(c1, c2, child), EdgeKeys(id, child), TentativeEdge)
    ensures AllSettled(log.nodes) ==> AllSettled(out.nodes)
    ensures Repainted(log.nodes, out.nodes, DfsInks(c1, c2))
    decreases Size(c1) + Size(c2), 4
  {
    var o1;
    o1, child := ChildPosition(dir, c1, c2, id, depth, log);
    out := PushIf(cond, kind, o1);
    ExtendsThenSteps(log, o1, out, ChildNarration(dir, c1, c2, depth), ChildTouched(c1, c2, child), EdgeKeys(id, child),
                     if cond then [kind] else [], TentativeEdge);
  }

  /** The announcement of a child position, then the recursion into it. */
  method ChildPosition(dir: Dir, c1: Tree, c2: Tree, id: string, depth: nat, log: Log) returns (out: Log, child: Tree)
    requires Good(log)
    ensures child == DfsMerged(c1, c2)
    ensures Extends(log, out, ChildNarration(dir, c1, c2, depth), ChildTouched(c1, c2, child), EdgeKeys(id, child), TentativeEdge)
    ensures AllSettled(log.nodes) ==> AllSettled(out.nodes)
    ensures Repainted(log.nodes, out.nodes, DfsInks(c1, c2))
    decreases Size(c1) + Size(c2), 3
  {
    var o1 := AnnounceChildren(dir, c1, c2, log);
    out, child := Dfs(c1, c2, id, depth + 1, o1);
    AnnouncedInks(c1, c2);
    RepaintedTrans(log.nodes, o1.nodes, out.nodes, InkOf(c1, Blue) + InkOf(c2, Orange), DfsInks(c1, c2), DfsInks(c1, c2));
    AnnounceThenRecurse(dir, c1, c2, id, depth, log, o1, out, child);
  }

  /** The announcement's styles are among those the recursion writes, and its narration comes first. */
  lemma AnnounceThenRecurse(dir: Dir, c1: Tree, c2: Tree, id: string, depth: nat, log: Log, o1: Log, out: Log, child: Tree)
    requires Extends(log, o1, Announce(dir, c1, c2), IdSet(c1) + IdSet(c2), {}, TentativeEdge)
    requires Extends(o1, out, DfsNarration(c1, c2, depth + 1), Ids(c1) + Ids(c2) + Ids(child), EdgeKeys(id, child), TentativeEdge)
    ensures Extends(log, out, ChildNarration(dir, c1, c2, depth), ChildTouched(c1, c2, child), EdgeKeys(id, child), TentativeEdge)
  {
    AnnouncedWithin(c1, c2, child);
    NoneThen(EdgeKeys(id, child));
    ChildNarrationSplit(dir, c1, c2, depth);
    ExtendsChain(log, o1, out, Announce(dir, c1, c2), IdSet(c1) + IdSet(c2), {},
                 DfsNarration(c1, c2, depth + 1), ChildTouched(c1, c2, child), EdgeKeys(id, child),
                 ChildNarration(dir, c1, c2, depth), ChildTouched(c1, c2, child), EdgeKeys(id, child), TentativeEdge);
  }

  lemma AnnouncedWithin(c1: Tree, c2: Tree, child: Tree)
    ensures IdSet(c1) + IdSet(c2) + ChildTouched(c1, c2, child) == ChildTouched(c1, c2, child)
  {
    IdSetWithin(c1);
    IdSetWithin(c2);
  }

  /** The children an announcement highlights are among the nodes the call may show. */
  lemma AnnouncedInks(c1: Tree, c2: Tree)
    ensures InkOf(c1, Blue) + InkOf(c2, Orange) <= DfsInks(c1, c2)
  {
  }

  lemma NoneThen(d: set<string>)
    ensures {} + d == d
  {
  }

  lemma ChildNarrationSplit(dir: Dir, c1: Tree, c2: Tree, depth: nat)
    ensures ChildNarration(dir, c1, c2, depth) == Announce(dir, c1, c2) + DfsNarration(c1, c2, depth + 1)
  {
  }

  lemma IdSetWithin(t: Tree)
    ensures IdSet(t) <= Ids(t)
  {
  }

  /** `if (cond) steps.push(...)` for a step that changes no style. */
  method PushIf(cond: bool, kind: StepKind, log: Log) returns (out: Log)
    requires Good(log)
    ensures Extends(log, out, if cond then [kind] else [], {}, {}, TentativeEdge)
    ensures out.nodes == log.nodes
  {
    if cond {
      out := Push(log, kind);
      PushExtends(log, kind, TentativeEdge);
    } else {
      out := log;
      ExtendsRefl(log, TentativeEdge);
    }
  }

  /**
   * generateDFSAnimationSteps: an introduction, the two roots marked, the recursion from the
   * roots (even when a tree is empty), and the completion step. The merged tree is not
   * returned by the source; it is exposed here as a ghost result.
   */
  method GenerateDfsAnimationSteps(root1: Tree, root2: Tree) returns (steps: seq<AnimationStep>, ghost merged: Tree)
    ensures Stamped(steps) && KeysGrow(steps)
    ensures Kinds(steps) == [DfsIntro, MarkRoots] + DfsNarration(root1, root2, 0) + [Complete]
    ensures merged == DfsMerged(root1, root2)
    ensures |steps| >= 4
    ensures steps[|steps| - 1].snapshot.nodesState.Keys == Ids(root1) + Ids(root2) + Ids(merged)
    ensures AllSettled(steps[|steps| - 1].snapshot.nodesState)
    ensures steps[|steps| - 1].snapshot.edgesState.Keys == EdgeKeys("", merged)
    ensures AllEdgesAre(steps[|steps| - 1].snapshot.edgesState, TentativeEdge)
    ensures Painted(steps[|steps| - 1].snapshot.nodesState, Inks(root1, Blue) + Inks(root2, Orange) + Inks(merged, Green))
    ensures ShowsSettled(steps[|steps| - 1].snapshot.nodesState, Inks(root1, Blue) + Inks(root2, Orange) + Inks(merged, Green))
  {
    var log := MarkBothRoots(root1, root2);
    var out, node := Dfs(root1, root2, "", 0, log);
    merged := node;
    AnnouncedInks(root1, root2);
    PaintedAfter(log.nodes, out.nodes, DfsInks(root1, root2), DfsInks(root1, root2));
    RunOutcome(root1, root2, log, out, node);
    steps := Push(out, Complete).steps;
    ChainedMeansStampedAndGrowing(steps);
    InkIds(root1, Blue);
    InkIds(root2, Orange);
    InkIds(merged, Green);
    SettledShows(out.nodes, DfsInks(root1, root2));
  }

  /** After the roots are marked and the recursion has run, the maps hold exactly its work. */
  lemma RunOutcome(root1: Tree, root2: Tree, log: Log, out: Log, node: Tree)
    requires log.nodes.Keys == IdSet(root1) + IdSet(root2) && log.edges == map[]
    requires Extends(log, out, DfsNarration(root1, root2, 0), Ids(root1) + Ids(root2) + Ids(node), EdgeKeys("", node), TentativeEdge)
    ensures out.nodes.Keys == Ids(root1) + Ids(root2) + Ids(node)
    ensures out.edges.Keys == EdgeKeys("", node) && AllEdgesAre(out.edges, TentativeEdge)
  {
    IdSetWithin(root1);
    IdSetWithin(root2);
    KeysAbsorbed(IdSet(root1) + IdSet(root2), Ids(root1) + Ids(root2) + Ids(node));
    OnlyDrawn(out.edges, EdgeKeys("", node));
  }

  lemma KeysAbsorbed(a: set<string>, b: set<string>)
    requires a <= b
    ensures a + b == b
  {
  }

  lemma OnlyDrawn(edges: map<string, EdgeState>, drawn: set<string>)
    requires edges == map[] + Drawn(drawn, TentativeEdge)
    ensures edges.Keys == drawn && AllEdgesAre(edges, TentativeEdge)
  {
    assert edges == Drawn(drawn, TentativeEdge);
  }

  /** The introduction step, both roots highlighted at scale 1.2, and the step saying so. */
  method MarkBothRoots(root1: Tree, root2: Tree) returns (log: Log)
    ensures Good(log) && |log.steps| == 2 && Kinds(log.steps) == [DfsIntro, MarkRoots]
    ensures log.nodes.Keys == IdSet(root1) + IdSet(root2) && log.edges == map[]
    ensures RootsOnlyUnsettled(log.nodes, root1, root2)
    ensures Painted(log.nodes, InkOf(root1, Blue) + InkOf(root2, Orange))
  {
    log := Push(EmptyLog, DfsIntro);
    log := SetNode(log, root1, Blue, 12, 10);
    log := SetNode(log, root2, Orange, 12, 10);
    log := Push(log, MarkRoots);
  }
}
