/**
 * generateBFSAnimationSteps (bfsAlgorithm.ts:8-784): a level-by-level merge over three
 * parallel queues (tree 1, tree 2, merged tree) that records one step per narration and
 * links each merged child to the merged node it was found under.
 */
module BfsAlgorithm {
  import opened Types
  import opened TreeUtils
  import opened StepLog

  // ---------------------------------------------------------------------------------------
  // Specification: the merged tree

  /** An id as the child branches print it: the id when truthy, else `null`. */
  function IdText(t: Tree): string
  {
    if HasId(t) then t.id else "null"
  }

  /**
   * The merged node the queues create below the root for the positions `a` and `b`: absent
   * when both are, otherwise a fresh node holding the sum of the values present and the id
   * `merged-<id1>-<id2>`, whose children are made the same way. A lone subtree is copied
   * node by node, not reused.
   */
  function BfsSub(a: Tree, b: Tree): Tree
    decreases Size(a) + Size(b)
  {
    if a == Nil && b == Nil then Nil
    else Node(ValueOr0(a) + ValueOr0(b), "merged-" + IdText(a) + "-" + IdText(b),
              BfsSub(Child(a, Left), Child(b, Left)), BfsSub(Child(a, Right), Child(b, Right)))
  }

  /**
   * The tree the engine builds: an empty input gives back the other tree; otherwise the root
   * `merged-<root1.id>-<root2.id>` (ids interpolated as they are) over merged children.
   */
  function BfsMerged(r1: Tree, r2: Tree): Tree
  {
    if r1 == Nil then r2
    else if r2 == Nil then r1
    else Node(r1.val + r2.val, "merged-" + r1.id + "-" + r2.id,
              BfsSub(r1.left, r2.left), BfsSub(r1.right, r2.right))
  }

  /** A node as `createTreeNode` makes it, before any child is linked to it. */
  function Leaf(t: Tree): (r: Tree)
    ensures r.Node? == t.Node?
  {
    if t == Nil then Nil else Node(t.val, t.id, Nil, Nil)
  }

  /** Either tree has a node at `p`: the positions the queues visit. */
  predicate Live(r1: Tree, r2: Tree, p: Path)
  {
    Subtree(r1, p).Node? || Subtree(r2, p).Node?
  }

  lemma {:induction false} BfsSubWithNothing(t: Tree)
    ensures Erase(BfsSub(t, Nil)) == Erase(t) && Erase(BfsSub(Nil, t)) == Erase(t)
    decreases t
  {
    if t.Node? {
      BfsSubWithNothing(t.left);
      BfsSubWithNothing(t.right);
    }
  }

  lemma {:induction false} BfsSubIsMergeTrees(a: Tree, b: Tree, newId: Path -> string, at: Path)
    ensures Erase(BfsSub(a, b)) == Erase(MergeTrees(a, b, newId, at))
    decreases Size(a) + Size(b)
  {
    if a == Nil || b == Nil {
      BfsSubWithNothing(if a == Nil then b else a);
    } else {
      BfsSubIsMergeTrees(a.left, b.left, newId, at + [Left]);
      BfsSubIsMergeTrees(a.right, b.right, newId, at + [Right]);
    }
  }

  /** Up to ids, the tree the queues build is the reference merge `mergeTrees`. */
  lemma BfsMergedIsMergeTrees(r1: Tree, r2: Tree, newId: Path -> string)
    ensures Erase(BfsMerged(r1, r2)) == Erase(MergeTrees(r1, r2, newId, []))
  {
    if r1.Node? && r2.Node? {
      var at: Path := [];
      BfsSubIsMergeTrees(r1.left, r2.left, newId, at + [Left]);
      BfsSubIsMergeTrees(r1.right, r2.right, newId, at + [Right]);
    }
  }

  /** Position by position, the merged tree holds the sum, the lone value, or nothing. */
  lemma BfsValuesFollowMergeRule(r1: Tree, r2: Tree, p: Path)
    ensures ValueAt(BfsMerged(r1, r2), p) == AddValues(ValueAt(r1, p), ValueAt(r2, p))
  {
    var newId := (q: Path) => "";
    BfsMergedIsMergeTrees(r1, r2, newId);
    ValueAtErase(BfsMerged(r1, r2), p);
    ValueAtErase(MergeTrees(r1, r2, newId, []), p);
    MergeIsPositionwiseSum(r1, r2, newId, [], p);
  }

  /** Following a path in a merged subtree is merging the subtrees found along it. */
  lemma {:induction false} BfsSubAt(a: Tree, b: Tree, p: Path)
    ensures Subtree(BfsSub(a, b), p) == BfsSub(Subtree(a, p), Subtree(b, p))
    decreases |p|
  {
    if p != [] {
      if a == Nil && b == Nil {
        SubtreeNil(p);
      } else {
        SubtreeNil(p[1..]);
        BfsSubAt(Child(a, p[0]), Child(b, p[0]), p[1..]);
      }
    }
  }

  /**
   * When both roots exist, the merged tree has a node exactly where either input has one;
   * below the root it is the node the child branches create for that position.
   */
  lemma MergedAt(r1: Tree, r2: Tree, p: Path)
    requires r1.Node? && r2.Node?
    ensures Subtree(BfsMerged(r1, r2), p).Node? <==> Live(r1, r2, p)
    ensures p != [] ==> Subtree(BfsMerged(r1, r2), p) == BfsSub(Subtree(r1, p), Subtree(r2, p))
    ensures HasId(Subtree(BfsMerged(r1, r2), p)) <==> Live(r1, r2, p)
  {
    if p != [] {
      BfsSubAt(Child(r1, p[0]), Child(r2, p[0]), p[1..]);
    }
  }

  // ---------------------------------------------------------------------------------------
  // Specification: the narration

  /** The steps for one child direction of a dequeued pair `node1`, `node2`. */
  function ChildSteps(dir: Dir, node1: Tree, node2: Tree): seq<StepKind>
  {
    var c1 := Child(node1, dir);
    var c2 := Child(node2, dir);
    if c1 == Nil && c2 == Nil then [NoChild(dir)]
    else if c1.Node? && c2.Node? then
      [CheckChild(dir), MergeChild(dir, c1.val, c2.val, c1.val + c2.val), EnqueueChild(dir, Both)]
    else if c1.Node? then [CheckChild(dir), OnlyChild(dir, First, c1.val), EnqueueChild(dir, OnlyFirst)]
    else [CheckChild(dir), OnlyChild(dir, Second, c2.val), EnqueueChild(dir, OnlySecond)]
  }

  /** The steps for one dequeued pair: the dequeue, then its left and its right child. */
  function PairSteps(node1: Tree, node2: Tree): seq<StepKind>
  {
    [Dequeue] + ChildSteps(Left, node1, node2) + ChildSteps(Right, node1, node2)
  }

  /** The child positions of `p` that get enqueued, left before right. */
  function ChildPaths(r1: Tree, r2: Tree, p: Path): (cs: seq<Path>)
    ensures forall c :: c in cs ==> Live(r1, r2, c) && |c| == |p| + 1 && c[..|p|] == p
  {
    assert (p + [Left])[..|p|] == p && (p + [Right])[..|p|] == p;
    (if Live(r1, r2, p + [Left]) then [p + [Left]] else [])
    + (if Live(r1, r2, p + [Right]) then [p + [Right]] else [])
  }

  /** The queue after a whole level `ps` is processed: the enqueued children, in order. */
  function NextPaths(r1: Tree, r2: Tree, ps: seq<Path>): (r: seq<Path>)
    ensures forall c :: c in r ==> Live(r1, r2, c) && |c| >= 1 && c[..|c| - 1] in ps
  {
    if ps == [] then []
    else
      var n := |ps| - 1;
      NextPaths(r1, r2, ps[..n]) + ChildPaths(r1, r2, ps[n])
  }

  /** The steps for the pairs dequeued at the positions `ps`, in order. */
  function LevelSteps(r1: Tree, r2: Tree, ps: seq<Path>): seq<StepKind>
  {
    if ps == [] then []
    else
      var n := |ps| - 1;
      LevelSteps(r1, r2, ps[..n]) + PairSteps(Subtree(r1, ps[n]), Subtree(r2, ps[n]))
  }

  /** Every queued position is at depth `level` and has a node in one of the trees. */
  ghost predicate AtDepth(r1: Tree, r2: Tree, ps: seq<Path>, level: nat)
  {
    forall p :: p in ps ==> |p| == level && Live(r1, r2, p)
  }

  /** A position with a node lies above the height of the tree that has it. */
  lemma LiveBelowHeight(r1: Tree, r2: Tree, p: Path)
    requires Live(r1, r2, p)
    ensures |p| < GetTreeHeight(r1) + GetTreeHeight(r2)
  {
    if Subtree(r1, p).Node? {
      HeightBoundsDepth(r1, p);
    } else {
      HeightBoundsDepth(r2, p);
    }
  }

  /**
   * The steps of the `while` loop from a level whose queue holds `ps`: the level's opening,
   * its pairs, the closing step when the next queue is not empty, then the next levels.
   */
  function LoopSteps(r1: Tree, r2: Tree, ps: seq<Path>, level: nat): seq<StepKind>
    requires AtDepth(r1, r2, ps, level)
    decreases GetTreeHeight(r1) + GetTreeHeight(r2) - level
  {
    if ps == [] then []
    else
      LiveBelowHeight(r1, r2, ps[0]);
      var next := NextPaths(r1, r2, ps);
      [LevelStart(level + 1)] + LevelSteps(r1, r2, ps)
      + (if next != [] then [LevelDone(level + 1)] else [])
      + LoopSteps(r1, r2, next, level + 1)
  }

  /** The whole narration of `generateBFSAnimationSteps(root1, root2)`. */
  function BfsNarration(r1: Tree, r2: Tree): seq<StepKind>
  {
    if r1 == Nil then [BfsIntro, CheckEmpty, FirstTreeEmpty]
    else if r2 == Nil then [BfsIntro, CheckEmpty, SecondTreeEmpty]
    else
      [BfsIntro, CheckEmpty, MergeRoot(r1.val, r2.val, r1.val + r2.val), InitQueues]
      + LoopSteps(r1, r2, [[]], 0) + [QueueEmpty, Complete]
  }

  /** A position with a node hangs below a position with a node. */
  lemma LiveParent(r1: Tree, r2: Tree, p: Path, d: Dir)
    requires Live(r1, r2, p + [d])
    ensures Live(r1, r2, p)
  {
    SubtreeSnoc(r1, p, d);
    SubtreeSnoc(r2, p, d);
  }

  /** Every prefix of a position with a node is a position with a node. */
  lemma {:induction false} LivePrefix(r1: Tree, r2: Tree, p: Path, k: nat)
    requires Live(r1, r2, p) && k <= |p|
    ensures Live(r1, r2, p[..k])
    decreases |p| - k
  {
    if k < |p| {
      LivePrefix(r1, r2, p, k + 1);
      assert p[..k + 1] == p[..k] + [p[k]];
      LiveParent(r1, r2, p[..k], p[k]);
    } else {
      assert p[..k] == p;
    }
  }

  /** A position with a node whose parent is queued is queued for the next level. */
  lemma {:induction false} NextPathsComplete(r1: Tree, r2: Tree, ps: seq<Path>, c: Path)
    requires Live(r1, r2, c) && |c| >= 1 && c[..|c| - 1] in ps
    ensures c in NextPaths(r1, r2, ps)
    decreases |ps|
  {
    var n := |ps| - 1;
    var parent := c[..|c| - 1];
    if ps[n] == parent {
      var d := c[|c| - 1];
      assert c == parent + [d];
      var cs := ChildPaths(r1, r2, ps[n]);
      if d == Left {
        assert cs[0] == c;
      } else {
        assert cs[|cs| - 1] == c;
      }
    } else {
      assert parent in ps[..n] by {
        var j :| 0 <= j < |ps| && ps[j] == parent;
        assert ps[..n][j] == parent;
      }
      NextPathsComplete(r1, r2, ps[..n], c);
    }
  }

  /** Every position at depth `level` that has a node is in `ps`. */
  ghost predicate AllAt(r1: Tree, r2: Tree, ps: seq<Path>, level: nat)
  {
    forall p :: |p| == level && Live(r1, r2, p) ==> p in ps
  }

  /** The next queue of a complete level is complete, one level down. */
  lemma NextLevel(r1: Tree, r2: Tree, ps: seq<Path>, level: nat)
    requires AtDepth(r1, r2, ps, level) && AllAt(r1, r2, ps, level)
    ensures AtDepth(r1, r2, NextPaths(r1, r2, ps), level + 1)
    ensures AllAt(r1, r2, NextPaths(r1, r2, ps), level + 1)
  {
    forall c | |c| == level + 1 && Live(r1, r2, c) ensures c in NextPaths(r1, r2, ps) {
      LivePrefix(r1, r2, c, level);
      NextPathsComplete(r1, r2, ps, c);
    }
  }

  /** With no position at depth `level`, none deeper either. */
  lemma NoneDeeper(r1: Tree, r2: Tree, level: nat, p: Path)
    requires AllAt(r1, r2, [], level) && Live(r1, r2, p)
    ensures |p| < level
  {
    if |p| >= level {
      LivePrefix(r1, r2, p, level);
    }
  }

  // ---------------------------------------------------------------------------------------
  // Specification: what the log holds

  /** The ids, in `t`, of the nodes at the positions `ps`. */
  ghost function IdsAt(t: Tree, ps: set<Path>): set<string>
  {
    set p | p in ps && HasId(Subtree(t, p)) :: Subtree(t, p).id
  }

  /** The ids, in both inputs and in the merged tree, of the nodes at the positions `ps`. */
  ghost function IdsAt3(r1: Tree, r2: Tree, ps: set<Path>): set<string>
  {
    IdsAt(r1, ps) + IdsAt(r2, ps) + IdsAt(BfsMerged(r1, r2), ps)
  }

  /** The key of the edge into position `p` of `t` from its parent. */
  ghost predicate Linked(t: Tree, p: Path)
  {
    p != [] && HasId(Subtree(t, p)) && HasId(Subtree(t, p[..|p| - 1]))
  }

  /** The keys of the edges of `t` into the positions `ps` from their parents. */
  ghost function LinksAt(t: Tree, ps: set<Path>): set<string>
  {
    set p | p in ps && Linked(t, p) :: EdgeKey(Subtree(t, p[..|p| - 1]).id, Subtree(t, p).id)
  }

  lemma IdsAtUnion(t: Tree, a: set<Path>, b: set<Path>)
    ensures IdsAt(t, a + b) == IdsAt(t, a) + IdsAt(t, b)
  {
  }

  lemma IdsAtOne(t: Tree, p: Path)
    ensures IdsAt(t, {p}) == IdSet(Subtree(t, p))
  {
    if HasId(Subtree(t, p)) {
      assert Subtree(t, p).id in IdsAt(t, {p});
    }
  }

  lemma LinksAtUnion(t: Tree, a: set<Path>, b: set<Path>)
    ensures LinksAt(t, a + b) == LinksAt(t, a) + LinksAt(t, b)
  {
  }

  /**
   * Every style is settled and shows a node of the first input blue, of the second orange or
   * of the merged tree green, with its value; the styled nodes and the drawn edges are those
   * of the positions `ps`.
   */
  ghost predicate Recorded(r1: Tree, r2: Tree, ps: set<Path>, log: Log)
  {
    Good(log) && AllSettled(log.nodes) && Painted(log.nodes, BfsInks(r1, r2))
    && log.nodes.Keys == IdsAt3(r1, r2, ps)
    && log.edges == Drawn(LinksAt(BfsMerged(r1, r2), ps), SettledEdge)
  }

  /** The inks of the level-order merge: the first input blue, the second orange, the merged tree green. */
  ghost function BfsInks(r1: Tree, r2: Tree): set<Ink>
  {
    Inks(r1, Blue) + Inks(r2, Orange) + Inks(BfsMerged(r1, r2), Green)
  }

  /** The queues hold, at each index, the two input subtrees and the merged node of that position. */
  ghost predicate Queued(r1: Tree, r2: Tree, ps: seq<Path>, q1: seq<Tree>, q2: seq<Tree>, mq: seq<Tree>)
  {
    |q1| == |ps| && |q2| == |ps| && |mq| == |ps|
    && forall j :: 0 <= j < |ps| ==>
         q1[j] == Subtree(r1, ps[j]) && q2[j] == Subtree(r2, ps[j]) && mq[j] == Leaf(Subtree(BfsMerged(r1, r2), ps[j]))
  }

  lemma QueuedAppend(r1: Tree, r2: Tree, ps: seq<Path>, q1: seq<Tree>, q2: seq<Tree>, mq: seq<Tree>,
                     ps': seq<Path>, q1': seq<Tree>, q2': seq<Tree>, mq': seq<Tree>)
    requires Queued(r1, r2, ps, q1, q2, mq) && Queued(r1, r2, ps', q1', q2', mq')
    ensures Queued(r1, r2, ps + ps', q1 + q1', q2 + q2', mq + mq')
  {
    var m := BfsMerged(r1, r2);
    var ps2, a, b, c := ps + ps', q1 + q1', q2 + q2', mq + mq';
    forall j | 0 <= j < |ps2|
      ensures a[j] == Subtree(r1, ps2[j]) && b[j] == Subtree(r2, ps2[j]) && c[j] == Leaf(Subtree(m, ps2[j]))
    {
      if j < |ps| {
        assert ps2[j] == ps[j] && a[j] == q1[j] && b[j] == q2[j] && c[j] == mq[j];
      } else {
        var k := j - |ps|;
        assert ps2[j] == ps'[k] && a[j] == q1'[k] && b[j] == q2'[k] && c[j] == mq'[k];
      }
    }
  }

  lemma QueuedTail(r1: Tree, r2: Tree, ps: seq<Path>, q1: seq<Tree>, q2: seq<Tree>, mq: seq<Tree>)
    requires Queued(r1, r2, ps, q1, q2, mq) && |ps| > 0
    ensures Queued(r1, r2, ps[1..], q1[1..], q2[1..], mq[1..])
  {
  }

  // ---------------------------------------------------------------------------------------
  // The engine, one child direction at a time

  /** The node created for the `dir` child of the pair `node1`, `node2` (Nil when neither has one). */
  function ChildMerged(dir: Dir, node1: Tree, node2: Tree): Tree
  {
    Leaf(BfsSub(Child(node1, dir), Child(node2, dir)))
  }

  /** `[t]` when the pair has a `dir` child to enqueue, else nothing. */
  function Entry(dir: Dir, node1: Tree, node2: Tree, t: Tree): seq<Tree>
  {
    if Child(node1, dir) == Nil && Child(node2, dir) == Nil then [] else [t]
  }

  /** The styles one child direction writes: both input children and the created node. */
  function ChildTouched(dir: Dir, node1: Tree, node2: Tree): set<string>
  {
    IdSet(Child(node1, dir)) + IdSet(Child(node2, dir)) + IdSet(ChildMerged(dir, node1, node2))
  }

  /** The edge one child direction draws, from `current` to the created node, when both have ids. */
  function ChildLink(dir: Dir, current: Tree, node1: Tree, node2: Tree): set<string>
  {
    var child := ChildMerged(dir, node1, node2);
    if HasId(current) && HasId(child) then {EdgeKey(current.id, child.id)} else {}
  }

  /** The inks one child direction writes: the input children blue and orange, the created node green. */
  function ChildInks(dir: Dir, node1: Tree, node2: Tree): set<Ink>
  {
    InkOf(Child(node1, dir), Blue) + InkOf(Child(node2, dir), Orange) + InkOf(ChildMerged(dir, node1, node2), Green)
  }

  /** Every key of `ks` has a settled style. */
  ghost predicate SettledOn(nodes: map<string, NodeState>, ks: set<string>)
  {
    forall k :: k in ks ==> k in nodes && Settled(nodes[k])
  }

  /**
   * One child direction of a dequeued pair: with no child, one step; otherwise announce,
   * highlight the input children, create the merged child with its edge, narrate the merge
   * or the lone child, enqueue the three entries, narrate that, and restore every style
   * written, the edge at width 1 and opacity 1.
   */
  method ChildStep(dir: Dir, current: Tree, node1: Tree, node2: Tree, log: Log,
                   q1: seq<Tree>, q2: seq<Tree>, mq: seq<Tree>)
    returns (out: Log, q1': seq<Tree>, q2': seq<Tree>, mq': seq<Tree>)
    requires Good(log)
    ensures Extends(log, out, ChildSteps(dir, node1, node2), ChildTouched(dir, node1, node2),
                    ChildLink(dir, current, node1, node2), SettledEdge)
    ensures SettledOn(out.nodes, ChildTouched(dir, node1, node2))
    ensures Repainted(log.nodes, out.nodes, ChildInks(dir, node1, node2))
    ensures q1' == q1 + Entry(dir, node1, node2, Child(node1, dir))
    ensures q2' == q2 + Entry(dir, node1, node2, Child(node2, dir))
    ensures mq' == mq + Entry(dir, node1, node2, ChildMerged(dir, node1, node2))
  {
    var c1 := Child(node1, dir);
    var c2 := Child(node2, dir);
    if c1 == Nil && c2 == Nil {
      out := Push(log, NoChild(dir));
      PushExtends(log, NoChild(dir), SettledEdge);
      assert ChildTouched(dir, node1, node2) == {} && ChildLink(dir, current, node1, node2) == {};
      q1', q2', mq' := q1, q2, mq;
    } else {
      out := ChildPresent(dir, current, node1, node2, log);
      q1', q2', mq' := q1 + [c1], q2 + [c2], mq + [ChildMerged(dir, node1, node2)];
    }
  }

  /** A child direction where at least one input has a child. */
  method ChildPresent(dir: Dir, current: Tree, node1: Tree, node2: Tree, log: Log) returns (out: Log)
    requires Good(log)
    requires Child(node1, dir).Node? || Child(node2, dir).Node?
    ensures Extends(log, out, ChildSteps(dir, node1, node2), ChildTouched(dir, node1, node2),
                    ChildLink(dir, current, node1, node2), SettledEdge)
    ensures SettledOn(out.nodes, ChildTouched(dir, node1, node2))
    ensures Repainted(log.nodes, out.nodes, ChildInks(dir, node1, node2))
  {
    var c1 := Child(node1, dir);
    var c2 := Child(node2, dir);
    var o1 := Announce(dir, c1, c2, log);
    var child, kind, from := MakeChild(dir, node1, node2);
    out := Attach(current, child, kind, from, dir, c1, c2, o1);
    RepaintedTrans(log.nodes, o1.nodes, out.nodes, InkOf(c1, Blue) + InkOf(c2, Orange), AttachInks(c1, c2, child), AttachInks(c1, c2, child));
    var t1, t2 := IdSet(c1) + IdSet(c2), IdSet(c1) + IdSet(c2) + IdSet(child);
    assert t1 + t2 == t2;
    ExtendsChain(log, o1, out, [CheckChild(dir)], t1, {}, [kind, EnqueueChild(dir, from)], t2, ChildLink(dir, current, node1, node2),
                 ChildSteps(dir, node1, node2), t2, ChildLink(dir, current, node1, node2), SettledEdge);
  }

  /** Narrate the check of a child direction, then highlight the input children at opacity 0.7. */
  method Announce(dir: Dir, c1: Tree, c2: Tree, log: Log) returns (out: Log)
    requires Good(log)
    ensures Extends(log, out, [CheckChild(dir)], IdSet(c1) + IdSet(c2), {}, SettledEdge)
    ensures Shows(out.nodes, c2, Orange, 12, 7) && (Apart(c1, c2) ==> Shows(out.nodes, c1, Blue, 12, 7))
    ensures Repainted(log.nodes, out.nodes, InkOf(c1, Blue) + InkOf(c2, Orange))
  {
    var o1 := Push(log, CheckChild(dir));
    PushExtends(log, CheckChild(dir), SettledEdge);
    out := Paint2(c1, Blue, c2, Orange, 12, 7, o1, SettledEdge);
    ExtendsChain(log, o1, out, [CheckChild(dir)], {}, {}, [], IdSet(c1) + IdSet(c2), {},
                 [CheckChild(dir)], IdSet(c1) + IdSet(c2), {}, SettledEdge);
  }

  /**
   * The three branches of a child direction with a child: merge both values, or take the
   * lone one; the created node's id names both inputs, `null` for a missing one.
   */
  method MakeChild(dir: Dir, node1: Tree, node2: Tree) returns (child: Tree, kind: StepKind, from: Contributors)
    requires Child(node1, dir).Node? || Child(node2, dir).Node?
    ensures child.Node? && child == ChildMerged(dir, node1, node2)
    ensures ChildSteps(dir, node1, node2) == [CheckChild(dir), kind, EnqueueChild(dir, from)]
  {
    var c1 := Child(node1, dir);
    var c2 := Child(node2, dir);
    if c1.Node? && c2.Node? {
      child := CreateTreeNode(c1.val + c2.val, "merged-" + IdText(c1) + "-" + IdText(c2), "");
      kind, from := MergeChild(dir, c1.val, c2.val, c1.val + c2.val), Both;
    } else if c1.Node? {
      child := CreateTreeNode(c1.val, "merged-" + IdText(c1) + "-null", "");
      kind, from := OnlyChild(dir, First, c1.val), OnlyFirst;
    } else {
      child := CreateTreeNode(c2.val, "merged-null-" + IdText(c2), "");
      kind, from := OnlyChild(dir, Second, c2.val), OnlySecond;
    }
  }

  /** `{"<current.id>-<child.id>"}` when both ids are truthy, else nothing. */
  function LinkKey(current: Tree, child: Tree): set<string>
  {
    if HasId(current) && HasId(child) then {EdgeKey(current.id, child.id)} else {}
  }

  /** The inks of one child direction: the input children blue and orange, the created node green. */
  function AttachInks(c1: Tree, c2: Tree, child: Tree): set<Ink>
  {
    InkOf(c1, Blue) + InkOf(c2, Orange) + InkOf(child, Green)
  }

  /**
   * Style the created node, draw its edge at width 1.5 and opacity 0.7, narrate the merge,
   * narrate the enqueueing, then settle the two input children, the created node and its edge.
   */
  method Attach(current: Tree, child: Tree, kind: StepKind, from: Contributors, dir: Dir, c1: Tree, c2: Tree, log: Log)
    returns (out: Log)
    requires Good(log)
    ensures Extends(log, out, [kind, EnqueueChild(dir, from)], IdSet(c1) + IdSet(c2) + IdSet(child), LinkKey(current, child), SettledEdge)
    ensures SettledOn(out.nodes, IdSet(c1) + IdSet(c2) + IdSet(child))
    ensures Repainted(log.nodes, out.nodes, AttachInks(c1, c2, child))
  {
    var o1 := Present(current, child, kind, from, dir, log);
    out := Restore(current, c1, c2, child, o1);
    RepaintedTrans(log.nodes, o1.nodes, out.nodes, InkOf(child, Green), AttachInks(c1, c2, child), AttachInks(c1, c2, child));
    ExtendsRestyle(log, o1, out, [kind, EnqueueChild(dir, from)], IdSet(child), [], IdSet(c1) + IdSet(c2) + IdSet(child),
                   LinkKey(current, child), TentativeEdge, SettledEdge);
    assert IdSet(child) + (IdSet(c1) + IdSet(c2) + IdSet(child)) == IdSet(c1) + IdSet(c2) + IdSet(child);
    assert [kind, EnqueueChild(dir, from)] + [] == [kind, EnqueueChild(dir, from)];
  }

  /** The created node and its edge, then the steps narrating the merge and the enqueueing. */
  method Present(current: Tree, child: Tree, kind: StepKind, from: Contributors, dir: Dir, log: Log) returns (out: Log)
    requires Good(log)
    ensures Extends(log, out, [kind, EnqueueChild(dir, from)], IdSet(child), LinkKey(current, child), TentativeEdge)
    ensures Repainted(log.nodes, out.nodes, InkOf(child, Green))
  {
    var o1 := Sprout(current, child, log);
    out := Narrate2(kind, EnqueueChild(dir, from), o1, TentativeEdge);
    ExtendsChain(log, o1, out, [], IdSet(child), LinkKey(current, child), [kind, EnqueueChild(dir, from)], {}, {},
                 [kind, EnqueueChild(dir, from)], IdSet(child), LinkKey(current, child), TentativeEdge);
  }

  /** Two steps in a row. */
  method Narrate2(k1: StepKind, k2: StepKind, log: Log, ghost st: EdgeState) returns (out: Log)
    requires Good(log)
    ensures Extends(log, out, [k1, k2], {}, {}, st)
    ensures out.nodes == log.nodes
  {
    var o1 := Push(log, k1);
    PushExtends(log, k1, st);
    out := Push(o1, k2);
    PushExtends(o1, k2, st);
    ExtendsChain(log, o1, out, [k1], {}, {}, [k2], {}, {}, [k1, k2], {}, {}, st);
  }

  /** The created node at scale 1.2 and opacity 0.7, and the edge to it at width 1.5 and opacity 0.7. */
  method Sprout(current: Tree, child: Tree, log: Log) returns (out: Log)
    requires Good(log)
    ensures Extends(log, out, [], IdSet(child), LinkKey(current, child), TentativeEdge)
    ensures Shows(out.nodes, child, Green, 12, 7) && Repainted(log.nodes, out.nodes, InkOf(child, Green))
  {
    var o1 := Paint(child, Green, 12, 7, log, TentativeEdge);
    if HasId(current) && HasId(child) {
      out := SetEdge(o1, EdgeKey(current.id, child.id), TentativeEdge);
      SetEdgeExtends(o1, EdgeKey(current.id, child.id), TentativeEdge);
      ExtendsChain(log, o1, out, [], IdSet(child), {}, [], {}, LinkKey(current, child),
                   [], IdSet(child), LinkKey(current, child), TentativeEdge);
    } else {
      out := o1;
      assert LinkKey(current, child) == {};
    }
  }

  /** Settle the two input children, then the created node and the edge to it. */
  method Restore(current: Tree, c1: Tree, c2: Tree, child: Tree, log: Log) returns (out: Log)
    requires Good(log)
    ensures Extends(log, out, [], IdSet(c1) + IdSet(c2) + IdSet(child), LinkKey(current, child), SettledEdge)
    ensures SettledOn(out.nodes, IdSet(c1) + IdSet(c2) + IdSet(child))
    ensures Repainted(log.nodes, out.nodes, AttachInks(c1, c2, child))
  {
    var o1 := Paint2(c1, Blue, c2, Orange, 10, 10, log, SettledEdge);
    out := SettleChild(current, child, o1);
    RepaintedTrans(log.nodes, o1.nodes, out.nodes, InkOf(c1, Blue) + InkOf(c2, Orange), InkOf(child, Green), AttachInks(c1, c2, child));
    ExtendsChain(log, o1, out, [], IdSet(c1) + IdSet(c2), {}, [], IdSet(child), LinkKey(current, child),
                 [], IdSet(c1) + IdSet(c2) + IdSet(child), LinkKey(current, child), SettledEdge);
    SettledCarry(o1.nodes, out.nodes, IdSet(child), IdSet(c1) + IdSet(c2));
  }

  /** `if (mergedChild.id)`: settle it and, `if (current.id)`, the edge to it. */
  method SettleChild(current: Tree, child: Tree, log: Log) returns (out: Log)
    requires Good(log)
    ensures Extends(log, out, [], IdSet(child), LinkKey(current, child), SettledEdge)
    ensures SettledOn(out.nodes, IdSet(child))
    ensures Shows(out.nodes, child, Green, 10, 10) && Repainted(log.nodes, out.nodes, InkOf(child, Green))
  {
    if HasId(child) {
      var o1 := Paint(child, Green, 10, 10, log, SettledEdge);
      out := SettleEdge(current, child, o1);
      ExtendsChain(log, o1, out, [], IdSet(child), {}, [], {}, LinkKey(current, child),
                   [], IdSet(child), LinkKey(current, child), SettledEdge);
    } else {
      out := log;
      ExtendsRefl(log, SettledEdge);
      assert LinkKey(current, child) == {} && IdSet(child) == {};
    }
  }

  /** The edge from `current` to `child` at width 1 and opacity 1, when both have ids. */
  method SettleEdge(current: Tree, child: Tree, log: Log) returns (out: Log)
    requires Good(log)
    ensures Extends(log, out, [], {}, LinkKey(current, child), SettledEdge)
    ensures out.nodes == log.nodes
  {
    if HasId(current) && HasId(child) {
      out := SetEdge(log, EdgeKey(current.id, child.id), SettledEdge);
      SetEdgeExtends(log, EdgeKey(current.id, child.id), SettledEdge);
    } else {
      out := log;
      ExtendsRefl(log, SettledEdge);
    }
  }

  /** `if (t.id) nodesState.set(t.id, ...)` with the given colour, scale and opacity. */
  method Paint(t: Tree, color: Color, scale: int, opacity: int, log: Log, ghost st: EdgeState) returns (out: Log)
    requires Good(log)
    ensures Extends(log, out, [], IdSet(t), {}, st)
    ensures scale == 10 && opacity == 10 ==> SettledOn(out.nodes, IdSet(t))
    ensures out.steps == log.steps && Shows(out.nodes, t, color, scale, opacity)
    ensures Repainted(log.nodes, out.nodes, InkOf(t, color))
  {
    out := SetNode(log, t, color, scale, opacity);
    SetNodeExtends(log, t, color, scale, opacity, st);
    SetNodeRepaints(log, t, color, scale, opacity);
  }

  /** Two `nodesState.set` calls in a row. */
  method Paint2(a: Tree, ca: Color, b: Tree, cb: Color, scale: int, opacity: int, log: Log, ghost st: EdgeState) returns (out: Log)
    requires Good(log)
    ensures Extends(log, out, [], IdSet(a) + IdSet(b), {}, st)
    ensures scale == 10 && opacity == 10 ==> SettledOn(out.nodes, IdSet(a) + IdSet(b))
    ensures out.steps == log.steps
    ensures Shows(out.nodes, b, cb, scale, opacity) && (Apart(a, b) ==> Shows(out.nodes, a, ca, scale, opacity))
    ensures Repainted(log.nodes, out.nodes, InkOf(a, ca) + InkOf(b, cb))
  {
    var o1 := Paint(a, ca, scale, opacity, log, st);
    out := Paint(b, cb, scale, opacity, o1, st);
    ExtendsTrans(log, o1, out, [], IdSet(a), {}, [], IdSet(b), {}, st);
    RepaintedTrans(log.nodes, o1.nodes, out.nodes, InkOf(a, ca), InkOf(b, cb), InkOf(a, ca) + InkOf(b, cb));
    if scale == 10 && opacity == 10 {
      SettledCarry(o1.nodes, out.nodes, IdSet(b), IdSet(a));
    }
  }

  /** Keys settled before a step stay settled when the step settles what it touches. */
  lemma SettledCarry(before: map<string, NodeState>, after: map<string, NodeState>, touched: set<string>, ks: set<string>)
    requires SettledOn(before, ks) && Unchanged(before, after, touched) && SettledOn(after, touched)
    ensures SettledOn(after, ks + touched)
  {
  }

  // ---------------------------------------------------------------------------------------
  // The engine, one dequeued pair at a time

  /** The styles a pair writes: the three dequeued nodes and both child directions. */
  function PairTouched(current: Tree, node1: Tree, node2: Tree): set<string>
  {
    ChildTouched(Left, node1, node2) + ChildTouched(Right, node1, node2)
    + (IdSet(current) + IdSet(node1) + IdSet(node2))
  }

  /** The edges a pair draws: from `current` to each created child. */
  function PairLinks(current: Tree, node1: Tree, node2: Tree): set<string>
  {
    ChildLink(Left, current, node1, node2) + ChildLink(Right, current, node1, node2)
  }

  /**
   * The body of the `for` loop after the three `shift` calls: narrate the dequeue, highlight
   * the three nodes, handle the left then the right child, and settle the three nodes again.
   */
  method ProcessPair(current: Tree, node1: Tree, node2: Tree, log: Log, q1: seq<Tree>, q2: seq<Tree>, mq: seq<Tree>)
    returns (out: Log, q1': seq<Tree>, q2': seq<Tree>, mq': seq<Tree>)
    requires Good(log)
    ensures Extends(log, out, PairSteps(node1, node2), PairTouched(current, node1, node2),
                    PairLinks(current, node1, node2), SettledEdge)
    ensures SettledOn(out.nodes, PairTouched(current, node1, node2))
    ensures Repainted(log.nodes, out.nodes, PairInks(current, node1, node2))
    ensures q1' == q1 + Entry(Left, node1, node2, Child(node1, Left)) + Entry(Right, node1, node2, Child(node1, Right))
    ensures q2' == q2 + Entry(Left, node1, node2, Child(node2, Left)) + Entry(Right, node1, node2, Child(node2, Right))
    ensures mq' == mq + Entry(Left, node1, node2, ChildMerged(Left, node1, node2))
                      + Entry(Right, node1, node2, ChildMerged(Right, node1, node2))
  {
    var o1 := Spotlight(current, node1, node2, log);
    var o2, o3;
    o2, q1', q2', mq' := ChildStep(Left, current, node1, node2, o1, q1, q2, mq);
    o3, q1', q2', mq' := ChildStep(Right, current, node1, node2, o2, q1', q2', mq');
    ChildrenDone(current, node1, node2, o1, o2, o3);
    out := Settle(current, node1, node2, o3);
    ChildrenThenSettle(current, node1, node2, o1, o3, out);
    PairDone(current, node1, node2, log, o1, out);
    PairRepaints(current, node1, node2, log.nodes, o1.nodes, o2.nodes, o3.nodes, out.nodes);
  }

  /** The inks a pair writes: the three dequeued nodes and both child directions. */
  function PairInks(current: Tree, node1: Tree, node2: Tree): set<Ink>
  {
    ChildInks(Left, node1, node2) + ChildInks(Right, node1, node2) + TrioInks(current, node1, node2)
  }

  /** The highlight, the two child directions and the settling write only the pair's inks. */
  lemma PairRepaints(current: Tree, node1: Tree, node2: Tree, a: map<string, NodeState>, b: map<string, NodeState>,
                     c: map<string, NodeState>, d: map<string, NodeState>, e: map<string, NodeState>)
    requires Repainted(a, b, TrioInks(current, node1, node2))
    requires Repainted(b, c, ChildInks(Left, node1, node2)) && Repainted(c, d, ChildInks(Right, node1, node2))
    requires Repainted(d, e, TrioInks(current, node1, node2))
    ensures Repainted(a, e, PairInks(current, node1, node2))
  {
    var w := PairInks(current, node1, node2);
    RepaintedTrans(a, b, c, TrioInks(current, node1, node2), ChildInks(Left, node1, node2), w);
    RepaintedTrans(a, c, d, w, ChildInks(Right, node1, node2), w);
    RepaintedTrans(a, d, e, w, TrioInks(current, node1, node2), w);
  }

  /** Narrate the dequeue and highlight the three dequeued nodes. */
  method Spotlight(current: Tree, node1: Tree, node2: Tree, log: Log) returns (out: Log)
    requires Good(log)
    ensures Extends(log, out, [Dequeue], IdSet(current) + IdSet(node1) + IdSet(node2), {}, SettledEdge)
    ensures Trio(out.nodes, current, node1, node2, 12)
    ensures Repainted(log.nodes, out.nodes, TrioInks(current, node1, node2))
  {
    var o1 := Push(log, Dequeue);
    PushExtends(log, Dequeue, SettledEdge);
    out := Paint3(current, node1, node2, 12, o1);
    ExtendsChain(log, o1, out, [Dequeue], {}, {}, [], IdSet(current) + IdSet(node1) + IdSet(node2), {},
                 [Dequeue], IdSet(current) + IdSet(node1) + IdSet(node2), {}, SettledEdge);
  }

  /** Settle the three dequeued nodes. */
  method Settle(current: Tree, node1: Tree, node2: Tree, log: Log) returns (out: Log)
    requires Good(log)
    ensures Extends(log, out, [], IdSet(current) + IdSet(node1) + IdSet(node2), {}, SettledEdge)
    ensures SettledOn(out.nodes, IdSet(current) + IdSet(node1) + IdSet(node2))
    ensures Trio(out.nodes, current, node1, node2, 10)
    ensures Repainted(log.nodes, out.nodes, TrioInks(current, node1, node2))
  {
    out := Paint3(current, node1, node2, 10, log);
  }

  /**
   * The second input's node orange, the first input's blue and the merged node green, each
   * with its value at `scale` and full opacity; a later style wins where two share an id.
   */
  ghost predicate Trio(nodes: map<string, NodeState>, current: Tree, node1: Tree, node2: Tree, scale: int)
  {
    Shows(nodes, node2, Orange, scale, 10)
    && (Apart(node1, node2) ==> Shows(nodes, node1, Blue, scale, 10))
    && (Apart(current, node1) && Apart(current, node2) ==> Shows(nodes, current, Green, scale, 10))
  }

  /** The inks of a dequeued pair: the merged node green, the first input blue, the second orange. */
  function TrioInks(current: Tree, node1: Tree, node2: Tree): set<Ink>
  {
    InkOf(current, Green) + InkOf(node1, Blue) + InkOf(node2, Orange)
  }

  /** The merged node green, the first input blue, the second orange, at the given scale and full opacity. */
  method Paint3(current: Tree, node1: Tree, node2: Tree, scale: int, log: Log) returns (out: Log)
    requires Good(log)
    ensures Extends(log, out, [], IdSet(current) + IdSet(node1) + IdSet(node2), {}, SettledEdge)
    ensures scale == 10 ==> SettledOn(out.nodes, IdSet(current) + IdSet(node1) + IdSet(node2))
    ensures out.steps == log.steps && Trio(out.nodes, current, node1, node2, scale)
    ensures Repainted(log.nodes, out.nodes, TrioInks(current, node1, node2))
  {
    var o1 := Paint(current, Green, scale, 10, log, SettledEdge);
    out := Paint2(node1, Blue, node2, Orange, scale, 10, o1, SettledEdge);
    TrioShown(log.nodes, o1.nodes, out.nodes, current, node1, node2, scale);
    TrioDone(log, o1, out, current, node1, node2, scale);
  }

  /** Setting the merged node's style and then the two inputs' touches the three ids. */
  lemma TrioDone(log: Log, o1: Log, out: Log, current: Tree, node1: Tree, node2: Tree, scale: int)
    requires Extends(log, o1, [], IdSet(current), {}, SettledEdge) && Extends(o1, out, [], IdSet(node1) + IdSet(node2), {}, SettledEdge)
    requires scale == 10 ==> SettledOn(o1.nodes, IdSet(current)) && SettledOn(out.nodes, IdSet(node1) + IdSet(node2))
    ensures Extends(log, out, [], IdSet(current) + IdSet(node1) + IdSet(node2), {}, SettledEdge)
    ensures scale == 10 ==> SettledOn(out.nodes, IdSet(current) + IdSet(node1) + IdSet(node2))
  {
    ExtendsChain(log, o1, out, [], IdSet(current), {}, [], IdSet(node1) + IdSet(node2), {},
                 [], IdSet(current) + IdSet(node1) + IdSet(node2), {}, SettledEdge);
    if scale == 10 {
      SettledCarry(o1.nodes, out.nodes, IdSet(node1) + IdSet(node2), IdSet(current));
    }
  }

  /**
   * The merged node's style survives the two input styles set after it unless they share its
   * id, and the three settings write only the three inks.
   */
  lemma TrioShown(start: map<string, NodeState>, before: map<string, NodeState>, after: map<string, NodeState>,
                  current: Tree, node1: Tree, node2: Tree, scale: int)
    requires Repainted(start, before, InkOf(current, Green)) && Repainted(before, after, InkOf(node1, Blue) + InkOf(node2, Orange))
    requires Shows(before, current, Green, scale, 10) && Unchanged(before, after, IdSet(node1) + IdSet(node2))
    requires Shows(after, node2, Orange, scale, 10) && (Apart(node1, node2) ==> Shows(after, node1, Blue, scale, 10))
    ensures Trio(after, current, node1, node2, scale) && Repainted(start, after, TrioInks(current, node1, node2))
  {
    RepaintedTrans(start, before, after, InkOf(current, Green), InkOf(node1, Blue) + InkOf(node2, Orange),
                   TrioInks(current, node1, node2));
  }

  /** The left and then the right child direction, together. */
  lemma ChildrenDone(current: Tree, node1: Tree, node2: Tree, o1: Log, o2: Log, o3: Log)
    requires Extends(o1, o2, ChildSteps(Left, node1, node2), ChildTouched(Left, node1, node2),
                     ChildLink(Left, current, node1, node2), SettledEdge)
    requires SettledOn(o2.nodes, ChildTouched(Left, node1, node2))
    requires Extends(o2, o3, ChildSteps(Right, node1, node2), ChildTouched(Right, node1, node2),
                     ChildLink(Right, current, node1, node2), SettledEdge)
    requires SettledOn(o3.nodes, ChildTouched(Right, node1, node2))
    ensures Extends(o1, o3, ChildSteps(Left, node1, node2) + ChildSteps(Right, node1, node2),
                    ChildTouched(Left, node1, node2) + ChildTouched(Right, node1, node2), PairLinks(current, node1, node2), SettledEdge)
    ensures SettledOn(o3.nodes, ChildTouched(Left, node1, node2) + ChildTouched(Right, node1, node2))
  {
    ExtendsTrans(o1, o2, o3, ChildSteps(Left, node1, node2), ChildTouched(Left, node1, node2), ChildLink(Left, current, node1, node2),
                 ChildSteps(Right, node1, node2), ChildTouched(Right, node1, node2), ChildLink(Right, current, node1, node2), SettledEdge);
    SettledCarry(o2.nodes, o3.nodes, ChildTouched(Right, node1, node2), ChildTouched(Left, node1, node2));
  }

  /** The two child directions and then the settling of the three dequeued nodes. */
  lemma ChildrenThenSettle(current: Tree, node1: Tree, node2: Tree, o1: Log, o3: Log, out: Log)
    requires Extends(o1, o3, ChildSteps(Left, node1, node2) + ChildSteps(Right, node1, node2),
                     ChildTouched(Left, node1, node2) + ChildTouched(Right, node1, node2), PairLinks(current, node1, node2), SettledEdge)
    requires SettledOn(o3.nodes, ChildTouched(Left, node1, node2) + ChildTouched(Right, node1, node2))
    requires Extends(o3, out, [], IdSet(current) + IdSet(node1) + IdSet(node2), {}, SettledEdge)
    requires SettledOn(out.nodes, IdSet(current) + IdSet(node1) + IdSet(node2))
    ensures Extends(o1, out, ChildSteps(Left, node1, node2) + ChildSteps(Right, node1, node2),
                    ChildTouched(Left, node1, node2) + ChildTouched(Right, node1, node2) + (IdSet(current) + IdSet(node1) + IdSet(node2)),
                    PairLinks(current, node1, node2), SettledEdge)
    ensures SettledOn(out.nodes, PairTouched(current, node1, node2))
  {
    var t3 := IdSet(current) + IdSet(node1) + IdSet(node2);
    var tc := ChildTouched(Left, node1, node2) + ChildTouched(Right, node1, node2);
    ExtendsChain(o1, o3, out, ChildSteps(Left, node1, node2) + ChildSteps(Right, node1, node2), tc, PairLinks(current, node1, node2),
                 [], t3, {}, ChildSteps(Left, node1, node2) + ChildSteps(Right, node1, node2), tc + t3,
                 PairLinks(current, node1, node2), SettledEdge);
    SettledCarry(o3.nodes, out.nodes, t3, tc);
  }

  lemma PairDone(current: Tree, node1: Tree, node2: Tree, log: Log, o1: Log, out: Log)
    requires Extends(log, o1, [Dequeue], IdSet(current) + IdSet(node1) + IdSet(node2), {}, SettledEdge)
    requires Extends(o1, out, ChildSteps(Left, node1, node2) + ChildSteps(Right, node1, node2),
                     ChildTouched(Left, node1, node2) + ChildTouched(Right, node1, node2) + (IdSet(current) + IdSet(node1) + IdSet(node2)),
                     PairLinks(current, node1, node2), SettledEdge)
    ensures Extends(log, out, PairSteps(node1, node2), PairTouched(current, node1, node2),
                    PairLinks(current, node1, node2), SettledEdge)
  {
    var t3 := IdSet(current) + IdSet(node1) + IdSet(node2);
    var tc := ChildTouched(Left, node1, node2) + ChildTouched(Right, node1, node2);
    assert {} + PairLinks(current, node1, node2) == PairLinks(current, node1, node2);
    ExtendsChain(log, o1, out, [Dequeue], t3, {}, ChildSteps(Left, node1, node2) + ChildSteps(Right, node1, node2), tc + t3,
                 PairLinks(current, node1, node2),
                 PairSteps(node1, node2), PairTouched(current, node1, node2), PairLinks(current, node1, node2), SettledEdge);
  }

  // ---------------------------------------------------------------------------------------
  // A dequeued pair, seen from the positions

  /** The positions enqueued below `p`, as a set. */
  ghost function ChildSet(r1: Tree, r2: Tree, p: Path): set<Path>
  {
    set c | c in ChildPaths(r1, r2, p)
  }

  lemma IdsAt3Union(r1: Tree, r2: Tree, a: set<Path>, b: set<Path>)
    ensures IdsAt3(r1, r2, a + b) == IdsAt3(r1, r2, a) + IdsAt3(r1, r2, b)
  {
    IdsAtUnion(r1, a, b);
    IdsAtUnion(r2, a, b);
    IdsAtUnion(BfsMerged(r1, r2), a, b);
  }

  /** The pair dequeued at `p` holds the subtrees and the merged node of `p`. */
  ghost predicate PairAt(r1: Tree, r2: Tree, p: Path, current: Tree, node1: Tree, node2: Tree)
  {
    node1 == Subtree(r1, p) && node2 == Subtree(r2, p) && current == Leaf(Subtree(BfsMerged(r1, r2), p))
  }

  /** The input children and the created node of a child direction are those of the child position. */
  lemma ChildPos(r1: Tree, r2: Tree, p: Path, d: Dir, current: Tree, node1: Tree, node2: Tree)
    requires r1.Node? && r2.Node? && PairAt(r1, r2, p, current, node1, node2)
    ensures Child(node1, d) == Subtree(r1, p + [d]) && Child(node2, d) == Subtree(r2, p + [d])
    ensures ChildMerged(d, node1, node2) == Leaf(Subtree(BfsMerged(r1, r2), p + [d]))
  {
    SubtreeSnoc(r1, p, d);
    SubtreeSnoc(r2, p, d);
    MergedAt(r1, r2, p + [d]);
  }

  /** The styles a child direction writes are those of the child position. */
  lemma ChildTouchedAt(r1: Tree, r2: Tree, p: Path, d: Dir, current: Tree, node1: Tree, node2: Tree)
    requires r1.Node? && r2.Node? && PairAt(r1, r2, p, current, node1, node2)
    ensures ChildTouched(d, node1, node2) == IdsAt3(r1, r2, {p + [d]})
  {
    var c := p + [d];
    SubtreeSnoc(r1, p, d);
    SubtreeSnoc(r2, p, d);
    MergedAt(r1, r2, c);
    IdsAtOne(r1, c);
    IdsAtOne(r2, c);
    IdsAtOne(BfsMerged(r1, r2), c);
  }

  /** The edge a child direction draws is the merged tree's edge into the child position. */
  lemma ChildLinkAt(r1: Tree, r2: Tree, p: Path, d: Dir, current: Tree, node1: Tree, node2: Tree)
    requires r1.Node? && r2.Node? && PairAt(r1, r2, p, current, node1, node2) && Live(r1, r2, p)
    ensures ChildLink(d, current, node1, node2) == LinksAt(BfsMerged(r1, r2), {p + [d]})
  {
    var c := p + [d];
    var m := BfsMerged(r1, r2);
    SubtreeSnoc(r1, p, d);
    SubtreeSnoc(r2, p, d);
    MergedAt(r1, r2, c);
    MergedAt(r1, r2, p);
    assert c[..|c| - 1] == p;
    LinksAtOne(m, c);
  }

  /** The links into one position: its parent edge, if both ends have nodes. */
  lemma LinksAtOne(t: Tree, c: Path)
    ensures LinksAt(t, {c}) == if Linked(t, c) then {EdgeKey(Subtree(t, c[..|c| - 1]).id, Subtree(t, c).id)} else {}
  {
    if Linked(t, c) {
      assert EdgeKey(Subtree(t, c[..|c| - 1]).id, Subtree(t, c).id) in LinksAt(t, {c});
    }
  }

  /** The entries one child direction enqueues are those of the child position, when it has a node. */
  lemma QueuedOne(r1: Tree, r2: Tree, p: Path, d: Dir, current: Tree, node1: Tree, node2: Tree)
    requires r1.Node? && r2.Node? && PairAt(r1, r2, p, current, node1, node2)
    ensures Queued(r1, r2, if Live(r1, r2, p + [d]) then [p + [d]] else [],
                   Entry(d, node1, node2, Child(node1, d)), Entry(d, node1, node2, Child(node2, d)),
                   Entry(d, node1, node2, ChildMerged(d, node1, node2)))
  {
    SubtreeSnoc(r1, p, d);
    SubtreeSnoc(r2, p, d);
    MergedAt(r1, r2, p + [d]);
  }

  /** The children of `p` that have nodes, as a set. */
  lemma ChildSetIs(r1: Tree, r2: Tree, p: Path)
    ensures ChildSet(r1, r2, p)
         == (if Live(r1, r2, p + [Left]) then {p + [Left]} else {}) + (if Live(r1, r2, p + [Right]) then {p + [Right]} else {})
  {
  }

  /** A child position without a node adds no style and no edge. */
  lemma DeadChild(r1: Tree, r2: Tree, c: Path)
    requires r1.Node? && r2.Node? && !Live(r1, r2, c)
    ensures IdsAt3(r1, r2, {c}) == {} && LinksAt(BfsMerged(r1, r2), {c}) == {}
  {
    MergedAt(r1, r2, c);
    IdsAtOne(r1, c);
    IdsAtOne(r2, c);
    IdsAtOne(BfsMerged(r1, r2), c);
  }

  /** Enqueueing a child position only when it has a node loses no style and no edge. */
  lemma OneOrNone(r1: Tree, r2: Tree, c: Path)
    requires r1.Node? && r2.Node?
    ensures IdsAt3(r1, r2, if Live(r1, r2, c) then {c} else {}) == IdsAt3(r1, r2, {c})
    ensures LinksAt(BfsMerged(r1, r2), if Live(r1, r2, c) then {c} else {}) == LinksAt(BfsMerged(r1, r2), {c})
  {
    if !Live(r1, r2, c) {
      DeadChild(r1, r2, c);
      assert IdsAt3(r1, r2, {}) == {};
      assert LinksAt(BfsMerged(r1, r2), {}) == {};
    }
  }

  /** The styles and edges of the enqueued children are those of the left and the right child. */
  lemma ChildrenKeys(r1: Tree, r2: Tree, p: Path)
    requires r1.Node? && r2.Node?
    ensures IdsAt3(r1, r2, ChildSet(r1, r2, p)) == IdsAt3(r1, r2, {p + [Left]}) + IdsAt3(r1, r2, {p + [Right]})
    ensures LinksAt(BfsMerged(r1, r2), ChildSet(r1, r2, p))
         == LinksAt(BfsMerged(r1, r2), {p + [Left]}) + LinksAt(BfsMerged(r1, r2), {p + [Right]})
  {
    var l, r := p + [Left], p + [Right];
    var a: set<Path> := if Live(r1, r2, l) then {l} else {};
    var b: set<Path> := if Live(r1, r2, r) then {r} else {};
    ChildSetIs(r1, r2, p);
    OneOrNone(r1, r2, l);
    OneOrNone(r1, r2, r);
    IdsAt3Union(r1, r2, a, b);
    LinksAtUnion(BfsMerged(r1, r2), a, b);
  }

  /** The three dequeued nodes carry the ids found at their position. */
  lemma PositionKeys(r1: Tree, r2: Tree, p: Path, current: Tree, node1: Tree, node2: Tree)
    requires PairAt(r1, r2, p, current, node1, node2)
    ensures IdSet(current) + IdSet(node1) + IdSet(node2) == IdsAt3(r1, r2, {p})
  {
    IdsAtOne(r1, p);
    IdsAtOne(r2, p);
    IdsAtOne(BfsMerged(r1, r2), p);
  }

  /** What a pair touches is what its position and its enqueued children hold. */
  lemma PairTouchedKeys(r1: Tree, r2: Tree, p: Path, current: Tree, node1: Tree, node2: Tree)
    requires r1.Node? && r2.Node? && PairAt(r1, r2, p, current, node1, node2)
    ensures PairTouched(current, node1, node2) == IdsAt3(r1, r2, ChildSet(r1, r2, p)) + IdsAt3(r1, r2, {p})
  {
    ChildTouchedAt(r1, r2, p, Left, current, node1, node2);
    ChildTouchedAt(r1, r2, p, Right, current, node1, node2);
    ChildrenKeys(r1, r2, p);
    PositionKeys(r1, r2, p, current, node1, node2);
  }

  lemma PairLinkKeys(r1: Tree, r2: Tree, p: Path, current: Tree, node1: Tree, node2: Tree)
    requires r1.Node? && r2.Node? && PairAt(r1, r2, p, current, node1, node2) && Live(r1, r2, p)
    ensures PairLinks(current, node1, node2) == LinksAt(BfsMerged(r1, r2), ChildSet(r1, r2, p))
  {
    ChildLinkAt(r1, r2, p, Left, current, node1, node2);
    ChildLinkAt(r1, r2, p, Right, current, node1, node2);
    ChildrenKeys(r1, r2, p);
  }

  /** The log after a pair records its position's enqueued children too. */
  lemma PairRecorded(r1: Tree, r2: Tree, ps: set<Path>, p: Path, current: Tree, node1: Tree, node2: Tree, log: Log, out: Log)
    requires r1.Node? && r2.Node? && PairAt(r1, r2, p, current, node1, node2) && Live(r1, r2, p) && p in ps
    requires Recorded(r1, r2, ps, log)
    requires Extends(log, out, PairSteps(node1, node2), PairTouched(current, node1, node2), PairLinks(current, node1, node2), SettledEdge)
    requires SettledOn(out.nodes, PairTouched(current, node1, node2))
    requires Repainted(log.nodes, out.nodes, PairInks(current, node1, node2))
    ensures Recorded(r1, r2, ps + ChildSet(r1, r2, p), out)
  {
    RecordedKeys(r1, r2, ps, p, current, node1, node2, log.nodes.Keys, out.nodes.Keys);
    RecordedLinks(r1, r2, ps, p, current, node1, node2, log.edges, out.edges);
    SettledAfter(log.nodes, out.nodes, PairTouched(current, node1, node2));
    PairInksWithin(r1, r2, p, current, node1, node2);
    PaintedAfter(log.nodes, out.nodes, PairInks(current, node1, node2), BfsInks(r1, r2));
  }

  /** What a pair writes are inks of the nodes at its position and at its two child positions. */
  lemma PairInksWithin(r1: Tree, r2: Tree, p: Path, current: Tree, node1: Tree, node2: Tree)
    requires r1.Node? && r2.Node? && PairAt(r1, r2, p, current, node1, node2)
    ensures PairInks(current, node1, node2) <= BfsInks(r1, r2)
  {
    ChildInksWithin(r1, r2, p, Left, current, node1, node2);
    ChildInksWithin(r1, r2, p, Right, current, node1, node2);
    InksAt(r1, r2, p);
  }

  /** One child direction writes inks of the nodes at the child position. */
  lemma ChildInksWithin(r1: Tree, r2: Tree, p: Path, d: Dir, current: Tree, node1: Tree, node2: Tree)
    requires r1.Node? && r2.Node? && PairAt(r1, r2, p, current, node1, node2)
    ensures ChildInks(d, node1, node2) <= BfsInks(r1, r2)
  {
    ChildPos(r1, r2, p, d, current, node1, node2);
    InksAt(r1, r2, p + [d]);
  }

  /** The nodes at one position, drawn in their trees' colours, are among the merge's inks. */
  lemma InksAt(r1: Tree, r2: Tree, p: Path)
    ensures InkOf(Subtree(r1, p), Blue) + InkOf(Subtree(r2, p), Orange) + InkOf(Leaf(Subtree(BfsMerged(r1, r2), p)), Green)
         <= BfsInks(r1, r2)
  {
    InkWithin(r1, p, Blue);
    InkWithin(r2, p, Orange);
    InkWithin(BfsMerged(r1, r2), p, Green);
  }

  /** The styled keys after one pair: those of the positions done so far and of its children. */
  lemma RecordedKeys(r1: Tree, r2: Tree, ps: set<Path>, p: Path, current: Tree, node1: Tree, node2: Tree,
                     before: set<string>, after: set<string>)
    requires r1.Node? && r2.Node? && PairAt(r1, r2, p, current, node1, node2) && p in ps
    requires before == IdsAt3(r1, r2, ps) && after == before + PairTouched(current, node1, node2)
    ensures after == IdsAt3(r1, r2, ps + ChildSet(r1, r2, p))
  {
    var cs := ChildSet(r1, r2, p);
    PairTouchedKeys(r1, r2, p, current, node1, node2);
    IdsAt3Union(r1, r2, ps, cs);
    IdsAt3Union(r1, r2, ps, {p});
    assert ps + {p} == ps;
    KeysGrowBy(after, before, PairTouched(current, node1, node2), IdsAt3(r1, r2, ps), IdsAt3(r1, r2, cs),
               IdsAt3(r1, r2, {p}), IdsAt3(r1, r2, ps + cs));
  }

  /** The edges after one pair: the merged tree's links into the positions done so far and its children. */
  lemma RecordedLinks(r1: Tree, r2: Tree, ps: set<Path>, p: Path, current: Tree, node1: Tree, node2: Tree,
                      before: map<string, EdgeState>, after: map<string, EdgeState>)
    requires r1.Node? && r2.Node? && PairAt(r1, r2, p, current, node1, node2) && Live(r1, r2, p)
    requires before == Drawn(LinksAt(BfsMerged(r1, r2), ps), SettledEdge)
    requires after == before + Drawn(PairLinks(current, node1, node2), SettledEdge)
    ensures after == Drawn(LinksAt(BfsMerged(r1, r2), ps + ChildSet(r1, r2, p)), SettledEdge)
  {
    var m := BfsMerged(r1, r2);
    var cs := ChildSet(r1, r2, p);
    PairLinkKeys(r1, r2, p, current, node1, node2);
    LinksAtUnion(m, ps, cs);
    DrawnJoin(LinksAt(m, ps), LinksAt(m, cs), SettledEdge);
  }

  lemma KeysGrowBy(keys: set<string>, before: set<string>, touched: set<string>, xs: set<string>, xc: set<string>,
                   xp: set<string>, xall: set<string>)
    requires keys == before + touched && before == xs && touched == xc + xp && xp <= xs && xall == xs + xc
    ensures keys == xall
  {
  }

  lemma DrawnJoin(a: set<string>, b: set<string>, st: EdgeState)
    ensures Drawn(a, st) + Drawn(b, st) == Drawn(a + b, st)
  {
  }

  // ---------------------------------------------------------------------------------------
  // The queues, one dequeued pair and one level at a time

  /** The positions held in a queue, as a set. */
  ghost function Elems(ps: seq<Path>): set<Path>
  {
    set c | c in ps
  }

  /** The entries a pair enqueues are those of its children that have nodes, left first. */
  lemma QueuedChildren(r1: Tree, r2: Tree, p: Path, current: Tree, node1: Tree, node2: Tree)
    requires r1.Node? && r2.Node? && PairAt(r1, r2, p, current, node1, node2)
    ensures Queued(r1, r2, ChildPaths(r1, r2, p),
                   Entry(Left, node1, node2, Child(node1, Left)) + Entry(Right, node1, node2, Child(node1, Right)),
                   Entry(Left, node1, node2, Child(node2, Left)) + Entry(Right, node1, node2, Child(node2, Right)),
                   Entry(Left, node1, node2, ChildMerged(Left, node1, node2))
                   + Entry(Right, node1, node2, ChildMerged(Right, node1, node2)))
  {
    QueuedOne(r1, r2, p, Left, current, node1, node2);
    QueuedOne(r1, r2, p, Right, current, node1, node2);
    QueuedAppend(r1, r2, if Live(r1, r2, p + [Left]) then [p + [Left]] else [],
                 Entry(Left, node1, node2, Child(node1, Left)), Entry(Left, node1, node2, Child(node2, Left)),
                 Entry(Left, node1, node2, ChildMerged(Left, node1, node2)),
                 if Live(r1, r2, p + [Right]) then [p + [Right]] else [],
                 Entry(Right, node1, node2, Child(node1, Right)), Entry(Right, node1, node2, Child(node2, Right)),
                 Entry(Right, node1, node2, ChildMerged(Right, node1, node2)));
  }

  /**
   * The three `shift` calls and the body of the `for` loop: the pair at the front of the
   * queues is the one at the front position; afterwards its children with nodes are queued
   * behind the rest, the log records them too, and the pair's steps are appended.
   */
  method DequeueFront(r1: Tree, r2: Tree, ghost ps: seq<Path>, ghost done: set<Path>, log: Log,
                      q1: seq<Tree>, q2: seq<Tree>, mq: seq<Tree>)
    returns (out: Log, q1': seq<Tree>, q2': seq<Tree>, mq': seq<Tree>)
    requires r1.Node? && r2.Node? && Queued(r1, r2, ps, q1, q2, mq) && |ps| > 0
    requires Live(r1, r2, ps[0]) && ps[0] in done && Recorded(r1, r2, done, log)
    ensures Queued(r1, r2, ps[1..] + ChildPaths(r1, r2, ps[0]), q1', q2', mq')
    ensures Recorded(r1, r2, done + ChildSet(r1, r2, ps[0]), out)
    ensures Kinds(out.steps) == Kinds(log.steps) + PairSteps(Subtree(r1, ps[0]), Subtree(r2, ps[0]))
  {
    var current, node1, node2 := mq[0], q1[0], q2[0];
    out, q1', q2', mq' := ProcessPair(current, node1, node2, log, q1[1..], q2[1..], mq[1..]);
    PairRecorded(r1, r2, done, ps[0], current, node1, node2, log, out);
    ghost var e1 := Entry(Left, node1, node2, Child(node1, Left)) + Entry(Right, node1, node2, Child(node1, Right));
    ghost var e2 := Entry(Left, node1, node2, Child(node2, Left)) + Entry(Right, node1, node2, Child(node2, Right));
    ghost var em := Entry(Left, node1, node2, ChildMerged(Left, node1, node2))
                    + Entry(Right, node1, node2, ChildMerged(Right, node1, node2));
    Regroup(q1[1..], Entry(Left, node1, node2, Child(node1, Left)), Entry(Right, node1, node2, Child(node1, Right)));
    Regroup(q2[1..], Entry(Left, node1, node2, Child(node2, Left)), Entry(Right, node1, node2, Child(node2, Right)));
    Regroup(mq[1..], Entry(Left, node1, node2, ChildMerged(Left, node1, node2)),
            Entry(Right, node1, node2, ChildMerged(Right, node1, node2)));
    QueuedTail(r1, r2, ps, q1, q2, mq);
    QueuedChildren(r1, r2, ps[0], current, node1, node2);
    QueuedAppend(r1, r2, ps[1..], q1[1..], q2[1..], mq[1..], ChildPaths(r1, r2, ps[0]), e1, e2, em);
  }

  lemma Regroup<T>(a: seq<T>, b: seq<T>, c: seq<T>)
    ensures a + b + c == a + (b + c)
  {
  }

  /** One more dequeued position extends the level's enqueued children and its steps. */
  lemma LevelPrefix(r1: Tree, r2: Tree, qs: seq<Path>, i: nat)
    requires i < |qs|
    ensures NextPaths(r1, r2, qs[..i + 1]) == NextPaths(r1, r2, qs[..i]) + ChildPaths(r1, r2, qs[i])
    ensures Elems(NextPaths(r1, r2, qs[..i + 1])) == Elems(NextPaths(r1, r2, qs[..i])) + ChildSet(r1, r2, qs[i])
    ensures LevelSteps(r1, r2, qs[..i + 1])
         == LevelSteps(r1, r2, qs[..i]) + PairSteps(Subtree(r1, qs[i]), Subtree(r2, qs[i]))
  {
    assert qs[..i + 1][..i] == qs[..i];
  }

  /**
   * Part way through a level: `i` of the level's positions `qs` are dequeued, the queues hold
   * the rest followed by the children enqueued so far, the log records those children too,
   * and the steps of the `i` pairs follow the level's earlier steps `before`.
   */
  ghost predicate Draining(r1: Tree, r2: Tree, qs: seq<Path>, done: set<Path>, i: nat, before: seq<StepKind>,
                           ps: seq<Path>, log: Log, q1: seq<Tree>, q2: seq<Tree>, mq: seq<Tree>)
  {
    i <= |qs| && ps == qs[i..] + NextPaths(r1, r2, qs[..i])
    && Queued(r1, r2, ps, q1, q2, mq)
    && Recorded(r1, r2, done + Elems(NextPaths(r1, r2, qs[..i])), log)
    && Kinds(log.steps) == before + LevelSteps(r1, r2, qs[..i])
  }

  /**
   * The `for` loop over the `size` pairs of one level: each pair is dequeued and processed,
   * its children queued behind the level, so the queues end up holding the next level.
   */
  method DrainLevel(r1: Tree, r2: Tree, ghost qs: seq<Path>, ghost done: set<Path>, ghost level: nat, log: Log,
                    q1: seq<Tree>, q2: seq<Tree>, mq: seq<Tree>)
    returns (out: Log, q1': seq<Tree>, q2': seq<Tree>, mq': seq<Tree>)
    requires r1.Node? && r2.Node? && Queued(r1, r2, qs, q1, q2, mq) && AtDepth(r1, r2, qs, level)
    requires Elems(qs) <= done && Recorded(r1, r2, done, log)
    ensures Queued(r1, r2, NextPaths(r1, r2, qs), q1', q2', mq')
    ensures Recorded(r1, r2, done + Elems(NextPaths(r1, r2, qs)), out)
    ensures Kinds(out.steps) == Kinds(log.steps) + LevelSteps(r1, r2, qs)
  {
    var size := |mq|;
    out, q1', q2', mq' := log, q1, q2, mq;
    ghost var ps := qs;
    DrainingStart(r1, r2, qs, done, log, q1, q2, mq);
    for i := 0 to size
      invariant Draining(r1, r2, qs, done, i, Kinds(log.steps), ps, out, q1', q2', mq')
    {
      out, q1', q2', mq', ps := DrainOne(r1, r2, qs, done, level, i, Kinds(log.steps), ps, out, q1', q2', mq');
    }
    DrainingEnd(r1, r2, qs, done, Kinds(log.steps), ps, out, q1', q2', mq');
  }

  /** One turn of the `for` loop. */
  method DrainOne(r1: Tree, r2: Tree, ghost qs: seq<Path>, ghost done: set<Path>, ghost level: nat, ghost i: nat,
                  ghost before: seq<StepKind>, ghost ps: seq<Path>, log: Log, q1: seq<Tree>, q2: seq<Tree>, mq: seq<Tree>)
    returns (out: Log, q1': seq<Tree>, q2': seq<Tree>, mq': seq<Tree>, ghost ps': seq<Path>)
    requires r1.Node? && r2.Node? && AtDepth(r1, r2, qs, level) && Elems(qs) <= done && i < |qs|
    requires Draining(r1, r2, qs, done, i, before, ps, log, q1, q2, mq)
    ensures Draining(r1, r2, qs, done, i + 1, before, ps', out, q1', q2', mq')
  {
    ghost var seen := done + Elems(NextPaths(r1, r2, qs[..i]));
    FrontOfRest(qs, NextPaths(r1, r2, qs[..i]), i);
    assert qs[i] in Elems(qs);
    out, q1', q2', mq' := DequeueFront(r1, r2, ps, seen, log, q1, q2, mq);
    ps' := ps[1..] + ChildPaths(r1, r2, ps[0]);
    DrainingNext(r1, r2, qs, done, i, before, ps, out, q1', q2', mq');
  }

  lemma FrontOfRest<T>(a: seq<T>, b: seq<T>, i: nat)
    requires i < |a|
    ensures (a[i..] + b)[0] == a[i] && (a[i..] + b)[1..] == a[i + 1..] + b
  {
  }

  /** The bookkeeping of one turn: the dequeued position was `qs[i]`, and its children join the next level. */
  lemma DrainingNext(r1: Tree, r2: Tree, qs: seq<Path>, done: set<Path>, i: nat, before: seq<StepKind>, ps: seq<Path>,
                     out: Log, q1: seq<Tree>, q2: seq<Tree>, mq: seq<Tree>)
    requires i < |qs| && ps == qs[i..] + NextPaths(r1, r2, qs[..i])
    requires Queued(r1, r2, ps[1..] + ChildPaths(r1, r2, ps[0]), q1, q2, mq)
    requires Recorded(r1, r2, done + Elems(NextPaths(r1, r2, qs[..i])) + ChildSet(r1, r2, ps[0]), out)
    requires Kinds(out.steps) == before + LevelSteps(r1, r2, qs[..i]) + PairSteps(Subtree(r1, ps[0]), Subtree(r2, ps[0]))
    ensures Draining(r1, r2, qs, done, i + 1, before, ps[1..] + ChildPaths(r1, r2, ps[0]), out, q1, q2, mq)
  {
    FrontOfRest(qs, NextPaths(r1, r2, qs[..i]), i);
    LevelPrefix(r1, r2, qs, i);
    Regroup(qs[i + 1..], NextPaths(r1, r2, qs[..i]), ChildPaths(r1, r2, qs[i]));
    Regroup(before, LevelSteps(r1, r2, qs[..i]), PairSteps(Subtree(r1, qs[i]), Subtree(r2, qs[i])));
    SetRegroup(done, Elems(NextPaths(r1, r2, qs[..i])), ChildSet(r1, r2, qs[i]));
  }

  lemma SetRegroup<T>(a: set<T>, b: set<T>, c: set<T>)
    ensures a + b + c == a + (b + c)
  {
  }

  lemma DrainingStart(r1: Tree, r2: Tree, qs: seq<Path>, done: set<Path>, log: Log, q1: seq<Tree>, q2: seq<Tree>, mq: seq<Tree>)
    requires Queued(r1, r2, qs, q1, q2, mq) && Recorded(r1, r2, done, log)
    ensures Draining(r1, r2, qs, done, 0, Kinds(log.steps), qs, log, q1, q2, mq)
  {
    assert qs[..0] == [] && qs[0..] == qs;
    assert done + Elems([]) == done;
  }

  lemma DrainingEnd(r1: Tree, r2: Tree, qs: seq<Path>, done: set<Path>, before: seq<StepKind>,
                    ps: seq<Path>, log: Log, q1: seq<Tree>, q2: seq<Tree>, mq: seq<Tree>)
    requires Draining(r1, r2, qs, done, |qs|, before, ps, log, q1, q2, mq)
    ensures Queued(r1, r2, NextPaths(r1, r2, qs), q1, q2, mq)
    ensures Recorded(r1, r2, done + Elems(NextPaths(r1, r2, qs)), log)
    ensures Kinds(log.steps) == before + LevelSteps(r1, r2, qs)
  {
    assert qs[|qs|..] == [] && qs[..|qs|] == qs;
    assert ps == NextPaths(r1, r2, qs);
  }

  // ---------------------------------------------------------------------------------------
  // The `while` loop, one level at a time

  /**
   * At the head of the `while` loop after `level` levels: the queues hold every position at
   * depth `level` that has a node, the log records every such position down to that depth,
   * and the narration still to come is the rest of the loop and the two closing steps.
   */
  ghost predicate Between(r1: Tree, r2: Tree, ps: seq<Path>, done: set<Path>, level: nat, log: Log,
                          q1: seq<Tree>, q2: seq<Tree>, mq: seq<Tree>)
  {
    Frontier(r1, r2, ps, done, level, q1, q2, mq) && Recorded(r1, r2, done, log) && Told(r1, r2, ps, level, log)
  }

  /** The queues hold exactly the positions with nodes at depth `level`; `done` holds those down to it. */
  ghost predicate Frontier(r1: Tree, r2: Tree, ps: seq<Path>, done: set<Path>, level: nat, q1: seq<Tree>, q2: seq<Tree>, mq: seq<Tree>)
  {
    Queued(r1, r2, ps, q1, q2, mq) && AtDepth(r1, r2, ps, level) && AllAt(r1, r2, ps, level)
    && (forall p :: p in done <==> |p| <= level && Live(r1, r2, p))
  }

  /** The narration so far, then the rest of the loop from the queue `ps`, then the two closing steps. */
  ghost predicate Told(r1: Tree, r2: Tree, ps: seq<Path>, level: nat, log: Log)
  {
    AtDepth(r1, r2, ps, level)
    && Kinds(log.steps) + LoopSteps(r1, r2, ps, level) + [QueueEmpty, Complete] == BfsNarration(r1, r2)
  }

  /** A non-empty queue holds a position with a node, so another level lies within the heights. */
  lemma LevelsRemain(r1: Tree, r2: Tree, ps: seq<Path>, done: set<Path>, level: nat, log: Log,
                     q1: seq<Tree>, q2: seq<Tree>, mq: seq<Tree>)
    requires Between(r1, r2, ps, done, level, log, q1, q2, mq) && |mq| > 0
    ensures level < GetTreeHeight(r1) + GetTreeHeight(r2)
  {
    LiveBelowHeight(r1, r2, ps[0]);
  }

  /**
   * One turn of the `while` loop from level `prev`: `currentLevel++`, narrate the level,
   * process its `size` pairs, and narrate its end when the queue still holds the next level.
   */
  method RunLevel(r1: Tree, r2: Tree, ghost ps: seq<Path>, ghost done: set<Path>, prev: nat, log: Log,
                  q1: seq<Tree>, q2: seq<Tree>, mq: seq<Tree>)
    returns (out: Log, q1': seq<Tree>, q2': seq<Tree>, mq': seq<Tree>, level: nat, ghost ps': seq<Path>, ghost done': set<Path>)
    requires r1.Node? && r2.Node? && Between(r1, r2, ps, done, prev, log, q1, q2, mq) && |mq| > 0
    ensures level == prev + 1 && Between(r1, r2, ps', done', level, out, q1', q2', mq')
  {
    level := prev + 1;
    var started := Push(log, LevelStart(level));
    assert forall p :: p in ps ==> p in done;
    out, q1', q2', mq' := DrainLevel(r1, r2, ps, done, prev, started, q1, q2, mq);
    ghost var drained := out;
    assert |mq'| == |NextPaths(r1, r2, ps)|;
    if |mq'| > 0 {
      out := Push(out, LevelDone(level));
    }
    ps' := NextPaths(r1, r2, ps);
    done' := done + Elems(ps');
    FrontierNext(r1, r2, ps, done, prev, q1', q2', mq');
    assert (|mq'| > 0) == (NextPaths(r1, r2, ps) != []);
    ToldNext(r1, r2, ps, prev, Kinds(log.steps), Kinds(out.steps), Kinds(drained.steps), BfsNarration(r1, r2));
  }

  /** The queues and the recorded positions after the level below `m`. */
  lemma FrontierNext(r1: Tree, r2: Tree, ps: seq<Path>, done: set<Path>, m: nat, q1: seq<Tree>, q2: seq<Tree>, mq: seq<Tree>)
    requires AtDepth(r1, r2, ps, m) && AllAt(r1, r2, ps, m)
    requires forall p :: p in done <==> |p| <= m && Live(r1, r2, p)
    requires Queued(r1, r2, NextPaths(r1, r2, ps), q1, q2, mq)
    ensures Frontier(r1, r2, NextPaths(r1, r2, ps), done + Elems(NextPaths(r1, r2, ps)), m + 1, q1, q2, mq)
  {
    LevelAdvance(r1, r2, ps, done, m);
  }

  /** The narration after the level below `m`. */
  lemma ToldNext(r1: Tree, r2: Tree, ps: seq<Path>, m: nat, k0: seq<StepKind>, k1: seq<StepKind>, kd: seq<StepKind>,
                  whole: seq<StepKind>)
    requires AtDepth(r1, r2, ps, m) && AllAt(r1, r2, ps, m) && ps != []
    requires k0 + LoopSteps(r1, r2, ps, m) + [QueueEmpty, Complete] == whole
    requires kd == k0 + [LevelStart(m + 1)] + LevelSteps(r1, r2, ps)
    requires k1 == if NextPaths(r1, r2, ps) != [] then kd + [LevelDone(m + 1)] else kd
    ensures AtDepth(r1, r2, NextPaths(r1, r2, ps), m + 1)
    ensures k1 + LoopSteps(r1, r2, NextPaths(r1, r2, ps), m + 1) + [QueueEmpty, Complete] == whole
  {
    LevelNarration(r1, r2, ps, m, k0, k1, kd);
    Substitute(k0 + LoopSteps(r1, r2, ps, m), k1 + LoopSteps(r1, r2, NextPaths(r1, r2, ps), m + 1),
               [QueueEmpty, Complete], whole);
  }

  lemma Substitute<T>(x: seq<T>, y: seq<T>, t: seq<T>, w: seq<T>)
    requires x + t == w && x == y
    ensures y + t == w
  {
  }

  /** The next level's queue is complete, and the positions recorded reach one level deeper. */
  lemma LevelAdvance(r1: Tree, r2: Tree, ps: seq<Path>, done: set<Path>, level: nat)
    requires AtDepth(r1, r2, ps, level) && AllAt(r1, r2, ps, level)
    requires forall p :: p in done <==> |p| <= level && Live(r1, r2, p)
    ensures AtDepth(r1, r2, NextPaths(r1, r2, ps), level + 1) && AllAt(r1, r2, NextPaths(r1, r2, ps), level + 1)
    ensures forall p :: p in done + Elems(NextPaths(r1, r2, ps)) <==> |p| <= level + 1 && Live(r1, r2, p)
  {
    NextLevel(r1, r2, ps, level);
  }

  /** The steps of one level are the head of the loop's remaining narration. */
  lemma LevelNarration(r1: Tree, r2: Tree, ps: seq<Path>, level: nat, k0: seq<StepKind>, k1: seq<StepKind>, kd: seq<StepKind>)
    requires AtDepth(r1, r2, ps, level) && AllAt(r1, r2, ps, level) && ps != []
    requires kd == k0 + [LevelStart(level + 1)] + LevelSteps(r1, r2, ps)
    requires k1 == if NextPaths(r1, r2, ps) != [] then kd + [LevelDone(level + 1)] else kd
    ensures AtDepth(r1, r2, NextPaths(r1, r2, ps), level + 1)
    ensures k0 + LoopSteps(r1, r2, ps, level) == k1 + LoopSteps(r1, r2, NextPaths(r1, r2, ps), level + 1)
  {
    NextLevel(r1, r2, ps, level);
    var next := NextPaths(r1, r2, ps);
    var ld: seq<StepKind> := if next != [] then [LevelDone(level + 1)] else [];
    assert k1 == kd + ld;
    Regroup5(k0, [LevelStart(level + 1)], LevelSteps(r1, r2, ps), ld, LoopSteps(r1, r2, next, level + 1));
  }

  lemma Regroup5<T>(a: seq<T>, b: seq<T>, c: seq<T>, d: seq<T>, e: seq<T>)
    ensures a + (b + c + d + e) == a + b + c + d + e
  {
  }

  // ---------------------------------------------------------------------------------------
  // The roots

  /**
   * The root step: highlight both roots and the new merged root, narrate the sum, restore
   * the three styles, and narrate the queues' start.
   */
  method MergeRoots(root1: Tree, root2: Tree, log: Log) returns (out: Log, mergedRoot: Tree)
    requires root1.Node? && root2.Node? && Good(log) && log.nodes == map[] && log.edges == map[]
    ensures mergedRoot == Leaf(BfsMerged(root1, root2))
    ensures Recorded(root1, root2, {[]}, out)
    ensures Kinds(out.steps) == Kinds(log.steps) + [MergeRoot(root1.val, root2.val, root1.val + root2.val)] + [InitQueues]
  {
    var shown;
    shown, mergedRoot := ShowRoots(root1, root2, log);
    out := RestoreRoots(root1, root2, mergedRoot, shown);
    RootRecorded(root1, root2, out.nodes);
  }

  /**
   * Both roots at scale 1.2, the merged root created as `merged-<id1>-<id2>` holding the sum
   * and shown at scale 1.2 and opacity 0.7, and the step narrating the sum.
   */
  method ShowRoots(root1: Tree, root2: Tree, log: Log) returns (out: Log, mergedRoot: Tree)
    requires root1.Node? && root2.Node? && Good(log) && log.nodes == map[] && log.edges == map[]
    ensures mergedRoot == Leaf(BfsMerged(root1, root2))
    ensures Good(out) && out.edges == map[]
    ensures out.nodes.Keys == IdSet(root1) + IdSet(root2) + IdSet(mergedRoot)
    ensures Kinds(out.steps) == Kinds(log.steps) + [MergeRoot(root1.val, root2.val, root1.val + root2.val)]
    ensures Highlighted(out.steps[|log.steps|].snapshot.nodesState, root1, root2, mergedRoot)
    ensures Painted(out.nodes, RootInks(root1, root2, mergedRoot))
  {
    var o1 := SetNode(log, root1, Blue, 12, 10);
    Styled(log, root1, Blue, 12, 10);
    var o2 := SetNode(o1, root2, Orange, 12, 10);
    Styled(o1, root2, Orange, 12, 10);
    mergedRoot := CreateTreeNode(root1.val + root2.val, "merged-" + root1.id + "-" + root2.id, "");
    var o3 := SetNode(o2, mergedRoot, Green, 12, 7);
    Styled(o2, mergedRoot, Green, 12, 7);
    Gather(o3.nodes.Keys, log.nodes.Keys, IdSet(root1), IdSet(root2), IdSet(mergedRoot));
    RootsShown(log, o1, o2, o3, root1, root2, mergedRoot, 12, 10, 7);
    out := Push(o3, MergeRoot(root1.val, root2.val, mergedRoot.val));
  }

  /** The inks of the root step: the first root blue, the second orange, the merged root green. */
  function RootInks(root1: Tree, root2: Tree, mergedRoot: Tree): set<Ink>
  {
    InkOf(root1, Blue) + InkOf(root2, Orange) + InkOf(mergedRoot, Green)
  }

  /**
   * Styling the first root, then the second, then the merged root, over empty styles, shows
   * each (unless a later one shares its id) and nothing else.
   */
  lemma RootsShown(log: Log, o1: Log, o2: Log, o3: Log, root1: Tree, root2: Tree, mergedRoot: Tree,
                   scale: int, opacity: int, fade: int)
    requires log.nodes == map[] && o1 == SetNode(log, root1, Blue, scale, opacity)
    requires o2 == SetNode(o1, root2, Orange, scale, opacity) && o3 == SetNode(o2, mergedRoot, Green, scale, fade)
    ensures Painted(o3.nodes, RootInks(root1, root2, mergedRoot))
    ensures Shows(o3.nodes, mergedRoot, Green, scale, fade)
    ensures Apart(root2, mergedRoot) ==> Shows(o3.nodes, root2, Orange, scale, opacity)
    ensures Apart(root1, root2) && Apart(root1, mergedRoot) ==> Shows(o3.nodes, root1, Blue, scale, opacity)
  {
    SetNodeRepaints(log, root1, Blue, scale, opacity);
    SetNodeRepaints(o1, root2, Orange, scale, opacity);
    SetNodeRepaints(o2, mergedRoot, Green, scale, fade);
    assert InksIn(log.nodes) == {};
    RepaintedTrans(log.nodes, o1.nodes, o2.nodes, InkOf(root1, Blue), InkOf(root2, Orange), InkOf(root1, Blue) + InkOf(root2, Orange));
    RepaintedTrans(log.nodes, o2.nodes, o3.nodes, InkOf(root1, Blue) + InkOf(root2, Orange), InkOf(mergedRoot, Green),
                   RootInks(root1, root2, mergedRoot));
  }

  lemma Gather<T>(x: set<T>, e: set<T>, a: set<T>, b: set<T>, c: set<T>)
    requires e == {} && x == e + a + b + c
    ensures x == a + b + c
  {
  }

  /** The three roots back at scale 1 and full opacity, and the step narrating the queues. */
  method RestoreRoots(root1: Tree, root2: Tree, mergedRoot: Tree, log: Log) returns (out: Log)
    requires Good(log) && log.edges == map[]
    requires log.nodes.Keys == IdSet(root1) + IdSet(root2) + IdSet(mergedRoot)
    requires Painted(log.nodes, RootInks(root1, root2, mergedRoot))
    ensures Painted(out.nodes, RootInks(root1, root2, mergedRoot))
    ensures Good(out) && out.edges == map[] && AllSettled(out.nodes)
    ensures out.nodes.Keys == IdSet(root1) + IdSet(root2) + IdSet(mergedRoot)
    ensures Kinds(out.steps) == Kinds(log.steps) + [InitQueues]
  {
    var o1 := SetNode(log, root1, Blue, 10, 10);
    Styled(log, root1, Blue, 10, 10);
    var o2 := SetNode(o1, root2, Orange, 10, 10);
    Styled(o1, root2, Orange, 10, 10);
    SettledCarry(o1.nodes, o2.nodes, IdSet(root2), IdSet(root1));
    var o3 := SetNode(o2, mergedRoot, Green, 10, 10);
    Styled(o2, mergedRoot, Green, 10, 10);
    SettledCarry(o2.nodes, o3.nodes, IdSet(mergedRoot), IdSet(root1) + IdSet(root2));
    Absorb(log.nodes.Keys, IdSet(root1), IdSet(root2), IdSet(mergedRoot));
    SettledEverywhere(o3.nodes, IdSet(root1) + IdSet(root2) + IdSet(mergedRoot));
    RootsRestyled(log, o1, o2, o3, root1, root2, mergedRoot);
    out := Push(o3, InitQueues);
  }

  /** Restyling the three roots keeps the styles within the root step's inks. */
  lemma RootsRestyled(log: Log, o1: Log, o2: Log, o3: Log, root1: Tree, root2: Tree, mergedRoot: Tree)
    requires Painted(log.nodes, RootInks(root1, root2, mergedRoot)) && o1 == SetNode(log, root1, Blue, 10, 10)
    requires o2 == SetNode(o1, root2, Orange, 10, 10) && o3 == SetNode(o2, mergedRoot, Green, 10, 10)
    ensures Painted(o3.nodes, RootInks(root1, root2, mergedRoot))
  {
    var w := RootInks(root1, root2, mergedRoot);
    SetNodeRepaints(log, root1, Blue, 10, 10);
    SetNodeRepaints(o1, root2, Orange, 10, 10);
    SetNodeRepaints(o2, mergedRoot, Green, 10, 10);
    PaintedAfter(log.nodes, o1.nodes, InkOf(root1, Blue), w);
    PaintedAfter(o1.nodes, o2.nodes, InkOf(root2, Orange), w);
    PaintedAfter(o2.nodes, o3.nodes, InkOf(mergedRoot, Green), w);
  }

  /** `nodesState.set` adds the node's key, leaves the other styles alone, and may settle it. */
  lemma Styled(log: Log, t: Tree, color: Color, scale: int, opacity: int)
    ensures SetNode(log, t, color, scale, opacity).nodes.Keys == log.nodes.Keys + IdSet(t)
    ensures Unchanged(log.nodes, SetNode(log, t, color, scale, opacity).nodes, IdSet(t))
    ensures scale == 10 && opacity == 10 ==> SettledOn(SetNode(log, t, color, scale, opacity).nodes, IdSet(t))
  {
  }

  lemma Absorb<T>(x: set<T>, a: set<T>, b: set<T>, c: set<T>)
    requires x == a + b + c
    ensures x + a + b + c == a + b + c
  {
  }

  lemma SettledEverywhere(nodes: map<string, NodeState>, ks: set<string>)
    requires nodes.Keys == ks && SettledOn(nodes, ks)
    ensures AllSettled(nodes)
  {
  }

  /** After the root step the styled nodes are those at the root position, and no edge is drawn. */
  lemma RootRecorded(r1: Tree, r2: Tree, nodes: map<string, NodeState>)
    requires r1.Node? && r2.Node?
    requires nodes.Keys == IdSet(r1) + IdSet(r2) + IdSet(Leaf(BfsMerged(r1, r2)))
    requires Painted(nodes, RootInks(r1, r2, Leaf(BfsMerged(r1, r2))))
    ensures nodes.Keys == IdsAt3(r1, r2, {[]})
    ensures LinksAt(BfsMerged(r1, r2), {[]}) == {}
    ensures Painted(nodes, BfsInks(r1, r2))
  {
    InksAt(r1, r2, []);
    IdsAtOne(r1, []);
    IdsAtOne(r2, []);
    IdsAtOne(BfsMerged(r1, r2), []);
  }

  /** Before the loop the queues hold the root position, the only one recorded so far. */
  lemma FirstLevel(r1: Tree, r2: Tree, log: Log, mergedRoot: Tree)
    requires r1.Node? && r2.Node? && mergedRoot == Leaf(BfsMerged(r1, r2)) && Recorded(r1, r2, {[]}, log)
    requires Kinds(log.steps) == [BfsIntro, CheckEmpty, MergeRoot(r1.val, r2.val, r1.val + r2.val), InitQueues]
    ensures Between(r1, r2, [[]], {[]}, 0, log, [r1], [r2], [mergedRoot])
  {
    FrontierFirst(r1, r2, mergedRoot);
    ToldFirst(r1, r2, log);
    assert Told(r1, r2, [[]], 0, log);
  }

  lemma FrontierFirst(r1: Tree, r2: Tree, mergedRoot: Tree)
    requires r1.Node? && r2.Node? && mergedRoot == Leaf(BfsMerged(r1, r2))
    ensures Frontier(r1, r2, [[]], {[]}, 0, [r1], [r2], [mergedRoot])
  {
  }

  lemma ToldFirst(r1: Tree, r2: Tree, log: Log)
    requires r1.Node? && r2.Node? && AtDepth(r1, r2, [[]], 0)
    requires Kinds(log.steps) == [BfsIntro, CheckEmpty, MergeRoot(r1.val, r2.val, r1.val + r2.val), InitQueues]
    ensures Kinds(log.steps) + LoopSteps(r1, r2, [[]], 0) + [QueueEmpty, Complete] == BfsNarration(r1, r2)
  {
  }

  // ---------------------------------------------------------------------------------------
  // Covering every position

  /** Every node of `t` has a truthy id. */
  lemma {:induction false} BfsSubNamed(a: Tree, b: Tree)
    ensures Named(BfsSub(a, b))
    decreases Size(a) + Size(b)
  {
    if a != Nil || b != Nil {
      BfsSubNamed(Child(a, Left), Child(b, Left));
      BfsSubNamed(Child(a, Right), Child(b, Right));
    }
  }

  /** Recording every position with a node of `t` records every id of `t`. */
  lemma IdsAtCover(t: Tree, done: set<Path>)
    requires forall p :: Subtree(t, p).Node? ==> p in done
    ensures IdsAt(t, done) == Ids(t)
  {
    forall k | k in IdsAt(t, done) ensures k in Ids(t) {
      var p :| p in done && HasId(Subtree(t, p)) && Subtree(t, p).id == k;
      SubtreeIdIn(t, p);
    }
    forall k | k in Ids(t) ensures k in IdsAt(t, done) {
      var p := IdPath(t, k);
    }
  }

  /** The edge into a linked position is one of the edges drawn into or within `t`. */
  lemma {:induction false} LinkIn(t: Tree, parent: string, p: Path)
    requires Linked(t, p)
    ensures EdgeKey(Subtree(t, p[..|p| - 1]).id, Subtree(t, p).id) in EdgeKeys(parent, t)
    decreases |p|
  {
    var c := Child(t, p[0]);
    if |p| == 1 {
      assert p[..0] == [] && p[1..] == [];
      assert Subtree(t, p) == c;
      assert EdgeKey(t.id, c.id) in EdgeKeys(t.id, c);
    } else {
      var q := p[1..];
      assert p[..|p| - 1][1..] == q[..|q| - 1];
      LinkIn(c, t.id, q);
    }
  }

  /** Every edge drawn below a named root is the edge into some linked position. */
  lemma {:induction false} LinkPath(t: Tree, k: string) returns (p: Path)
    requires Named(t) && t.Node? && k in EdgeKeys(t.id, t.left) + EdgeKeys(t.id, t.right)
    ensures Linked(t, p) && k == EdgeKey(Subtree(t, p[..|p| - 1]).id, Subtree(t, p).id)
    decreases Size(t)
  {
    var d := if k in EdgeKeys(t.id, t.left) then Left else Right;
    var c := Child(t, d);
    assert k in EdgeKeys(t.id, c);
    if k == EdgeKey(t.id, c.id) {
      p := [d];
      assert p[..0] == [];
    } else {
      var q := LinkPath(c, k);
      p := [d] + q;
      assert p[1..] == q;
      assert p[..|p| - 1][1..] == q[..|q| - 1];
    }
  }

  /** Recording every position with a node of a named `t` draws every edge of `t`. */
  lemma LinksAtCover(t: Tree, done: set<Path>)
    requires Named(t) && forall p :: Subtree(t, p).Node? ==> p in done
    ensures LinksAt(t, done) == EdgeKeys("", t)
  {
    forall k | k in LinksAt(t, done) ensures k in EdgeKeys("", t) {
      var p :| p in done && Linked(t, p) && k == EdgeKey(Subtree(t, p[..|p| - 1]).id, Subtree(t, p).id);
      LinkIn(t, "", p);
    }
    forall k | k in EdgeKeys("", t) ensures k in LinksAt(t, done) {
      var p := LinkPath(t, k);
    }
  }

  /** With the queue empty, every position with a node has been recorded. */
  lemma Covered(r1: Tree, r2: Tree, done: set<Path>, level: nat, p: Path)
    requires AllAt(r1, r2, [], level) && (forall p :: p in done <==> |p| <= level && Live(r1, r2, p))
    requires Live(r1, r2, p)
    ensures p in done
  {
    NoneDeeper(r1, r2, level, p);
  }

  /**
   * When the queue is empty the narration lacks only its two closing steps, the styled nodes
   * are every node of the three trees, each settled in its tree's colour with its value (where
   * no two trees share its id), and the drawn edges are exactly the merged tree's edges, each
   * settled.
   */
  lemma Finish(r1: Tree, r2: Tree, ps: seq<Path>, done: set<Path>, level: nat, log: Log,
               q1: seq<Tree>, q2: seq<Tree>, mq: seq<Tree>)
    requires r1.Node? && r2.Node? && Between(r1, r2, ps, done, level, log, q1, q2, mq) && |mq| == 0
    ensures Kinds(log.steps) + [QueueEmpty, Complete] == BfsNarration(r1, r2)
    ensures log.nodes.Keys == Ids(r1) + Ids(r2) + Ids(BfsMerged(r1, r2)) && AllSettled(log.nodes)
    ensures log.edges == Drawn(EdgeKeys("", BfsMerged(r1, r2)), SettledEdge)
    ensures Painted(log.nodes, BfsInks(r1, r2)) && ShowsSettled(log.nodes, BfsInks(r1, r2))
  {
    assert ps == [];
    AllCovered(r1, r2, done, level);
    FinishKeys(r1, r2, done, log);
    FinishLinks(r1, r2, done, log);
    FinishInks(r1, r2, log.nodes);
  }

  /** Settled styles for every node, painted from the merge's inks, show each ink no other shares an id with. */
  lemma FinishInks(r1: Tree, r2: Tree, nodes: map<string, NodeState>)
    requires nodes.Keys == Ids(r1) + Ids(r2) + Ids(BfsMerged(r1, r2)) && AllSettled(nodes)
    requires Painted(nodes, BfsInks(r1, r2))
    ensures ShowsSettled(nodes, BfsInks(r1, r2))
  {
    InkIds(r1, Blue);
    InkIds(r2, Orange);
    InkIds(BfsMerged(r1, r2), Green);
    SettledShows(nodes, BfsInks(r1, r2));
  }

  /** With every position done, the styled nodes are every node of the three trees. */
  lemma FinishKeys(r1: Tree, r2: Tree, done: set<Path>, log: Log)
    requires Recorded(r1, r2, done, log)
    requires forall p :: Subtree(r1, p).Node? ==> p in done
    requires forall p :: Subtree(r2, p).Node? ==> p in done
    requires forall p :: Subtree(BfsMerged(r1, r2), p).Node? ==> p in done
    ensures log.nodes.Keys == Ids(r1) + Ids(r2) + Ids(BfsMerged(r1, r2)) && AllSettled(log.nodes)
  {
    IdsAtCover(r1, done);
    IdsAtCover(r2, done);
    IdsAtCover(BfsMerged(r1, r2), done);
  }

  /** With every position done, the drawn edges are exactly the merged tree's edges. */
  lemma FinishLinks(r1: Tree, r2: Tree, done: set<Path>, log: Log)
    requires r1.Node? && r2.Node? && Recorded(r1, r2, done, log)
    requires forall p :: Subtree(BfsMerged(r1, r2), p).Node? ==> p in done
    ensures log.edges == Drawn(EdgeKeys("", BfsMerged(r1, r2)), SettledEdge)
  {
    BfsSubNamed(r1.left, r2.left);
    BfsSubNamed(r1.right, r2.right);
    LinksAtCover(BfsMerged(r1, r2), done);
  }

  /** Once the queues run dry, every position with a node in any of the three trees is done. */
  lemma AllCovered(r1: Tree, r2: Tree, done: set<Path>, level: nat)
    requires r1.Node? && r2.Node?
    requires AllAt(r1, r2, [], level) && (forall p :: p in done <==> |p| <= level && Live(r1, r2, p))
    ensures forall p :: Subtree(r1, p).Node? ==> p in done
    ensures forall p :: Subtree(r2, p).Node? ==> p in done
    ensures forall p :: Subtree(BfsMerged(r1, r2), p).Node? ==> p in done
  {
    forall p | Subtree(r1, p).Node? ensures p in done {
      Covered(r1, r2, done, level, p);
    }
    forall p | Subtree(r2, p).Node? ensures p in done {
      Covered(r1, r2, done, level, p);
    }
    forall p | Subtree(BfsMerged(r1, r2), p).Node? ensures p in done {
      MergedAt(r1, r2, p);
      Covered(r1, r2, done, level, p);
    }
  }

  // ---------------------------------------------------------------------------------------
  // generateBFSAnimationSteps

  /** The style map of an empty-input answer: the other root at scale 1.2 in its tree's colour. */
  function LoneRoot(t: Tree, color: Color): map<string, NodeState>
  {
    if HasId(t) then map[t.id := NodeState(t.val, color, 12, 10)] else map[]
  }

  /**
   * The steps of the level-order merge. With an empty input: three steps, the other root
   * highlighted. Otherwise the narration `BfsNarration`, ending with every node of both inputs
   * and of the merged tree styled and settled, each in its tree's colour with its value where
   * no two trees share its id, and exactly the merged tree's edges drawn, settled.
   */
  method GenerateBfsAnimationSteps(root1: Tree, root2: Tree) returns (steps: seq<AnimationStep>, ghost merged: Tree)
    ensures Stamped(steps) && KeysGrow(steps)
    ensures Kinds(steps) == BfsNarration(root1, root2)
    ensures merged == BfsMerged(root1, root2)
    ensures root1 == Nil ==>
      |steps| == 3 && steps[2].snapshot.nodesState == LoneRoot(root2, Orange) && steps[2].snapshot.edgesState == map[]
    ensures root1 != Nil && root2 == Nil ==>
      |steps| == 3 && steps[2].snapshot.nodesState == LoneRoot(root1, Blue) && steps[2].snapshot.edgesState == map[]
    ensures root1 != Nil && root2 != Nil ==>
      |steps| > 0 && merged.val == root1.val + root2.val && merged.id == "merged-" + root1.id + "-" + root2.id
      && steps[|steps| - 1].snapshot.nodesState.Keys == Ids(root1) + Ids(root2) + Ids(merged)
      && AllSettled(steps[|steps| - 1].snapshot.nodesState)
      && steps[|steps| - 1].snapshot.edgesState == Drawn(EdgeKeys("", merged), SettledEdge)
      && Painted(steps[|steps| - 1].snapshot.nodesState, Inks(root1, Blue) + Inks(root2, Orange) + Inks(merged, Green))
      && ShowsSettled(steps[|steps| - 1].snapshot.nodesState, Inks(root1, Blue) + Inks(root2, Orange) + Inks(merged, Green))
  {
    var log := Opening();
    merged := BfsMerged(root1, root2);
    var out;
    if root1 == Nil {
      out := OneTreeEmpty(root2, Orange, FirstTreeEmpty, log);
    } else if root2 == Nil {
      out := OneTreeEmpty(root1, Blue, SecondTreeEmpty, log);
    } else {
      out := MergeBoth(root1, root2, log);
    }
    steps := out.steps;
    ChainedMeansStampedAndGrowing(steps);
  }

  /** The introduction and the emptiness check, over empty style maps. */
  method Opening() returns (log: Log)
    ensures Good(log) && log.nodes == map[] && log.edges == map[]
    ensures |log.steps| == 2 && Kinds(log.steps) == [BfsIntro, CheckEmpty]
  {
    log := Push(EmptyLog, BfsIntro);
    log := Push(log, CheckEmpty);
  }

  /** An empty input: the other root highlighted at scale 1.2 in `color`, and the step saying so. */
  method OneTreeEmpty(lone: Tree, color: Color, kind: StepKind, log: Log) returns (out: Log)
    requires Good(log) && log.nodes == map[] && log.edges == map[] && |log.steps| == 2
    ensures Good(out) && |out.steps| == 3 && Kinds(out.steps) == Kinds(log.steps) + [kind]
    ensures out.steps[2].snapshot.nodesState == LoneRoot(lone, color) && out.steps[2].snapshot.edgesState == map[]
  {
    out := SetNode(log, lone, color, 12, 10);
    out := Push(out, kind);
  }

  /**
   * Both roots present: the root step, the `while` loop over the levels, the queue-empty step
   * and the closing step.
   */
  method MergeBoth(root1: Tree, root2: Tree, log: Log) returns (out: Log)
    requires root1.Node? && root2.Node?
    requires Good(log) && log.nodes == map[] && log.edges == map[] && Kinds(log.steps) == [BfsIntro, CheckEmpty]
    ensures Good(out) && Kinds(out.steps) == BfsNarration(root1, root2) && |out.steps| > 0
    ensures out.steps[|out.steps| - 1].snapshot.nodesState.Keys == Ids(root1) + Ids(root2) + Ids(BfsMerged(root1, root2))
    ensures AllSettled(out.steps[|out.steps| - 1].snapshot.nodesState)
    ensures out.steps[|out.steps| - 1].snapshot.edgesState == Drawn(EdgeKeys("", BfsMerged(root1, root2)), SettledEdge)
    ensures Painted(out.steps[|out.steps| - 1].snapshot.nodesState, BfsInks(root1, root2))
    ensures ShowsSettled(out.steps[|out.steps| - 1].snapshot.nodesState, BfsInks(root1, root2))
  {
    var started, mergedRoot := MergeRoots(root1, root2, log);
    assert Kinds(started.steps) == [BfsIntro, CheckEmpty, MergeRoot(root1.val, root2.val, root1.val + root2.val), InitQueues];
    FirstLevel(root1, root2, started, mergedRoot);
    var current, q1, q2, mq, currentLevel;
    ghost var paths, done;
    current, q1, q2, mq, currentLevel, paths, done := RunLevels(root1, root2, started, mergedRoot);
    Finish(root1, root2, paths, done, currentLevel, current, q1, q2, mq);
    var closing := Push(current, QueueEmpty);
    out := Push(closing, Complete);
    Close(Kinds(current.steps), QueueEmpty, Complete);
  }

  lemma Close<T>(k: seq<T>, a: T, b: T)
    ensures k + [a] + [b] == k + [a, b]
  {
  }

  /**
   * The `while` loop: from the queues holding the roots, one level per turn, until the merged
   * queue is empty.
   */
  method RunLevels(root1: Tree, root2: Tree, log: Log, mergedRoot: Tree)
    returns (out: Log, q1: seq<Tree>, q2: seq<Tree>, mq: seq<Tree>, currentLevel: nat, ghost paths: seq<Path>, ghost done: set<Path>)
    requires root1.Node? && root2.Node?
    requires Between(root1, root2, [[]], {[]}, 0, log, [root1], [root2], [mergedRoot])
    ensures Between(root1, root2, paths, done, currentLevel, out, q1, q2, mq) && |mq| == 0
  {
    q1, q2, mq := [root1], [root2], [mergedRoot];
    currentLevel := 0;
    out := log;
    paths, done := [[]], {[]};
    while |mq| > 0
      invariant Between(root1, root2, paths, done, currentLevel, out, q1, q2, mq)
      decreases GetTreeHeight(root1) + GetTreeHeight(root2) - currentLevel
    {
      LevelsRemain(root1, root2, paths, done, currentLevel, out, q1, q2, mq);
      out, q1, q2, mq, currentLevel, paths, done := RunLevel(root1, root2, paths, done, currentLevel, out, q1, q2, mq);
    }
  }
}
