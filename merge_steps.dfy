/**
 * createMergeSteps (treeUtils.ts:250-410), the older step generator behind the tree store.
 * A pre-order walk over both trees pushes one described step per position it visits, each
 * carrying a fresh merge of the two subtrees found there, and then a closing step with the
 * tree the walk assembled. Random id suffixes are parameters: `nodeId(p)` for the node the
 * walk builds at position `p`, and `treeId(p)` for the ids of the merge shown by the step at `p`.
 */
module MergeSteps {
  import opened Types
  import opened TreeUtils

  /** The description of one step; the position is the `root.left...` path of the text. */
  datatype MergeNote =
    | BothEmptyAt(path: Path)
    | FirstEmptyAt(path: Path, v: int)
    | SecondEmptyAt(path: Path, v: int)
    | SumAt(path: Path, v1: int, v2: int, sum: int)
    | MergeComplete

  datatype MergeStep = MergeStep(description: MergeNote, mergedTree: Tree)

  /** The walk's two pieces of state: the steps pushed so far and the set of visited paths. */
  datatype Walk = Walk(steps: seq<MergeStep>, visited: set<Path>)

  /**
   * generateMergedTree: where one side is absent, a copy of the other; where both are present,
   * a new node `merged-<id>` holding the sum, over the merges of the children.
   */
  function GenerateMergedTree(root1: Tree, root2: Tree, ids: Path -> string, at: Path): (r: Tree)
    ensures root1 == Nil ==> r == root2
    ensures root2 == Nil ==> r == root1
  {
    if root1 == Nil && root2 == Nil then Nil
    else if root1 == Nil then root2
    else if root2 == Nil then root1
    else Node(root1.val + root2.val, "merged-" + ids(at),
              GenerateMergedTree(root1.left, root2.left, ids, at + [Left]),
              GenerateMergedTree(root1.right, root2.right, ids, at + [Right]))
  }

  /** Up to ids, generateMergedTree is the reference merge. */
  lemma {:induction false} GeneratedIsMerge(t1: Tree, t2: Tree, ids: Path -> string, at: Path,
                                             newId: Path -> string, at': Path)
    ensures Erase(GenerateMergedTree(t1, t2, ids, at)) == Erase(MergeTrees(t1, t2, newId, at'))
  {
    if t1.Node? && t2.Node? {
      GeneratedIsMerge(t1.left, t2.left, ids, at + [Left], newId, at' + [Left]);
      GeneratedIsMerge(t1.right, t2.right, ids, at + [Right], newId, at' + [Right]);
    }
  }

  // ---------------------------------------------------------------------------------------
  // The walk `generateSteps`, as functions of the two subtrees and the position

  /** The steps pushed by the walk from `path`: a present side's existing children only, both positions under a sum. */
  function WalkSteps(n1: Tree, n2: Tree, path: Path, treeId: Path -> Path -> string): seq<MergeStep>
    decreases Size(n1) + Size(n2)
  {
    if n1 == Nil && n2 == Nil then [MergeStep(BothEmptyAt(path), Nil)]
    else if n1 == Nil then
      [MergeStep(FirstEmptyAt(path, n2.val), GenerateMergedTree(Nil, n2, treeId(path), []))]
      + (if n2.left.Node? then WalkSteps(Nil, n2.left, path + [Left], treeId) else [])
      + (if n2.right.Node? then WalkSteps(Nil, n2.right, path + [Right], treeId) else [])
    else if n2 == Nil then
      [MergeStep(SecondEmptyAt(path, n1.val), GenerateMergedTree(n1, Nil, treeId(path), []))]
      + (if n1.left.Node? then WalkSteps(n1.left, Nil, path + [Left], treeId) else [])
      + (if n1.right.Node? then WalkSteps(n1.right, Nil, path + [Right], treeId) else [])
    else
      [MergeStep(SumAt(path, n1.val, n2.val, n1.val + n2.val), GenerateMergedTree(n1, n2, treeId(path), []))]
      + WalkSteps(n1.left, n2.left, path + [Left], treeId)
      + WalkSteps(n1.right, n2.right, path + [Right], treeId)
  }

  /** The tree the walk returns from `path`: a `merged-` node at every position it reaches. */
  function WalkResult(n1: Tree, n2: Tree, path: Path, nodeId: Path -> string): Tree
    decreases Size(n1) + Size(n2)
  {
    if n1 == Nil && n2 == Nil then Nil
    else if n1 == Nil then
      Node(n2.val, "merged-" + nodeId(path),
           if n2.left.Node? then WalkResult(Nil, n2.left, path + [Left], nodeId) else Nil,
           if n2.right.Node? then WalkResult(Nil, n2.right, path + [Right], nodeId) else Nil)
    else if n2 == Nil then
      Node(n1.val, "merged-" + nodeId(path),
           if n1.left.Node? then WalkResult(n1.left, Nil, path + [Left], nodeId) else Nil,
           if n1.right.Node? then WalkResult(n1.right, Nil, path + [Right], nodeId) else Nil)
    else
      Node(n1.val + n2.val, "merged-" + nodeId(path),
           WalkResult(n1.left, n2.left, path + [Left], nodeId),
           WalkResult(n1.right, n2.right, path + [Right], nodeId))
  }

  /** The paths the walk from `path` visits. */
  function WalkPaths(n1: Tree, n2: Tree, path: Path): set<Path>
    decreases Size(n1) + Size(n2)
  {
    if n1 == Nil && n2 == Nil then {path}
    else if n1 == Nil then
      {path} + (if n2.left.Node? then WalkPaths(Nil, n2.left, path + [Left]) else {})
      + (if n2.right.Node? then WalkPaths(Nil, n2.right, path + [Right]) else {})
    else if n2 == Nil then
      {path} + (if n1.left.Node? then WalkPaths(n1.left, Nil, path + [Left]) else {})
      + (if n1.right.Node? then WalkPaths(n1.right, Nil, path + [Right]) else {})
    else
      {path} + WalkPaths(n1.left, n2.left, path + [Left]) + WalkPaths(n1.right, n2.right, path + [Right])
  }

  /** Every path the walk from `path` visits lies at or below `path`. */
  lemma {:induction false} WalkPathsBelow(n1: Tree, n2: Tree, path: Path)
    ensures forall q :: q in WalkPaths(n1, n2, path) ==> Below(q, path)
    decreases Size(n1) + Size(n2)
  {
    if n1 == Nil && n2 == Nil {
    } else if n1 == Nil {
      WalkPathsBelow(Nil, n2.left, path + [Left]);
      WalkPathsBelow(Nil, n2.right, path + [Right]);
      PrefixSnoc(path, Left);
      PrefixSnoc(path, Right);
    } else if n2 == Nil {
      WalkPathsBelow(n1.left, Nil, path + [Left]);
      WalkPathsBelow(n1.right, Nil, path + [Right]);
      PrefixSnoc(path, Left);
      PrefixSnoc(path, Right);
    } else {
      WalkPathsBelow(n1.left, n2.left, path + [Left]);
      WalkPathsBelow(n1.right, n2.right, path + [Right]);
      PrefixSnoc(path, Left);
      PrefixSnoc(path, Right);
    }
  }

  /** `q` is `p` or lies under it: `p` is a prefix of `q`. */
  predicate Below(q: Path, p: Path)
  {
    p <= q
  }

  lemma PrefixSnoc(path: Path, d: Dir)
    ensures forall q :: Below(q, path + [d]) ==> Below(q, path)
  {
    forall q | Below(q, path + [d]) ensures Below(q, path) {
      assert q[..|path|] == (path + [d])[..|path|];
    }
  }

  /** No visited path lies at or below `path`, so the walk from `path` visits only new paths. */
  ghost predicate Unvisited(visited: set<Path>, path: Path)
  {
    forall v :: v in visited ==> !Below(v, path)
  }

  /** After the walk below one child, the other child's subtree is still unvisited. */
  lemma SiblingUnvisited(visited: set<Path>, path: Path, d: Dir, below: set<Path>, e: Dir)
    requires Unvisited(visited, path) && d != e
    requires forall q :: q in below ==> Below(q, path + [d])
    ensures Unvisited(visited + {path} + below, path + [e])
  {
    PrefixSnoc(path, e);
    forall v | v in visited + {path} + below ensures !Below(v, path + [e]) {
      if v in below {
        Diverge(path, d, e, v);
      }
    }
  }

  /** No path lies below two different children of one position. */
  lemma Diverge(path: Path, d: Dir, e: Dir, q: Path)
    requires d != e
    ensures !(Below(q, path + [d]) && Below(q, path + [e]))
  {
    if path + [d] <= q {
      assert q[|path|] == d;
    }
  }

  /** The first child's subtree is unvisited once `path` itself is marked. */
  lemma ChildUnvisited(visited: set<Path>, path: Path, d: Dir)
    requires Unvisited(visited, path)
    ensures Unvisited(visited + {path}, path + [d])
  {
    PrefixSnoc(path, d);
  }

  /** The walk from `path` returned `WalkResult`, pushed `WalkSteps` and marked `WalkPaths` visited. */
  ghost predicate Walked(n1: Tree, n2: Tree, path: Path, nodeId: Path -> string, treeId: Path -> Path -> string,
                         w: Walk, r: Tree, out: Walk)
  {
    r == WalkResult(n1, n2, path, nodeId)
    && out.steps == w.steps + WalkSteps(n1, n2, path, treeId)
    && out.visited == w.visited + WalkPaths(n1, n2, path)
  }

  /**
   * generateSteps: a visited path is skipped (returns null, pushes nothing); otherwise the
   * walk pushes `WalkSteps`, marks `WalkPaths` visited and returns `WalkResult`.
   */
  method GenerateSteps(node1: Tree, node2: Tree, path: Path, nodeId: Path -> string,
                       treeId: Path -> Path -> string, w: Walk) returns (r: Tree, out: Walk)
    ensures path in w.visited ==> r == Nil && out == w
    ensures Unvisited(w.visited, path) ==> Walked(node1, node2, path, nodeId, treeId, w, r, out)
    decreases Size(node1) + Size(node2), 1
  {
    if path in w.visited {
      return Nil, w;
    }
    if node1 == Nil && node2 == Nil {
      out := Walk(w.steps + [MergeStep(BothEmptyAt(path), Nil)], w.visited + {path});
      return Nil, out;
    }
    if node1 == Nil {
      r, out := FirstEmpty(node2, path, nodeId, treeId, w);
    } else if node2 == Nil {
      r, out := SecondEmpty(node1, path, nodeId, treeId, w);
    } else {
      r, out := BothPresent(node1, node2, path, nodeId, treeId, w);
    }
  }

  /** The walk where only the second tree has a node: a copy, visiting its existing children only. */
  method FirstEmpty(node2: Tree, path: Path, nodeId: Path -> string, treeId: Path -> Path -> string, w: Walk)
    returns (r: Tree, out: Walk)
    requires node2.Node?
    ensures Unvisited(w.visited, path) ==> Walked(Nil, node2, path, nodeId, treeId, w, r, out)
    decreases Size(node2), 0
  {
    ghost var isNew := Unvisited(w.visited, path);
    var first := [MergeStep(FirstEmptyAt(path, node2.val), GenerateMergedTree(Nil, node2, treeId(path), []))];
    out := Walk(w.steps + first, w.visited + {path});
    var left, right := Nil, Nil;
    if node2.left.Node? {
      if isNew { ChildUnvisited(w.visited, path, Left); }
      left, out := GenerateSteps(Nil, node2.left, path + [Left], nodeId, treeId, out);
    }
    ghost var below := if node2.left.Node? then WalkPaths(Nil, node2.left, path + [Left]) else {};
    if isNew {
      WalkPathsBelow(Nil, node2.left, path + [Left]);
      SiblingUnvisited(w.visited, path, Left, below, Right);
    }
    if node2.right.Node? {
      right, out := GenerateSteps(Nil, node2.right, path + [Right], nodeId, treeId, out);
    }
    r := Node(node2.val, "merged-" + nodeId(path), left, right);
    if isNew {
      Append3(w.steps, first, if node2.left.Node? then WalkSteps(Nil, node2.left, path + [Left], treeId) else [],
              if node2.right.Node? then WalkSteps(Nil, node2.right, path + [Right], treeId) else [],
              WalkSteps(Nil, node2, path, treeId));
    }
  }

  /** The walk where only the first tree has a node: a copy, visiting its existing children only. */
  method SecondEmpty(node1: Tree, path: Path, nodeId: Path -> string, treeId: Path -> Path -> string, w: Walk)
    returns (r: Tree, out: Walk)
    requires node1.Node?
    ensures Unvisited(w.visited, path) ==> Walked(node1, Nil, path, nodeId, treeId, w, r, out)
    decreases Size(node1), 0
  {
    ghost var isNew := Unvisited(w.visited, path);
    var first := [MergeStep(SecondEmptyAt(path, node1.val), GenerateMergedTree(node1, Nil, treeId(path), []))];
    out := Walk(w.steps + first, w.visited + {path});
    var left, right := Nil, Nil;
    if node1.left.Node? {
      if isNew { ChildUnvisited(w.visited, path, Left); }
      left, out := GenerateSteps(node1.left, Nil, path + [Left], nodeId, treeId, out);
    }
    ghost var below := if node1.left.Node? then WalkPaths(node1.left, Nil, path + [Left]) else {};
    if isNew {
      WalkPathsBelow(node1.left, Nil, path + [Left]);
      SiblingUnvisited(w.visited, path, Left, below, Right);
    }
    if node1.right.Node? {
      right, out := GenerateSteps(node1.right, Nil, path + [Right], nodeId, treeId, out);
    }
    r := Node(node1.val, "merged-" + nodeId(path), left, right);
    if isNew {
      Append3(w.steps, first, if node1.left.Node? then WalkSteps(node1.left, Nil, path + [Left], treeId) else [],
              if node1.right.Node? then WalkSteps(node1.right, Nil, path + [Right], treeId) else [],
              WalkSteps(node1, Nil, path, treeId));
    }
  }

  lemma Append3<T>(w: seq<T>, a: seq<T>, b: seq<T>, c: seq<T>, x: seq<T>)
    requires x == a + b + c
    ensures w + a + b + c == w + x
  {
  }

  /** The walk where both trees have a node: the sum, then both child positions, present or not. */
  method BothPresent(node1: Tree, node2: Tree, path: Path, nodeId: Path -> string, treeId: Path -> Path -> string, w: Walk)
    returns (r: Tree, out: Walk)
    requires node1.Node? && node2.Node?
    ensures Unvisited(w.visited, path) ==> Walked(node1, node2, path, nodeId, treeId, w, r, out)
    decreases Size(node1) + Size(node2), 0
  {
    ghost var isNew := Unvisited(w.visited, path);
    var mergedValue := node1.val + node2.val;
    out := Walk(w.steps + [MergeStep(SumAt(path, node1.val, node2.val, mergedValue), GenerateMergedTree(node1, node2, treeId(path), []))],
                w.visited + {path});
    if isNew { ChildUnvisited(w.visited, path, Left); }
    var left, right;
    left, out := GenerateSteps(node1.left, node2.left, path + [Left], nodeId, treeId, out);
    if isNew {
      WalkPathsBelow(node1.left, node2.left, path + [Left]);
      SiblingUnvisited(w.visited, path, Left, WalkPaths(node1.left, node2.left, path + [Left]), Right);
    }
    right, out := GenerateSteps(node1.right, node2.right, path + [Right], nodeId, treeId, out);
    r := Node(mergedValue, "merged-" + nodeId(path), left, right);
  }

  /**
   * createMergeSteps: the walk's steps from the root, then the closing step with the walk's
   * tree; `totalSteps` is the number of steps.
   */
  method CreateMergeSteps(t1: Tree, t2: Tree, nodeId: Path -> string, treeId: Path -> Path -> string)
    returns (steps: seq<MergeStep>, totalSteps: nat)
    ensures steps == WalkSteps(t1, t2, [], treeId) + [MergeStep(MergeComplete, WalkResult(t1, t2, [], nodeId))]
    ensures totalSteps == |steps|
    ensures t1 == Nil && t2 == Nil ==> steps == [MergeStep(BothEmptyAt([]), Nil), MergeStep(MergeComplete, Nil)]
  {
    var start := Walk([], {});
    assert Unvisited(start.visited, []);
    var finalTree, w := GenerateSteps(t1, t2, [], nodeId, treeId, start);
    assert w.steps == [] + WalkSteps(t1, t2, [], treeId) == WalkSteps(t1, t2, [], treeId);
    steps := w.steps + [MergeStep(MergeComplete, finalTree)];
    totalSteps := |steps|;
  }

  // ---------------------------------------------------------------------------------------
  // What the walk promises

  /** Up to ids, the walk's tree is the reference merge. */
  lemma {:induction false} WalkResultIsMerge(n1: Tree, n2: Tree, path: Path, nodeId: Path -> string,
                                              newId: Path -> string, at: Path)
    ensures Erase(WalkResult(n1, n2, path, nodeId)) == Erase(MergeTrees(n1, n2, newId, at))
    decreases Size(n1) + Size(n2)
  {
    if n1 == Nil && n2 == Nil {
    } else if n1 == Nil {
      WalkResultIsCopy(n2, path, nodeId);
    } else if n2 == Nil {
      WalkResultIsCopy(n1, path, nodeId);
    } else {
      WalkResultIsMerge(n1.left, n2.left, path + [Left], nodeId, newId, at + [Left]);
      WalkResultIsMerge(n1.right, n2.right, path + [Right], nodeId, newId, at + [Right]);
    }
  }

  /** Where one side is absent, the walk copies the other side's shape and values. */
  lemma {:induction false} WalkResultIsCopy(t: Tree, path: Path, nodeId: Path -> string)
    ensures Erase(WalkResult(Nil, t, path, nodeId)) == Erase(t)
    ensures Erase(WalkResult(t, Nil, path, nodeId)) == Erase(t)
    decreases Size(t)
  {
    if t.Node? {
      WalkResultIsCopy(t.left, path + [Left], nodeId);
      WalkResultIsCopy(t.right, path + [Right], nodeId);
    }
  }

  /** Ids of the reference merge do not matter once erased. */
  function NoIds(p: Path): string
  {
    ""
  }

  /** A step shows, at its position, the merge of the two input subtrees found there. */
  ghost predicate ShowsMergeAt(t1: Tree, t2: Tree, s: MergeStep)
  {
    !s.description.MergeComplete?
    && Erase(s.mergedTree)
       == Erase(MergeTrees(Subtree(t1, s.description.path), Subtree(t2, s.description.path), NoIds, []))
  }

  /** Every step of the walk from `path` shows the merge of the input subtrees at its own position. */
  lemma {:induction false} WalkStepsShowMerges(t1: Tree, t2: Tree, path: Path, treeId: Path -> Path -> string)
    ensures forall s :: s in WalkSteps(Subtree(t1, path), Subtree(t2, path), path, treeId) ==> ShowsMergeAt(t1, t2, s)
    decreases Size(Subtree(t1, path)) + Size(Subtree(t2, path))
  {
    var n1, n2 := Subtree(t1, path), Subtree(t2, path);
    GeneratedIsMerge(n1, n2, treeId(path), [], NoIds, []);
    SubtreeSnoc(t1, path, Left);
    SubtreeSnoc(t2, path, Left);
    SubtreeSnoc(t1, path, Right);
    SubtreeSnoc(t2, path, Right);
    if n1.Node? || n2.Node? {
      WalkStepsShowMerges(t1, t2, path + [Left], treeId);
      WalkStepsShowMerges(t1, t2, path + [Right], treeId);
    }
  }

  /**
   * One step per visited path: the walk describes exactly the paths it visits, each once,
   * so the `visited` guard never skips a position.
   */
  lemma {:induction false} OneStepPerPath(n1: Tree, n2: Tree, path: Path, treeId: Path -> Path -> string)
    ensures forall s :: s in WalkSteps(n1, n2, path, treeId) ==>
              !s.description.MergeComplete? && s.description.path in WalkPaths(n1, n2, path)
    ensures |WalkSteps(n1, n2, path, treeId)| == |WalkPaths(n1, n2, path)|
    decreases Size(n1) + Size(n2)
  {
    if n1 == Nil && n2 == Nil {
    } else if n1 == Nil {
      OneStepPerPath(Nil, n2.left, path + [Left], treeId);
      OneStepPerPath(Nil, n2.right, path + [Right], treeId);
      WalkPathsBelow(Nil, n2.left, path + [Left]);
      WalkPathsBelow(Nil, n2.right, path + [Right]);
      DisjointThree(path, if n2.left.Node? then WalkPaths(Nil, n2.left, path + [Left]) else {},
                    if n2.right.Node? then WalkPaths(Nil, n2.right, path + [Right]) else {});
    } else if n2 == Nil {
      OneStepPerPath(n1.left, Nil, path + [Left], treeId);
      OneStepPerPath(n1.right, Nil, path + [Right], treeId);
      WalkPathsBelow(n1.left, Nil, path + [Left]);
      WalkPathsBelow(n1.right, Nil, path + [Right]);
      DisjointThree(path, if n1.left.Node? then WalkPaths(n1.left, Nil, path + [Left]) else {},
                    if n1.right.Node? then WalkPaths(n1.right, Nil, path + [Right]) else {});
    } else {
      OneStepPerPath(n1.left, n2.left, path + [Left], treeId);
      OneStepPerPath(n1.right, n2.right, path + [Right], treeId);
      WalkPathsBelow(n1.left, n2.left, path + [Left]);
      WalkPathsBelow(n1.right, n2.right, path + [Right]);
      DisjointThree(path, WalkPaths(n1.left, n2.left, path + [Left]), WalkPaths(n1.right, n2.right, path + [Right]));
    }
  }

  /** A position and the paths below its two children are pairwise distinct. */
  lemma DisjointThree(path: Path, lp: set<Path>, rp: set<Path>)
    requires forall q :: q in lp ==> Below(q, path + [Left])
    requires forall q :: q in rp ==> Below(q, path + [Right])
    ensures |{path} + lp + rp| == 1 + |lp| + |rp|
  {
    assert path !in lp;
    assert path !in rp;
    forall q | q in lp ensures q !in rp {
      Diverge(path, Left, Right, q);
    }
    assert lp !! rp;
    assert {path} !! lp + rp;
  }
}
