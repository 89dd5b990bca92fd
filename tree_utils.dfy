/**
 * The tree model of treeUtils.ts: node construction, the two sample trees, tree height,
 * the reference merge, the level-order array decoding and the random array generator.
 */
module TreeUtils {
  import opened Types

  /** The id and value of one node, without its children. */
  datatype Cell = Cell(val: int, id: string)

  function Size(t: Tree): nat
  {
    match t
    case Nil => 0
    case Node(_, _, l, r) => 1 + Size(l) + Size(r)
  }

  /** The same tree with every id blanked: equality of erased trees is "same shape and values". */
  function Erase(t: Tree): Tree
  {
    match t
    case Nil => Nil
    case Node(v, _, l, r) => Node(v, "", Erase(l), Erase(r))
  }

  function Child(t: Tree, d: Dir): (c: Tree)
    ensures t.Node? ==> Size(c) < Size(t)
    ensures t == Nil ==> c == Nil
  {
    match t
    case Nil => Nil
    case Node(_, _, l, r) => if d == Left then l else r
  }

  /** The subtree found by following `p` from the root (Nil once the path leaves the tree). */
  function Subtree(t: Tree, p: Path): Tree
    decreases |p|
  {
    if p == [] || t == Nil then t else Subtree(Child(t, p[0]), p[1..])
  }

  function CellAt(t: Tree, p: Path): Option<Cell>
  {
    match Subtree(t, p)
    case Nil => None
    case Node(v, id, _, _) => Some(Cell(v, id))
  }

  function ValueAt(t: Tree, p: Path): Option<int>
  {
    match Subtree(t, p)
    case Nil => None
    case Node(v, _, _, _) => Some(v)
  }

  /** True when the node exists and carries a non-empty (truthy) id. */
  predicate HasId(t: Tree)
  {
    t.Node? && t.id != ""
  }

  /** The value of a node, or 0 for an absent one (so a sum with it is the other value). */
  function ValueOr0(t: Tree): int
  {
    if t.Node? then t.val else 0
  }

  /** Every non-empty id in the tree. */
  function Ids(t: Tree): set<string>
  {
    match t
    case Nil => {}
    case Node(_, id, l, r) => (if id != "" then {id} else {}) + Ids(l) + Ids(r)
  }

  lemma {:induction false} SubtreeNil(p: Path)
    ensures Subtree(Nil, p) == Nil
  {
  }

  /** Walking one more turn is taking one more child. */
  lemma {:induction false} SubtreeSnoc(t: Tree, p: Path, d: Dir)
    ensures Subtree(t, p + [d]) == Child(Subtree(t, p), d)
    decreases |p|
  {
    if p == [] {
      assert p + [d] == [d];
    } else if t == Nil {
      SubtreeNil(p + [d]);
    } else {
      assert (p + [d])[0] == p[0];
      assert (p + [d])[1..] == p[1..] + [d];
      SubtreeSnoc(Child(t, p[0]), p[1..], d);
    }
  }

  /** A node's position is reachable only through positions that are themselves nodes. */
  lemma CellAtParent(t: Tree, p: Path, d: Dir)
    requires CellAt(t, p + [d]).Some?
    ensures CellAt(t, p).Some?
  {
    SubtreeSnoc(t, p, d);
  }

  /** The id of a node found along a path is one of the tree's ids. */
  lemma {:induction false} SubtreeIdIn(t: Tree, p: Path)
    requires HasId(Subtree(t, p))
    ensures Subtree(t, p).id in Ids(t)
    decreases |p|
  {
    if p != [] && t != Nil {
      SubtreeIdIn(Child(t, p[0]), p[1..]);
    }
  }

  /** Every id of the tree is carried by the node at some position. */
  lemma {:induction false} IdPath(t: Tree, k: string) returns (p: Path)
    requires k in Ids(t)
    ensures HasId(Subtree(t, p)) && Subtree(t, p).id == k
    decreases t
  {
    if t.id != "" && t.id == k {
      p := [];
    } else if k in Ids(t.left) {
      var q := IdPath(t.left, k);
      p := [Left] + q;
      assert p[1..] == q;
    } else {
      var q := IdPath(t.right, k);
      p := [Right] + q;
      assert p[1..] == q;
    }
  }

  /** Two trees with the same node at every position are equal. */
  lemma {:induction false} CellsDetermineTree(a: Tree, b: Tree)
    requires forall p :: CellAt(a, p) == CellAt(b, p)
    ensures a == b
  {
    assert CellAt(a, []) == CellAt(b, []);
    if a.Node? {
      forall p ensures CellAt(a.left, p) == CellAt(b.left, p) {
        assert CellAt(a, [Left] + p) == CellAt(b, [Left] + p);
        assert ([Left] + p)[1..] == p;
      }
      forall p ensures CellAt(a.right, p) == CellAt(b.right, p) {
        assert CellAt(a, [Right] + p) == CellAt(b, [Right] + p);
        assert ([Right] + p)[1..] == p;
      }
      CellsDetermineTree(a.left, b.left);
      CellsDetermineTree(a.right, b.right);
    }
  }

  // ---------------------------------------------------------------------------------------
  // createTreeNode, createTree1, createTree2 (treeUtils.ts:10-36)

  /**
   * A childless node; a missing id is replaced by `node-` and a random suffix,
   * here the parameter `random`.
   */
  function CreateTreeNode(val: int, id: string, random: string): (r: Tree)
    ensures r.Node? && r.val == val && r.left == Nil && r.right == Nil
    ensures r.id != ""
    ensures id != "" ==> r.id == id
  {
    Node(val, if id != "" then id else "node-" + random, Nil, Nil)
  }

  /** The first sample tree: four nodes on three levels, each id `tree1-` and its value. */
  function CreateTree1(): (r: Tree)
    ensures Size(r) == 4 && GetTreeHeight(r) == 3
    ensures Ids(r) == {"tree1-1", "tree1-2", "tree1-3", "tree1-5"}
  {
    var three := Node(3, "tree1-3", CreateTreeNode(5, "tree1-5", ""), Nil);
    Node(1, "tree1-1", three, CreateTreeNode(2, "tree1-2", ""))
  }

  /** The second sample tree: five nodes on three levels, each id `tree2-` and its value. */
  function CreateTree2(): (r: Tree)
    ensures Size(r) == 5 && GetTreeHeight(r) == 3
    ensures Ids(r) == {"tree2-1", "tree2-2", "tree2-3", "tree2-4", "tree2-7"}
  {
    var left := Node(1, "tree2-1", Nil, CreateTreeNode(4, "tree2-4", ""));
    var right := Node(3, "tree2-3", Nil, CreateTreeNode(7, "tree2-7", ""));
    Node(2, "tree2-2", left, right)
  }

  // ---------------------------------------------------------------------------------------
  // getTreeHeight (treeUtils.ts:39-42)

  /** The number of levels: 0 for an absent tree, else one more than the taller child. */
  function GetTreeHeight(t: Tree): (r: nat)
    ensures (r == 0) == (t == Nil) && r <= Size(t)
    ensures t.Node? ==> r > GetTreeHeight(t.left) && r > GetTreeHeight(t.right)
  {
    match t
    case Nil => 0
    case Node(_, _, l, r) =>
      var hl := GetTreeHeight(l);
      var hr := GetTreeHeight(r);
      (if hl >= hr then hl else hr) + 1
  }

  /** Every node lies strictly above the height. */
  lemma {:induction false} HeightBoundsDepth(t: Tree, p: Path)
    requires CellAt(t, p).Some?
    ensures |p| < GetTreeHeight(t)
    decreases |p|
  {
    if p != [] {
      HeightBoundsDepth(Child(t, p[0]), p[1..]);
    }
  }

  /** A path to a deepest node. */
  function DeepestPath(t: Tree): (p: Path)
    requires t.Node?
    ensures |p| == GetTreeHeight(t) - 1
    ensures CellAt(t, p).Some?
  {
    var Node(_, _, l, r) := t;
    if l == Nil && r == Nil then []
    else if GetTreeHeight(l) >= GetTreeHeight(r) then
      var q := DeepestPath(l);
      assert ([Left] + q)[1..] == q;
      [Left] + q
    else
      var q := DeepestPath(r);
      assert ([Right] + q)[1..] == q;
      [Right] + q
  }

  // ---------------------------------------------------------------------------------------
  // mergeTrees (treeUtils.ts:197-215)

  /**
   * LeetCode 617: where only one tree has a node, that subtree itself is used; where both
   * have one, a new node holds the sum. The random id of the node created at position
   * `at` is `newId(at)`.
   */
  function MergeTrees(t1: Tree, t2: Tree, newId: Path -> string, at: Path): (r: Tree)
    ensures t1 == Nil ==> r == t2
    ensures t2 == Nil ==> r == t1
  {
    if t1 == Nil then t2
    else if t2 == Nil then t1
    else Node(t1.val + t2.val, newId(at),
              MergeTrees(t1.left, t2.left, newId, at + [Left]),
              MergeTrees(t1.right, t2.right, newId, at + [Right]))
  }

  /** Every node carries a non-empty id. */
  predicate Named(t: Tree)
  {
    t == Nil || (t.id != "" && Named(t.left) && Named(t.right))
  }

  /** The node values in pre-order: root, then the left subtree, then the right subtree. */
  function PreOrderValues(t: Tree): seq<int>
  {
    match t
    case Nil => []
    case Node(v, _, l, r) => [v] + PreOrderValues(l) + PreOrderValues(r)
  }

  /** Ids do not affect the value found at any position. */
  lemma {:induction false} ValueAtErase(t: Tree, p: Path)
    ensures ValueAt(Erase(t), p) == ValueAt(t, p)
    ensures Subtree(Erase(t), p) == Erase(Subtree(t, p))
    decreases |p|
  {
    if p != [] && t != Nil {
      ValueAtErase(Child(t, p[0]), p[1..]);
    }
  }

  /** The merge rule, position by position: sum, pass-through, or absent. */
  function AddValues(a: Option<int>, b: Option<int>): Option<int>
  {
    match (a, b)
    case (None, None) => None
    case (Some(x), None) => Some(x)
    case (None, Some(y)) => Some(y)
    case (Some(x), Some(y)) => Some(x + y)
  }

  /** The merged tree holds, at every position, the merge of the two values found there. */
  lemma {:induction false} MergeIsPositionwiseSum(t1: Tree, t2: Tree, newId: Path -> string, at: Path, p: Path)
    ensures ValueAt(MergeTrees(t1, t2, newId, at), p) == AddValues(ValueAt(t1, p), ValueAt(t2, p))
    decreases |p|
  {
    if t1 == Nil {
      SubtreeNil(p);
    } else if t2 == Nil {
      SubtreeNil(p);
    } else if p != [] {
      var d := p[0];
      MergeIsPositionwiseSum(Child(t1, d), Child(t2, d), newId, at + [d], p[1..]);
    }
  }

  /** The merged tree is as tall as the taller input. */
  lemma {:induction false} HeightOfMerge(t1: Tree, t2: Tree, newId: Path -> string, at: Path)
    ensures GetTreeHeight(MergeTrees(t1, t2, newId, at))
         == if GetTreeHeight(t1) >= GetTreeHeight(t2) then GetTreeHeight(t1) else GetTreeHeight(t2)
  {
    if t1.Node? && t2.Node? {
      HeightOfMerge(t1.left, t2.left, newId, at + [Left]);
      HeightOfMerge(t1.right, t2.right, newId, at + [Right]);
    }
  }

  // ---------------------------------------------------------------------------------------
  // arrayToTreeNode (treeUtils.ts:125-157)

  /** The node that slot `i` of a LeetCode level-order array stands for, with its descendants. */
  function LevelOrderTree(arr: seq<Option<int>>, idOf: nat -> string, i: nat): Tree
    decreases |arr| - i
  {
    if i >= |arr| || arr[i] == None then Nil
    else Node(arr[i].value, idOf(i), LevelOrderTree(arr, idOf, 2 * i + 1), LevelOrderTree(arr, idOf, 2 * i + 2))
  }

  /** The array slot of a position: the children of slot `i` are slots `2i+1` and `2i+2`. */
  function Slot(p: Path): nat
  {
    if p == [] then 0
    else
      var s := Slot(p[..|p| - 1]);
      if p[|p| - 1] == Left then 2 * s + 1 else 2 * s + 2
  }

  /** Every slot on the way from the root to `p` (both included) is in range and non-null. */
  predicate SlotsPresent(arr: seq<Option<int>>, p: Path)
  {
    Slot(p) < |arr| && arr[Slot(p)] != None && (p == [] || SlotsPresent(arr, p[..|p| - 1]))
  }

  /**
   * Builds the tree of a level-order array. Ids are random in the source; here slot `i`
   * gets `idOf(i)`. The source links the nodes forward by reference; as values the array
   * is filled from the last slot down, so each child is built before its parent.
   */
  method ArrayToTreeNode(arr: seq<Option<int>>, idOf: nat -> string) returns (root: Tree)
    ensures root == LevelOrderTree(arr, idOf, 0)
    ensures root == Nil <==> (|arr| == 0 || arr[0] == None)
  {
    if |arr| == 0 || arr[0] == None {
      return Nil;
    }
    var nodes := new Tree[|arr|];
    var i := |arr|;
    while i > 0
      invariant 0 <= i <= |arr| == nodes.Length
      invariant forall j :: i <= j < |arr| ==> nodes[j] == LevelOrderTree(arr, idOf, j)
    {
      i := i - 1;
      if arr[i] == None {
        nodes[i] := Nil;
      } else {
        var l := if 2 * i + 1 < |arr| then nodes[2 * i + 1] else Nil;
        var r := if 2 * i + 2 < |arr| then nodes[2 * i + 2] else Nil;
        nodes[i] := Node(arr[i].value, idOf(i), l, r);
      }
    }
    root := nodes[0];
  }

  /**
   * Position `p` of the decoded tree holds the value of slot `Slot(p)` when every slot on
   * the way there is present, and nothing otherwise (an orphaned slot is unreachable).
   */
  lemma {:induction false} LevelOrderValueAt(arr: seq<Option<int>>, idOf: nat -> string, p: Path)
    ensures ValueAt(LevelOrderTree(arr, idOf, 0), p) == if SlotsPresent(arr, p) then arr[Slot(p)] else None
    ensures Subtree(LevelOrderTree(arr, idOf, 0), p)
         == if SlotsPresent(arr, p) then LevelOrderTree(arr, idOf, Slot(p)) else Nil
    decreases |p|
  {
    var t := LevelOrderTree(arr, idOf, 0);
    if p != [] {
      var q, d := p[..|p| - 1], p[|p| - 1];
      assert p == q + [d];
      LevelOrderValueAt(arr, idOf, q);
      SubtreeSnoc(t, q, d);
    }
  }

  /** The store's default arrays decode to the two sample trees, up to ids. */
  lemma SampleArraysDecodeToSampleTrees(idOf: nat -> string)
    ensures Erase(LevelOrderTree([Some(1), Some(3), Some(2), Some(5)], idOf, 0)) == Erase(CreateTree1())
    ensures Erase(LevelOrderTree([Some(2), Some(1), Some(3), None, Some(4), None, Some(7)], idOf, 0))
         == Erase(CreateTree2())
  {
    var a := [Some(1), Some(3), Some(2), Some(5)];
    assert LevelOrderTree(a, idOf, 3) == Node(5, idOf(3), Nil, Nil);
    assert LevelOrderTree(a, idOf, 2) == Node(2, idOf(2), Nil, Nil);
    assert LevelOrderTree(a, idOf, 1) == Node(3, idOf(1), LevelOrderTree(a, idOf, 3), Nil);
    var e1 := Node(1, "", Node(3, "", Node(5, "", Nil, Nil), Nil), Node(2, "", Nil, Nil));
    assert LevelOrderTree(a, idOf, 0) == Node(1, idOf(0), LevelOrderTree(a, idOf, 1), LevelOrderTree(a, idOf, 2));
    assert Erase(LevelOrderTree(a, idOf, 1)) == e1.left;
    assert Erase(LevelOrderTree(a, idOf, 0)) == e1;
    assert Erase(CreateTree1()) == e1;
    var b := [Some(2), Some(1), Some(3), None, Some(4), None, Some(7)];
    assert LevelOrderTree(b, idOf, 4) == Node(4, idOf(4), Nil, Nil);
    assert LevelOrderTree(b, idOf, 6) == Node(7, idOf(6), Nil, Nil);
    assert LevelOrderTree(b, idOf, 1) == Node(1, idOf(1), Nil, LevelOrderTree(b, idOf, 4));
    assert LevelOrderTree(b, idOf, 2) == Node(3, idOf(2), Nil, LevelOrderTree(b, idOf, 6));
    var e2 := Node(2, "", Node(1, "", Nil, Node(4, "", Nil, Nil)), Node(3, "", Nil, Node(7, "", Nil, Nil)));
    assert LevelOrderTree(b, idOf, 0) == Node(2, idOf(0), LevelOrderTree(b, idOf, 1), LevelOrderTree(b, idOf, 2));
    assert Erase(LevelOrderTree(b, idOf, 1)) == e2.left;
    assert Erase(LevelOrderTree(b, idOf, 2)) == e2.right;
    assert Erase(LevelOrderTree(b, idOf, 0)) == e2;
    assert Erase(CreateTree2()) == e2;
  }

  /** Merging the two sample trees gives `[3,4,5,5,4,null,7]`, up to ids. */
  lemma SampleMerge(newId: Path -> string, idOf: nat -> string)
    ensures Erase(MergeTrees(CreateTree1(), CreateTree2(), newId, []))
         == Erase(LevelOrderTree([Some(3), Some(4), Some(5), Some(5), Some(4), None, Some(7)], idOf, 0))
  {
    var m := [Some(3), Some(4), Some(5), Some(5), Some(4), None, Some(7)];
    assert LevelOrderTree(m, idOf, 3) == Node(5, idOf(3), Nil, Nil);
    assert LevelOrderTree(m, idOf, 4) == Node(4, idOf(4), Nil, Nil);
    assert LevelOrderTree(m, idOf, 6) == Node(7, idOf(6), Nil, Nil);
    assert LevelOrderTree(m, idOf, 1) == Node(4, idOf(1), LevelOrderTree(m, idOf, 3), LevelOrderTree(m, idOf, 4));
    assert LevelOrderTree(m, idOf, 2) == Node(5, idOf(2), Nil, LevelOrderTree(m, idOf, 6));
    var e := Node(3, "", Node(4, "", Node(5, "", Nil, Nil), Node(4, "", Nil, Nil)), Node(5, "", Nil, Node(7, "", Nil, Nil)));
    assert LevelOrderTree(m, idOf, 0) == Node(3, idOf(0), LevelOrderTree(m, idOf, 1), LevelOrderTree(m, idOf, 2));
    assert Erase(LevelOrderTree(m, idOf, 3)) == e.left.left;
    assert Erase(LevelOrderTree(m, idOf, 4)) == e.left.right;
    assert Erase(LevelOrderTree(m, idOf, 1)) == e.left;
    assert Erase(LevelOrderTree(m, idOf, 2)) == e.right;
    assert Erase(LevelOrderTree(m, idOf, 0)) == e;
    var t1, t2 := CreateTree1(), CreateTree2();
    var ml := MergeTrees(t1.left, t2.left, newId, [Left]);
    var mr := MergeTrees(t1.right, t2.right, newId, [Right]);
    assert ml == Node(4, newId([Left]), t1.left.left, t2.left.right);
    assert mr == Node(5, newId([Right]), Nil, t2.right.right);
    assert Erase(ml) == e.left;
    assert Erase(mr) == e.right;
    assert Erase(MergeTrees(t1, t2, newId, [])) == e;
  }

  // ---------------------------------------------------------------------------------------
  // generateRandomTree (treeUtils.ts:162-191)

  function Pow2(n: nat): nat
  {
    if n == 0 then 1 else 2 * Pow2(n - 1)
  }

  /** `Math.floor(Math.random() * 9) + 1` for one draw `x` in [0, 1). */
  function Digit(x: real): int
  {
    (x * 9.0).Floor + 1
  }

  /** No non-null slot sits under a null slot. */
  ghost predicate NoOrphans(a: seq<Option<int>>)
  {
    forall j {:trigger a[j]} :: 1 <= j < |a| && a[(j - 1) / 2] == None ==> a[j] == None
  }

  ghost predicate DigitsOnly(a: seq<Option<int>>)
  {
    forall j :: 0 <= j < |a| && a[j] != None ==> 1 <= a[j].value <= 9
  }

  /** A slot appended under a present parent, or an empty one, keeps both shape properties. */
  lemma AppendKeeps(a: seq<Option<int>>, x: Option<int>)
    requires |a| >= 1 && NoOrphans(a) && DigitsOnly(a)
    requires x == None || (a[(|a| - 1) / 2] != None && 1 <= x.value <= 9)
    ensures NoOrphans(a + [x]) && DigitsOnly(a + [x])
  {
    var b := a + [x];
    forall j {:trigger b[j]} | 1 <= j < |b| && b[(j - 1) / 2] == None
      ensures b[j] == None
    {
      var p := (j - 1) / 2;
      assert 0 <= p < j;
      assert b[p] == a[p];
      if j < |a| {
        assert b[j] == a[j];
      }
    }
  }

  /** Dropping the last slot keeps both shape properties. */
  lemma DropLastKeeps(a: seq<Option<int>>)
    requires |a| >= 1 && NoOrphans(a) && DigitsOnly(a)
    ensures NoOrphans(a[..|a| - 1]) && DigitsOnly(a[..|a| - 1])
  {
  }

  /**
   * A random level-order array of at most `2^maxDepth - 1` slots. The successive results
   * of `Math.random()` are `random(0)`, `random(1)`, ...
   */
  method GenerateRandomTree(maxDepth: nat, nullProbability: real, random: nat -> real)
    returns (result: seq<Option<int>>)
    requires forall k :: 0.0 <= random(k) < 1.0
    ensures |result| >= 1 && result[0] != None
    ensures |result| <= if Pow2(maxDepth) - 1 > 1 then Pow2(maxDepth) - 1 else 1
    ensures NoOrphans(result)
    ensures result[|result| - 1] != None
    ensures DigitsOnly(result)
  {
    var k := 0;
    result := [Some(Digit(random(k)))];
    k := k + 1;
    var totalNodes := Pow2(maxDepth) - 1;
    var i := 1;
    while i < totalNodes
      invariant 1 <= i && |result| == i
      invariant i <= if totalNodes > 1 then totalNodes else 1
      invariant result[0] != None
      invariant NoOrphans(result)
      invariant DigitsOnly(result)
    {
      var parentIdx := (i - 1) / 2;
      var slot: Option<int> := None;
      if result[parentIdx] != None {
        var draw := random(k);
        k := k + 1;
        if draw >= nullProbability {
          slot := Some(Digit(random(k)));
          k := k + 1;
        }
      }
      AppendKeeps(result, slot);
      result := result + [slot];
      i := i + 1;
    }
    while result[|result| - 1] == None
      invariant 1 <= |result| && result[0] != None
      invariant |result| <= if totalNodes > 1 then totalNodes else 1
      invariant NoOrphans(result)
      invariant DigitsOnly(result)
      decreases |result|
    {
      DropLastKeeps(result);
      result := result[..|result| - 1];
    }
  }
}
