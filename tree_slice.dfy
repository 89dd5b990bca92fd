/**
 * The tree store (features/treeSlice.ts:5-92): the two input trees, a merged tree, and an
 * unclamped cursor over the steps of `createMergeSteps`. The random ids of decoded arrays
 * are parameters (`idOf1`, `idOf2`, slot index to id).
 */
module TreeSlice {
  import opened Types
  import opened TreeUtils
  import opened MergeSteps
  import opened StepCursor

  class TreeStore {
    var tree1: Tree
    var tree2: Tree
    var mergedTree: Tree
    var currentStep: int
    var totalSteps: int
    var steps: seq<MergeStep>

    /** The initial state: the trees of `[1,3,2,5]` and `[2,1,3,null,4,null,7]`, and no steps. */
    constructor (idOf1: nat -> string, idOf2: nat -> string)
      ensures tree1 == LevelOrderTree([Some(1), Some(3), Some(2), Some(5)], idOf1, 0)
      ensures tree2 == LevelOrderTree([Some(2), Some(1), Some(3), None, Some(4), None, Some(7)], idOf2, 0)
      ensures Erase(tree1) == Erase(CreateTree1()) && Erase(tree2) == Erase(CreateTree2())
      ensures mergedTree == Nil && currentStep == 0 && totalSteps == 0 && steps == []
    {
      var t1 := ArrayToTreeNode([Some(1), Some(3), Some(2), Some(5)], idOf1);
      var t2 := ArrayToTreeNode([Some(2), Some(1), Some(3), None, Some(4), None, Some(7)], idOf2);
      SampleArraysDecodeToSampleTrees(idOf1);
      SampleArraysDecodeToSampleTrees(idOf2);
      tree1, tree2 := t1, t2;
      mergedTree, currentStep, totalSteps, steps := Nil, 0, 0, [];
    }

    /** Decode both arrays and start over: no merged tree, no steps, cursor at 0. */
    method SetTreeData(values1: seq<Option<int>>, values2: seq<Option<int>>, idOf1: nat -> string, idOf2: nat -> string)
      modifies this
      ensures tree1 == LevelOrderTree(values1, idOf1, 0) && tree2 == LevelOrderTree(values2, idOf2, 0)
      ensures mergedTree == Nil && currentStep == 0 && totalSteps == 0 && steps == []
    {
      tree1 := ArrayToTreeNode(values1, idOf1);
      tree2 := ArrayToTreeNode(values2, idOf2);
      mergedTree := Nil;
      currentStep := 0;
      totalSteps := 0;
      steps := [];
    }

    method SetMergedTree(payload: Tree)
      modifies this
      ensures mergedTree == payload
      ensures tree1 == old(tree1) && tree2 == old(tree2) && currentStep == old(currentStep)
      ensures totalSteps == old(totalSteps) && steps == old(steps)
    {
      mergedTree := payload;
    }

    /** Stores the requested index as given: no clamping, negative or past the end alike. */
    method SetCurrentStep(payload: int)
      modifies this
      ensures currentStep == payload
      ensures tree1 == old(tree1) && tree2 == old(tree2) && mergedTree == old(mergedTree)
      ensures totalSteps == old(totalSteps) && steps == old(steps)
    {
      currentStep := payload;
    }

    /** The steps and their count are copied separately; nothing ties one to the other. */
    method SetSteps(newSteps: seq<MergeStep>, newTotal: int)
      modifies this
      ensures steps == newSteps && totalSteps == newTotal
      ensures tree1 == old(tree1) && tree2 == old(tree2) && mergedTree == old(mergedTree)
      ensures currentStep == old(currentStep)
    {
      steps := newSteps;
      totalSteps := newTotal;
    }

    /** One step forward while below `totalSteps - 1`. */
    method NextStep()
      modifies this
      ensures currentStep == Next(old(currentStep), old(totalSteps) - 1)
      ensures tree1 == old(tree1) && tree2 == old(tree2) && mergedTree == old(mergedTree)
      ensures totalSteps == old(totalSteps) && steps == old(steps)
    {
      if currentStep < totalSteps - 1 {
        currentStep := currentStep + 1;
      }
    }

    /** One step back while above 0. */
    method PrevStep()
      modifies this
      ensures currentStep == Prev(old(currentStep))
      ensures tree1 == old(tree1) && tree2 == old(tree2) && mergedTree == old(mergedTree)
      ensures totalSteps == old(totalSteps) && steps == old(steps)
    {
      if currentStep > 0 {
        currentStep := currentStep - 1;
      }
    }

    /** Forget the steps and the merged tree; the input trees stay. */
    method ResetSteps()
      modifies this
      ensures currentStep == 0 && totalSteps == 0 && steps == [] && mergedTree == Nil
      ensures tree1 == old(tree1) && tree2 == old(tree2)
    {
      currentStep := 0;
      totalSteps := 0;
      steps := [];
      mergedTree := Nil;
    }

    /**
     * Loading what `createMergeSteps` returns keeps the count and the steps in agreement,
     * so "next" then stops on the closing step, which carries the finished tree.
     */
    method LoadMergeSteps(nodeId: Path -> string, treeId: Path -> Path -> string)
      modifies this
      ensures steps == WalkSteps(old(tree1), old(tree2), [], treeId)
                       + [MergeStep(MergeComplete, WalkResult(old(tree1), old(tree2), [], nodeId))]
      ensures totalSteps == |steps| && steps[totalSteps - 1].description == MergeComplete
      ensures tree1 == old(tree1) && tree2 == old(tree2) && mergedTree == old(mergedTree)
      ensures currentStep == old(currentStep)
    {
      var s, n := CreateMergeSteps(tree1, tree2, nodeId, treeId);
      SetSteps(s, n);
    }
  }

  /**
   * With no steps loaded, "next" changes nothing from any cursor at -1 or above; a cursor
   * set below -1 (stored as given) still moves up.
   */
  lemma NextWithoutSteps(current: int)
    ensures current >= -1 ==> Next(current, 0 - 1) == current
    ensures current < -1 ==> Next(current, 0 - 1) == current + 1
  {
  }
}
