/** The tree-data store (treeDataSlice.ts:4-33): plain setters for three trees. */
module TreeDataSlice {
  import opened Types

  class TreeDataStore {
    var leftTree: Tree
    var rightTree: Tree
    var mergedTree: Tree

    /** Initially all three trees are absent. */
    constructor ()
      ensures leftTree == Nil && rightTree == Nil && mergedTree == Nil
    {
      leftTree, rightTree, mergedTree := Nil, Nil, Nil;
    }

    method SetLeftTree(payload: Tree)
      modifies this
      ensures leftTree == payload && rightTree == old(rightTree) && mergedTree == old(mergedTree)
    {
      leftTree := payload;
    }

    method SetRightTree(payload: Tree)
      modifies this
      ensures rightTree == payload && leftTree == old(leftTree) && mergedTree == old(mergedTree)
    {
      rightTree := payload;
    }

    method SetMergedTree(payload: Tree)
      modifies this
      ensures mergedTree == payload && leftTree == old(leftTree) && rightTree == old(rightTree)
    {
      mergedTree := payload;
    }

    /** Both inputs at once; a merged tree of the old inputs is cleared. */
    method SetTrees(left: Tree, right: Tree)
      modifies this
      ensures leftTree == left && rightTree == right && mergedTree == Nil
    {
      leftTree := left;
      rightTree := right;
      mergedTree := Nil;
    }
  }
}
