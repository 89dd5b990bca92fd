# Merge two binary trees (LeetCode 617): a verified model of the visualiser's core

The visualiser merges two binary trees and shows the merge step by step. This project
models its core in Dafny and proves properties of the model:

- the tree model: node construction, height, the reference merge `mergeTrees`, the
  level-order array decoder and the random array generator;
- the input parser, on its grammar path;
- the older step generator `createMergeSteps`;
- the two animation engines, depth-first and breadth-first. Each records a list of steps,
  and each step copies the node-style and edge-style maps;
- the three store slices, which are small state machines with a cursor over the steps;
- the traversals of the position helper.

Trees are the datatype `Tree = Nil | Node(val, id, left, right)`. An empty id stands for
a missing or falsy id. Positions in a tree are paths of `Left`/`Right` turns. Ids that the
source draws from `Math.random` are parameters (functions from a position or an array slot
to a string), and so are the random draws of the array generator. Step texts are a
step-kind datatype that records the values each text interpolates. Colours are an enum;
scale, opacity and width are integers in tenths (12 is 1.2, 7 is 0.7, 15 is 1.5).

The engines work on a value `Log(steps, nodes, edges)` that each method takes and returns.
It stands for the array and the two maps the source mutates through a closure.
`StepLog.Extends` states what one piece of an engine does to it:

- it appends the given step kinds;
- it adds or updates exactly the given node styles and leaves the others alone;
- it draws exactly the given edges, all at one style.

Every step is stamped with 1000 times its index, and the key sets only grow.

Colours are tracked as inks: an ink is an id, a value and a colour, the part of a node
style that names what is shown. `StepLog.Repainted` says a piece of an engine writes only
the given inks, `StepLog.Painted` that every style shows one of a set of inks, and
`StepLog.ShowsSettled` that every ink whose id no other ink of the set shares is shown at
scale 1 and opacity 1. The engines' final snapshots are proved painted from the inks of
the first input in blue, the second in orange and the merged tree in green, and showing
each such ink settled.

The engines never return the tree they build. Both methods expose it as a ghost result,
which is proved equal, up to ids, to `mergeTrees`. The depth-first engine is specified by
the functions `DfsMerged` and `DfsNarration`; the breadth-first one by `BfsMerged` and
`BfsNarration`. The breadth-first `while` loop carries the invariant `Between`:

- `Frontier`: the queues hold exactly the positions with a node at the current depth;
- `Recorded`: the maps hold the styles and edges of every position down to that depth, settled, each style showing a node of the first input blue, of the second orange or of the merged tree green, with its value;
- `Told`: the steps so far, followed by the rest of the loop's narration, make the whole narration.

Where the code and the prose description of the system disagree, the model follows the code:

- The breadth-first engine returns three steps, with no completion step, when a tree is
  empty (bfsAlgorithm.ts:40-81). The description promises a completion step as the last
  step of every sequence.
- Depth-first edges are never settled; they stay at width 1.5 and opacity 0.7. Only the
  breadth-first engine settles its edges.
- The animation store clamps the cursor into the active step sequence's length, not into
  `totalSteps`. `totalSteps` starts at 0 and only `setAlgorithm` sets it. The clamping jump
  and the reset read the first step, so they need a non-empty sequence.
- The tree store's `setCurrentStep` stores any integer unclamped. From a cursor below -1,
  `nextStep` still moves up when there are no steps (`TreeSlice.NextWithoutSteps`).

## Model

| member | source | states |
|---|---|---|
| TreeUtils.CreateTreeNode | src/utils/treeUtils.ts:10-17 | a childless node holding the value; a given id is kept, a missing one replaced by a non-empty generated id |
| TreeUtils.CreateTree1 | src/utils/treeUtils.ts:20-26 | the first sample tree has four nodes on three levels, with ids tree1-1, tree1-2, tree1-3, tree1-5 |
| TreeUtils.CreateTree2 | src/utils/treeUtils.ts:29-36 | the second sample tree has five nodes on three levels, with ids tree2-1, tree2-2, tree2-3, tree2-4, tree2-7 |
| TreeUtils.GetTreeHeight | src/utils/treeUtils.ts:39-42 | the height is 0 exactly for an absent tree, never exceeds the node count, and exceeds each child's height |
| TreeUtils.HeightBoundsDepth | src/utils/treeUtils.ts:39-42 | every node of a tree lies at a depth below its height |
| TreeUtils.DeepestPath | src/utils/treeUtils.ts:39-42 | some node lies at depth height − 1, so the height is attained |
| TreeUtils.MergeTrees | src/utils/treeUtils.ts:197-215 | an absent first tree gives the second tree itself, an absent second tree the first itself |
| TreeUtils.MergeIsPositionwiseSum | src/utils/treeUtils.ts:197-215 | at every position the merged tree holds the sum of two values, the lone value, or nothing |
| TreeUtils.HeightOfMerge | src/utils/treeUtils.ts:197-215 | the merged tree is as tall as the taller input |
| TreeUtils.ArrayToTreeNode | src/utils/treeUtils.ts:125-157 | the loop builds the level-order decoding of the array; the result is null exactly for an empty array or a null first slot |
| TreeUtils.LevelOrderValueAt | src/utils/treeUtils.ts:129-156 | a position holds the value of slot `Slot(p)` (children of slot i at 2i+1, 2i+2) when every slot on the way is present, and nothing otherwise |
| TreeUtils.SampleArraysDecodeToSampleTrees | src/utils/treeUtils.ts:20-35 | the arrays `[1,3,2,5]` and `[2,1,3,null,4,null,7]` decode to the two sample trees, up to ids |
| TreeUtils.SampleMerge | src/utils/treeUtils.ts:197-215 | merging the two sample trees gives the tree of `[3,4,5,5,4,null,7]`, up to ids |
| TreeUtils.GenerateRandomTree | src/utils/treeUtils.ts:162-191 | the root is non-null, the length is at most max(1, 2^maxDepth − 1), no non-null slot sits under a null parent, the last slot is non-null, values lie in 1..9 |
| ParseInput.StripSpaces | src/utils/treeUtils.ts:88 | the result has no whitespace and is no longer than the input |
| ParseInput.Split | src/utils/treeUtils.ts:113 | splitting yields at least one part |
| ParseInput.ParseTreeInput | src/utils/treeUtils.ts:85-120 | parsing succeeds exactly when the stripped text matches `^\[((\d+\|null)(,(\d+\|null))*)?\]$`, and every number read is non-negative |
| ParseInput.ShowNatValue | src/utils/treeUtils.ts:115 | reading the decimal text of n digit by digit (`DigitsValue`, the model of parseInt on a digit string) gives n back |
| ParseInput.ShowItemIsItem | src/utils/treeUtils.ts:113-116 | a printed element is a grammar item without commas and reads back as itself |
| ParseInput.SplitJoin | src/utils/treeUtils.ts:113 | splitting comma-joined items on commas gives back the items |
| ParseInput.ParseFormat | src/utils/treeUtils.ts:103-116 | parsing an array printed as `[a,b,...]` with `null` for holes gives back the array |
| ParseInput.StripSpacesIdempotent | src/utils/treeUtils.ts:88 | stripping twice is stripping once, and parsing stripped text gives the same answer |
| ParseInput.SpacesIgnored | src/utils/treeUtils.ts:88 | whitespace inserted anywhere leaves the parse unchanged |
| ParseInput.CompactSample | src/utils/treeUtils.ts:103-116 | `"[1,3,2,5]"` parses to the four values and `"[]"` to the empty array |
| MergeSteps.GenerateMergedTree | src/utils/treeUtils.ts:265-283 | an absent side gives the other side unchanged |
| MergeSteps.GeneratedIsMerge | src/utils/treeUtils.ts:265-283 | up to ids, generateMergedTree is the reference merge |
| MergeSteps.GenerateSteps | src/utils/treeUtils.ts:286-391 | a visited path returns null and pushes nothing; a path with nothing visited below it pushes the walk's steps, marks its paths visited and returns the walk's tree |
| MergeSteps.FirstEmpty | src/utils/treeUtils.ts:307-332 | only the second tree has a node: a copy, visiting only that node's existing children |
| MergeSteps.SecondEmpty | src/utils/treeUtils.ts:335-360 | only the first tree has a node: a copy, visiting only that node's existing children |
| MergeSteps.BothPresent | src/utils/treeUtils.ts:363-390 | both have a node: the sum step with the merge of the two subtrees, then both child positions |
| MergeSteps.CreateMergeSteps | src/utils/treeUtils.ts:393-410 | the walk's steps, then the completion step carrying the walk's tree; `totalSteps` is the number of steps; two empty trees give one both-empty step and the completion step with no tree |
| MergeSteps.WalkResultIsMerge | src/utils/treeUtils.ts:286-391 | up to ids, the tree the walk returns is the reference merge |
| MergeSteps.WalkResultIsCopy | src/utils/treeUtils.ts:307-360 | where one side is absent, the walk copies the other side's shape and values |
| MergeSteps.WalkStepsShowMerges | src/utils/treeUtils.ts:298-379 | every step shows, at its own position, the merge of the two input subtrees found there |
| MergeSteps.OneStepPerPath | src/utils/treeUtils.ts:293-295 | the walk pushes exactly one step per path it visits, so the visited-path guard never skips a position |
| StepCursor.Next | src/store/animationSlice.ts:72-78 | one step forward below the last index, otherwise unchanged; the cursor stays in range |
| StepCursor.Prev | src/store/animationSlice.ts:79-85 | one step back above zero, otherwise unchanged; the cursor stays non-negative |
| StepCursor.Clamp | src/store/animationSlice.ts:86-91 | the result is an index of a non-empty range; in-range requests are kept, low ones go to 0, high ones to the last index |
| StepCursor.PrevUndoesNext | src/store/animationSlice.ts:72-85 | inside the range, a step forward and a step back cancel |
| StepCursor.NextTimesFromStart | src/store/animationSlice.ts:72-78 | k presses of "next" from the first step reach step min(k, last) |
| StepCursor.NextTimesAtEnd | src/store/animationSlice.ts:72-78 | pressing "next" at the last step changes nothing, however often |
| StepCursor.ClampIdempotent | src/store/animationSlice.ts:86-91 | clamping a clamped index changes nothing |
| AnimationSlice.AnimationStore.constructor | src/store/animationSlice.ts:39-56 | paused, step 0 of 0, speed 1, depth-first, nothing shown |
| AnimationSlice.AnimationStore.PlayAnimation | src/store/animationSlice.ts:63-65 | only `isPlaying` changes, to true |
| AnimationSlice.AnimationStore.PauseAnimation | src/store/animationSlice.ts:66-68 | only `isPlaying` changes, to false |
| AnimationSlice.AnimationStore.SetSpeed | src/store/animationSlice.ts:69-71 | only `speed` changes |
| AnimationSlice.AnimationStore.NextStep | src/store/animationSlice.ts:72-78 | the cursor moves as `Next` over the active steps; a move shows the new step's snapshot; nothing else changes |
| AnimationSlice.AnimationStore.PrevStep | src/store/animationSlice.ts:79-85 | the cursor moves as `Prev`; a move shows the new step's snapshot; nothing else changes |
| AnimationSlice.AnimationStore.SetCurrentStep | src/store/animationSlice.ts:86-91 | the cursor becomes the clamped request and its snapshot is shown |
| AnimationSlice.AnimationStore.SetAlgorithm | src/store/animationSlice.ts:92-98 | the engine is switched, the cursor reset to 0, `totalSteps` set to that engine's step count, its first snapshot shown |
| AnimationSlice.AnimationStore.ResetAnimation | src/store/animationSlice.ts:99-104 | cursor 0, paused, first snapshot shown; engine and speed unchanged |
| AnimationSlice.CursorInRange | src/store/animationSlice.ts:72-104 | with both sequences non-empty, the cursor of a store every reducer keeps valid is an index of the active steps |
| TreeSlice.TreeStore.constructor | src/store/features/treeSlice.ts:18-29 | the trees of `[1,3,2,5]` and `[2,1,3,null,4,null,7]` (the sample trees up to ids), no merged tree, no steps |
| TreeSlice.TreeStore.SetTreeData | src/store/features/treeSlice.ts:36-48 | both trees decoded from the arrays; merged tree, cursor, count and steps reset |
| TreeSlice.TreeStore.SetMergedTree | src/store/features/treeSlice.ts:49-52 | only the merged tree changes |
| TreeSlice.TreeStore.SetCurrentStep | src/store/features/treeSlice.ts:53-56 | the cursor becomes the payload, unclamped; nothing else changes |
| TreeSlice.TreeStore.SetSteps | src/store/features/treeSlice.ts:57-71 | steps and count are set independently from the payload; nothing else changes |
| TreeSlice.TreeStore.NextStep | src/store/features/treeSlice.ts:72-78 | the cursor moves as `Next` below `totalSteps − 1`; nothing else changes |
| TreeSlice.TreeStore.PrevStep | src/store/features/treeSlice.ts:79-85 | the cursor moves as `Prev`; nothing else changes |
| TreeSlice.TreeStore.ResetSteps | src/store/features/treeSlice.ts:86-92 | steps, count, cursor and merged tree cleared; the two input trees kept |
| TreeSlice.TreeStore.LoadMergeSteps | src/store/features/treeSlice.ts:57-71 | storing the result of createMergeSteps keeps the count equal to the number of steps, and the last step is the completion step |
| TreeSlice.NextWithoutSteps | src/store/features/treeSlice.ts:72-78 | with no steps, "next" leaves a cursor at −1 or above unchanged and moves a cursor below −1 up by one |
| TreeDataSlice.TreeDataStore.constructor | src/store/treeDataSlice.ts:10-14 | all three trees absent |
| TreeDataSlice.TreeDataStore.SetLeftTree | src/store/treeDataSlice.ts:20-22 | only the left tree changes |
| TreeDataSlice.TreeDataStore.SetRightTree | src/store/treeDataSlice.ts:23-25 | only the right tree changes |
| TreeDataSlice.TreeDataStore.SetMergedTree | src/store/treeDataSlice.ts:26-28 | only the merged tree changes |
| TreeDataSlice.TreeDataStore.SetTrees | src/store/treeDataSlice.ts:29-33 | both inputs set and the merged tree cleared |
| PositionHelper.GetEdgeId | src/components/TreePositionHelper.ts:4-6 | the engines' edge key for the two ids: the source id, a dash, the target id, each recoverable from the key |
| PositionHelper.CollectNodes | src/components/TreePositionHelper.ts:26-34 | the nodes in pre-order are appended to the caller's list, which is returned; an empty tree appends nothing |
| PositionHelper.CalculateEdges | src/components/TreePositionHelper.ts:9-23 | the (parent, child) pairs are appended in order (left pair, left subtree, right pair, right subtree) to the caller's list, which is returned |
| PositionHelper.AllNodes | src/components/TreePositionHelper.ts:26-34 | from an empty list: one entry per node, holding the pre-order values |
| PositionHelper.AllEdges | src/components/TreePositionHelper.ts:9-23 | from an empty list: size − 1 pairs for a non-empty tree, none for an empty one, each a node and one of its children |
| PositionHelper.PreOrderMatchesValues | src/components/TreePositionHelper.ts:26-34 | the pre-order node list has one node per tree node, carrying the pre-order values |
| PositionHelper.EdgePairsCount | src/components/TreePositionHelper.ts:9-23 | a non-empty tree has size − 1 pairs |
| PositionHelper.EdgePairsAreLinks | src/components/TreePositionHelper.ts:12-20 | the second node of every pair is the first node's left or right child |
| PositionHelper.EdgeIdsAreEngineKeys | src/components/TreePositionHelper.ts:4-23 | for a tree whose nodes all have ids, the edge ids of the listed pairs, together with the edge into the root, are exactly the engines' edge keys for that subtree |
| PositionHelper.EdgeIdsOfTree | src/components/TreePositionHelper.ts:4-23 | for a whole tree, the edge ids of the listed pairs are exactly the edge keys the engines draw |
| StepLog.ChainedMeansStampedAndGrowing | src/algorithms/dfsAlgorithm.ts:12-22 | every step is stamped with 1000 × its index and holds every node and edge key of the step before it |
| StepLog.Push | src/algorithms/dfsAlgorithm.ts:18-27 | a push appends one step stamped with 1000 × its index that copies both maps, and keeps the log chained |
| StepLog.SetNode | src/algorithms/dfsAlgorithm.ts:29-36 | a node with a truthy id gets the given style; nothing else changes, and a stamped, growing log stays so |
| StepLog.SetEdge | src/algorithms/dfsAlgorithm.ts:103-110 | the edge key gets the given style; nothing else changes, and a stamped, growing log stays so |
| StepLog.SetNodeRepaints | src/algorithms/dfsAlgorithm.ts:29-36 | setting one node's style writes only that node's ink (id, value, colour); every other style keeps its ink |
| StepLog.SettledShows | src/algorithms/bfsAlgorithm.ts:761-783 | settled styles, painted from a set of inks and keyed by every ink's id, show each ink whose id no other ink shares at scale 1 and opacity 1 |
| StepLog.InkWithin | src/utils/treeUtils.ts:197-215 | the node at any position of a tree is one of that tree's inks |
| StepLog.InkIds | src/utils/treeUtils.ts:197-215 | a tree's inks carry exactly ids of that tree |
| DfsAlgorithm.DfsNarration | src/algorithms/dfsAlgorithm.ts:64-465 | each position's narration opens with the both-empty step, the lone-node step, or the sum step |
| DfsAlgorithm.DfsMergedWithNothing | src/algorithms/dfsAlgorithm.ts:80-222 | a lone tree merged with nothing keeps its shape and values |
| DfsAlgorithm.DfsMergedIsMergeTrees | src/algorithms/dfsAlgorithm.ts:57-465 | up to ids, the tree the recursion builds is `mergeTrees` |
| DfsAlgorithm.DfsValuesFollowMergeRule | src/algorithms/dfsAlgorithm.ts:80-252 | at every position the built tree holds the sum, the lone value, or nothing |
| DfsAlgorithm.NarrationPlacesInPreOrder | src/algorithms/dfsAlgorithm.ts:112-280 | the values the narration reports as placed are the built tree's values in pre-order |
| DfsAlgorithm.OnlyMerged | src/algorithms/dfsAlgorithm.ts:92-165 | a lone node's merged node holds its value and the id `merged-<id>-null` or `merged-null-<id>` |
| DfsAlgorithm.BothMerged | src/algorithms/dfsAlgorithm.ts:249-252 | two nodes merge into the sum with the id `merged-<id1>-<id2>` |
| DfsAlgorithm.BothInks | src/algorithms/dfsAlgorithm.ts:226-465 | the inks a two-node visit writes, with those of both child positions, are inks of the two subtrees and of their merge |
| DfsAlgorithm.OnlyInks | src/algorithms/dfsAlgorithm.ts:80-222 | the inks a lone-node visit writes, with those of its children, are inks of the lone subtree and of its copy |
| DfsAlgorithm.Dfs | src/algorithms/dfsAlgorithm.ts:57-465 | one call appends its narration and returns the merged subtree. It styles exactly the nodes it visits or creates and leaves all others alone; every style it writes shows a node of the first subtree blue, of the second orange or of the merged subtree green, with its value. It draws exactly the edges into and within the merged subtree, at width 1.5 and opacity 0.7. Every node it touched ends restored |
| DfsAlgorithm.VisitNode | src/algorithms/dfsAlgorithm.ts:80-138 | the one step it pushes shows the merged node green at scale 1.2 and opacity 0.7, the second source orange and the first blue at scale 1.2 (unless a later style shares the id), and the edge from the parent tentative; every style it leaves shows one of the three nodes in its colour with its value, or what was there before; then all restored |
| DfsAlgorithm.PaintSources | src/algorithms/dfsAlgorithm.ts:230-247 | the second source orange and the first blue (unless it shares the id) at the given scale and opacity, each with its value; no other style, no step and no edge changes |
| DfsAlgorithm.Highlight | src/algorithms/dfsAlgorithm.ts:230-270 | the merged node green at scale 1.2 and opacity 0.7, the sources orange and blue at scale 1.2; only those styles and the edge from the parent are written |
| DfsAlgorithm.DrawEdge | src/algorithms/dfsAlgorithm.ts:103-110 | the edge from the parent is drawn at width 1.5, only when there is a parent |
| DfsAlgorithm.NarrateAndRestore | src/algorithms/dfsAlgorithm.ts:272-307 | one step, then every highlighted node settled at scale 1 and opacity 1 |
| DfsAlgorithm.DfsOnly | src/algorithms/dfsAlgorithm.ts:80-222 | the lone-node branch does one call's work and recurses only into existing children |
| DfsAlgorithm.OnlyChild | src/algorithms/dfsAlgorithm.ts:141-147 | an absent child of a lone node adds no step, style or edge; a present one adds the recursion's work |
| DfsAlgorithm.PushThenPaint | src/algorithms/dfsAlgorithm.ts:311-339 | one step, then the two children painted at the given scale and opacity |
| DfsAlgorithm.AnnounceChildren | src/algorithms/dfsAlgorithm.ts:311-369 | the announcement steps are given only when a child has an id, and every style it writes ends restored |
| DfsAlgorithm.DfsBoth | src/algorithms/dfsAlgorithm.ts:226-465 | the two-node branch does one call's work and always recurses into both child positions |
| DfsAlgorithm.BothChildren | src/algorithms/dfsAlgorithm.ts:311-462 | left position, "left done" only if a left child exists, right position, "subtree done" only below the root |
| DfsAlgorithm.ChildPosition | src/algorithms/dfsAlgorithm.ts:311-372 | the announcement, then the recursion one level down; the child is the merge of the two children |
| DfsAlgorithm.ChildThenPush | src/algorithms/dfsAlgorithm.ts:372-385 | one child position, then the conditional backtrack step |
| DfsAlgorithm.PushIf | src/algorithms/dfsAlgorithm.ts:375-385 | the step is pushed only when the condition holds, and no style changes |
| DfsAlgorithm.MarkBothRoots | src/algorithms/dfsAlgorithm.ts:18-55 | two intro steps, with the roots styled and no edge |
| DfsAlgorithm.RunOutcome | src/algorithms/dfsAlgorithm.ts:468-469 | after the recursion from the roots, the maps hold exactly the styles of the three trees and the merged tree's edges, all tentative |
| DfsAlgorithm.GenerateDfsAnimationSteps | src/algorithms/dfsAlgorithm.ts:8-482 | stamped, growing steps: two intro steps, the recursion from the roots even for empty trees, then completion. The ghost merged tree is `DfsMerged`. The last step styles every node of both inputs and of the merged tree, settled; each style shows a node of root1 blue, of root2 orange or of the merged tree green with its value, and every id not shared between the trees shows its own node that way at scale 1 and opacity 1. It draws exactly the merged tree's edges, never settled |
| BfsAlgorithm.BfsSubWithNothing | src/algorithms/bfsAlgorithm.ts:325-425 | a lone subtree is copied node by node with its shape and values |
| BfsAlgorithm.BfsSubIsMergeTrees | src/algorithms/bfsAlgorithm.ts:272-425 | up to ids, the merged subtree the child branches build is `mergeTrees` |
| BfsAlgorithm.BfsMergedIsMergeTrees | src/algorithms/bfsAlgorithm.ts:106-114 | up to ids, the tree the queues build is `mergeTrees` |
| BfsAlgorithm.BfsValuesFollowMergeRule | src/algorithms/bfsAlgorithm.ts:272-425 | at every position the built tree holds the sum, the lone value, or nothing |
| BfsAlgorithm.MergedAt | src/algorithms/bfsAlgorithm.ts:238-426 | with both roots present, the built tree has a node, with an id, exactly where either input has one |
| BfsAlgorithm.ChildPaths | src/algorithms/bfsAlgorithm.ts:310-312 | the enqueued children of a position have nodes and lie one level below it |
| BfsAlgorithm.NextPaths | src/algorithms/bfsAlgorithm.ts:189-192 | every position queued for the next level has a node and a parent in the current level |
| BfsAlgorithm.LiveBelowHeight | src/algorithms/bfsAlgorithm.ts:173-175 | a position with a node lies above the sum of the heights |
| BfsAlgorithm.NextPathsComplete | src/algorithms/bfsAlgorithm.ts:173-192 | every position with a node whose parent is queued gets queued for the next level |
| BfsAlgorithm.NextLevel | src/algorithms/bfsAlgorithm.ts:174-189 | the next queue of a complete level holds exactly the positions with nodes one level down |
| BfsAlgorithm.QueuedAppend | src/algorithms/bfsAlgorithm.ts:310-312 | pushing onto all three queues keeps them the same length and position-aligned |
| BfsAlgorithm.QueuedTail | src/algorithms/bfsAlgorithm.ts:190-192 | shifting all three queues keeps them the same length and position-aligned |
| BfsAlgorithm.Announce | src/algorithms/bfsAlgorithm.ts:238-269 | the check step, then the existing children highlighted: the second input's child orange and the first's blue (unless it shares the id) at scale 1.2 and opacity 0.7, each with its value; no other ink is written |
| BfsAlgorithm.MakeChild | src/algorithms/bfsAlgorithm.ts:272-424 | the created child holds the sum, or the lone child's value, with the id naming both sides; the narration is check, merge or lone, enqueue |
| BfsAlgorithm.Sprout | src/algorithms/bfsAlgorithm.ts:283-300 | the created node green at scale 1.2 and opacity 0.7 with its value, and its edge drawn tentatively, only those |
| BfsAlgorithm.Restore | src/algorithms/bfsAlgorithm.ts:426-462 | the two children, the created node and its edge end settled, each child in its tree's colour and the created node green |
| BfsAlgorithm.SettleChild | src/algorithms/bfsAlgorithm.ts:447-461 | the created node green at scale 1 and opacity 1 with its value, and its edge settled at width 1 when both ends have ids |
| BfsAlgorithm.SettleEdge | src/algorithms/bfsAlgorithm.ts:455-460 | the edge is settled at width 1 and opacity 1 only when both ends have ids |
| BfsAlgorithm.Attach | src/algorithms/bfsAlgorithm.ts:277-462 | the created node and edge, the merge and enqueue steps, then everything it touched settled |
| BfsAlgorithm.ChildStep | src/algorithms/bfsAlgorithm.ts:238-474 | with no child, one step, no enqueue and no link; otherwise one entry on each of the three queues and every style written settled |
| BfsAlgorithm.ChildPresent | src/algorithms/bfsAlgorithm.ts:238-462 | a direction with a child narrates, styles and settles exactly its two children, the created node and its edge, writing only their inks (children blue and orange, created node green) |
| BfsAlgorithm.Spotlight | src/algorithms/bfsAlgorithm.ts:193-231 | the dequeue step, then the three dequeued nodes highlighted at scale 1.2 and opacity 1: the second input's node orange, the first's blue, the merged node green, each with its value (unless a later style shares its id) |
| BfsAlgorithm.Settle | src/algorithms/bfsAlgorithm.ts:719-744 | the three dequeued nodes end settled, each in its tree's colour with its value (unless a later style shares its id) |
| BfsAlgorithm.Paint | src/algorithms/bfsAlgorithm.ts:206-230 | `if (t.id) nodesState.set(...)`: the node shows its value in the colour, scale and opacity given, and only its ink is written |
| BfsAlgorithm.Paint3 | src/algorithms/bfsAlgorithm.ts:206-230 | merged node green, first input blue, second orange at the scale given, a later style winning where ids are shared; only those three inks |
| BfsAlgorithm.PairInksWithin | src/algorithms/bfsAlgorithm.ts:193-744 | what one pair writes are inks of the nodes at its position and its two child positions, so of the three trees |
| BfsAlgorithm.ProcessPair | src/algorithms/bfsAlgorithm.ts:193-744 | one pair: dequeue step, left child, right child, settle; the three queues grow by the same entries; every style written shows one of the pair's or its children's nodes in its tree's colour |
| BfsAlgorithm.DequeueFront | src/algorithms/bfsAlgorithm.ts:190-744 | the front entries are the front position's subtrees; its children with nodes are queued behind the rest, recorded in the maps, and narrated |
| BfsAlgorithm.DrainLevel | src/algorithms/bfsAlgorithm.ts:174-745 | the `size` captured before the loop dequeues exactly the level; the queues end holding the next level |
| BfsAlgorithm.LevelsRemain | src/algorithms/bfsAlgorithm.ts:173-175 | while the merged queue is non-empty another level lies within the heights, so the loop terminates |
| BfsAlgorithm.RunLevel | src/algorithms/bfsAlgorithm.ts:174-758 | one turn keeps `Between` one level down; the level-finished step is given only when the queue is not empty |
| BfsAlgorithm.RunLevels | src/algorithms/bfsAlgorithm.ts:170-759 | the loop ends with an empty merged queue and `Between` holding |
| BfsAlgorithm.Finish | src/algorithms/bfsAlgorithm.ts:761-783 | the narration lacks only queue-empty and completion; every node of the three trees is styled and settled, each style showing a node of root1 blue, root2 orange or the merged tree green with its value, and each id not shared between the trees showing its node that way at scale 1; exactly the merged tree's edges are drawn, settled |
| BfsAlgorithm.ShowRoots | src/algorithms/bfsAlgorithm.ts:84-124 | the merged root `merged-<id1>-<id2>` holds the sum; the step shows it green at scale 1.2 and opacity 0.7 and the roots orange and blue at scale 1.2 (unless a later style shares the id); only those three inks, no edge; one step |
| BfsAlgorithm.RestoreRoots | src/algorithms/bfsAlgorithm.ts:126-162 | the three roots settled, styles still only the three roots' inks, then the queue-initialisation step |
| BfsAlgorithm.RootsShown | src/algorithms/bfsAlgorithm.ts:87-115 | styling root1 blue, root2 orange and the merged root green over empty styles shows each (the later winning on a shared id) and nothing else |
| BfsAlgorithm.RootRecorded | src/algorithms/bfsAlgorithm.ts:84-167 | after the root step the styled nodes are those at the root position, painted from the three trees' inks, and no edge is drawn |
| BfsAlgorithm.MergeRoots | src/algorithms/bfsAlgorithm.ts:84-167 | the root position is recorded and narrated, and the merged root is the built tree's root |
| BfsAlgorithm.Opening | src/algorithms/bfsAlgorithm.ts:18-37 | two opening steps over empty maps |
| BfsAlgorithm.OneTreeEmpty | src/algorithms/bfsAlgorithm.ts:40-81 | an empty input gives exactly three steps, the last showing only the other root, highlighted, and no edge |
| BfsAlgorithm.MergeBoth | src/algorithms/bfsAlgorithm.ts:84-783 | the whole narration; the last step styles all nodes of the three trees, settled, each in its tree's colour with its value where no two trees share the id, and exactly the merged tree's edges, settled |
| BfsAlgorithm.GenerateBfsAnimationSteps | src/algorithms/bfsAlgorithm.ts:8-784 | stamped, growing steps narrating `BfsNarration`, with the ghost merged tree `BfsMerged`. An empty input gives three steps with the other root highlighted. Otherwise the last step styles every node, settled: each style shows a node of root1 blue, of root2 orange or of the merged tree green with its value, every id not shared between the trees shows its own node that way at scale 1 and opacity 1, and exactly the merged tree's edges are drawn, settled |

## Left out

- The `JSON.parse` fast path of `parseTreeInput` is a foreign call and accepts more than the grammar; only the grammar path is modelled, and a failure is a `ParseError` value, not a thrown exception.
- `Math.random` ids and values are parameters; the model does not capture that they are random or distinct.
- An id interpolated into a template while undefined prints `undefined`; the model has no undefined ids (an empty id stands for a falsy one).
- In-place linking (`current.left = ...`, `mergedNode.left = ...`, `nodes[i].left = ...`) is modelled by values: the breadth-first engine keeps positions instead of references, and the decoder builds each child before its parent. Aliasing between the queued nodes and the merged tree is therefore not modelled.
- The merged trees the engines build are ghost results: the source builds them but returns only the steps.
- `deepClone`/`structuredClone` is a value copy, which Dafny datatypes give for free.
- Layout and floating point: `calculateNodePositions`, `createPositionCalculator` and `calculateFontSizes` are not modelled.
- `console.log` calls are I/O and are not modelled.
- The animation store's `treeData` field and the module-load computation of the two step sequences are not modelled; the sequences are constructor parameters.
- The React components, the timers driving playback, the store hooks and the build configuration are not part of this model.
- Step descriptions and messages are step kinds; the exact Chinese text is not modelled.
- AnimationSlice.AnimationStore.SetCurrentStep: requires a non-empty active sequence, because the source reads `steps[step]`, which fails on an empty sequence.
- AnimationSlice.AnimationStore.SetAlgorithm: requires the chosen sequence to be non-empty, for the same reason.
- AnimationSlice.AnimationStore.ResetAnimation: requires a non-empty active sequence, for the same reason.
- ShowNatValue: the source reads each item with `parseInt(item, 10)` (src/utils/treeUtils.ts:115), which yields a double and rounds above 2^53, so `[9007199254740993]` reads as 9007199254740992. The model's digit reading `DigitsValue` is exact, and the round trip is proved for that exact reading only.
- ParseInput.ParseTreeInput: values are exact integers here; above 2^53 the source's values are rounded as described for ShowNatValue, so the parse agrees with the source only on values up to 2^53.
- TreeUtils.MergeTrees: node values are JavaScript doubles in the source and unbounded integers here. The sums in `mergeTrees` (src/utils/treeUtils.ts:204), in the depth-first engine (src/algorithms/dfsAlgorithm.ts:249-252) and in the breadth-first engine (src/algorithms/bfsAlgorithm.ts:106, 278, 521) are exact in the model but rounded by the source once they exceed 2^53; every merge property is proved for exact sums only.
- AnimationSlice.AnimationStore.SetCurrentStep: the payload is an integer here. The source's payload is any number; a fractional one such as 1.5 survives the clamp and `steps[1.5]` is undefined, so reading its snapshot throws (src/store/animationSlice.ts:88-90). That failure is not modelled.
- TreeSlice.TreeStore.SetCurrentStep: the payload is an integer here; the source stores any number, fractional ones included, as given (src/store/features/treeSlice.ts:53-56).
- GenerateRandomTree: the source's default arguments (`maxDepth = 3`, `nullProbability = 0.3`) are ordinary parameters here.
