/** The value types shared by the tree model, the two step engines and the stores. */
module Types {

  datatype Option<+T> = None | Some(value: T)

  datatype Result<+T, +E> = Ok(value: T) | Err(error: E)

  /** A binary tree node. `id == ""` stands for a missing (or empty, hence falsy) id. */
  datatype Tree = Nil | Node(val: int, id: string, left: Tree, right: Tree)

  datatype Dir = Left | Right

  /** A position in a tree: the turns taken from the root. */
  type Path = seq<Dir>

  /** The three fixed hues: tree 1 (#4285F4), tree 2 (#F4B400), merged tree (#0F9D58). */
  datatype Color = Blue | Orange | Green

  /** Visual state of one node; `scale` and `opacity` are in tenths (12 is 1.2, 7 is 0.7). */
  datatype NodeState = NodeState(val: int, color: Color, scale: int, opacity: int)

  /** Visual state of one edge; `width` and `opacity` are in tenths (15 is 1.5). */
  datatype EdgeState = EdgeState(stroke: Color, width: int, opacity: int)

  /** Which source tree a lone node comes from. */
  datatype Side = First | Second

  /** Which source trees contribute a node at a position. */
  datatype Contributors = Both | OnlyFirst | OnlySecond

  /**
   * The narration of one step. Each constructor stands for one fixed message/description
   * pair of the engines; the values interpolated into the text are its arguments.
   */
  datatype StepKind =
    // depth-first engine
    | DfsIntro
    | MarkRoots
    | BothNull
    | UseOnly(side: Side, v: int)
    | MergeNodes(v1: int, v2: int, sum: int)
    | RecurseInto(dir: Dir)
    | PrepareChild(dir: Dir)
    | LeftDone
    | SubtreeDone(v: int)
    // breadth-first engine
    | BfsIntro
    | CheckEmpty
    | FirstTreeEmpty
    | SecondTreeEmpty
    | MergeRoot(v1: int, v2: int, sum: int)
    | InitQueues
    | LevelStart(level: int)
    | Dequeue
    | CheckChild(dir: Dir)
    | MergeChild(dir: Dir, v1: int, v2: int, sum: int)
    | OnlyChild(dir: Dir, side: Side, v: int)
    | EnqueueChild(dir: Dir, from: Contributors)
    | NoChild(dir: Dir)
    | LevelDone(level: int)
    | QueueEmpty
    // both engines
    | Complete

  /** A cumulative copy of every node and edge style at one step. */
  datatype Snapshot = Snapshot(
    timestamp: int,
    nodesState: map<string, NodeState>,
    edgesState: map<string, EdgeState>,
    message: StepKind)

  datatype AnimationStep = AnimationStep(snapshot: Snapshot, description: StepKind)

  datatype Algorithm = DFS | BFS
}
