/**
 * The recording state both step engines share: the list of steps and the two style maps
 * (node id to node style, `<parent>-<child>` to edge style) that every step copies.
 */
module StepLog {
  import opened Types
  import opened TreeUtils

  /** The engine's `steps`, `nodesState` and `edgesState`, threaded through as one value. */
  datatype Log = Log(steps: seq<AnimationStep>, nodes: map<string, NodeState>, edges: map<string, EdgeState>)

  const EmptyLog := Log([], map[], map[])

  /** The narration of each step, in order. */
  function Kinds(steps: seq<AnimationStep>): seq<StepKind>
  {
    seq(|steps|, i requires 0 <= i < |steps| => steps[i].description)
  }

  ghost predicate Stamped(steps: seq<AnimationStep>)
  {
    forall i :: 0 <= i < |steps| ==>
      steps[i].snapshot.timestamp == 1000 * i && steps[i].description == steps[i].snapshot.message
  }

  ghost predicate KeysGrow(steps: seq<AnimationStep>)
  {
    forall i, j :: 0 <= i <= j < |steps| ==> KeysWithin(steps[i].snapshot, steps[j].snapshot)
  }

  /** Every node key and every edge key of `a` is also one of `b`. */
  ghost predicate KeysWithin(a: Snapshot, b: Snapshot)
  {
    a.nodesState.Keys <= b.nodesState.Keys && a.edgesState.Keys <= b.edgesState.Keys
  }

  /**
   * Step by step: the last step is stamped with 1000 times its index, narrates its own
   * kind, and holds every key the step before it held.
   */
  ghost predicate Chained(steps: seq<AnimationStep>)
    decreases |steps|
  {
    steps == [] ||
    var n := |steps| - 1;
    Chained(steps[..n])
    && steps[n].snapshot.timestamp == 1000 * n && steps[n].description == steps[n].snapshot.message
    && (n > 0 ==> KeysWithin(steps[n - 1].snapshot, steps[n].snapshot))
  }

  /** What every engine keeps true of its log: chained steps, the last one within the live maps. */
  ghost predicate Good(log: Log)
  {
    Chained(log.steps)
    && (|log.steps| > 0 ==>
          var last := log.steps[|log.steps| - 1].snapshot;
          last.nodesState.Keys <= log.nodes.Keys && last.edgesState.Keys <= log.edges.Keys)
  }

  /** The chain gives every step its stamp and every later step a superset of its keys. */
  lemma {:induction false} ChainedMeansStampedAndGrowing(steps: seq<AnimationStep>)
    requires Chained(steps)
    ensures Stamped(steps) && KeysGrow(steps)
    decreases |steps|
  {
    if steps != [] {
      var n := |steps| - 1;
      ChainedMeansStampedAndGrowing(steps[..n]);
      assert forall i :: 0 <= i < n ==> steps[..n][i] == steps[i];
      forall i, j | 0 <= i <= j < |steps| ensures KeysWithin(steps[i].snapshot, steps[j].snapshot) {
        if j == n && i < n {
          assert KeysWithin(steps[i].snapshot, steps[n - 1].snapshot);
        }
      }
    }
  }

  /** `steps.push(...)` with a copy of both maps and timestamp `steps.length * 1000`. */
  function Push(log: Log, kind: StepKind): (r: Log)
    ensures r.nodes == log.nodes && r.edges == log.edges
    ensures |r.steps| == |log.steps| + 1 && r.steps[..|log.steps|] == log.steps
    ensures r.steps[|log.steps|].snapshot == Snapshot(1000 * |log.steps|, log.nodes, log.edges, kind)
    ensures Kinds(r.steps) == Kinds(log.steps) + [kind]
    ensures Good(log) ==> Good(r)
  {
    var step := AnimationStep(Snapshot(1000 * |log.steps|, log.nodes, log.edges, kind), kind);
    KindsSnoc(log.steps, step);
    ChainedSnoc(log, step);
    log.(steps := log.steps + [step])
  }

  lemma KindsSnoc(steps: seq<AnimationStep>, step: AnimationStep)
    ensures Kinds(steps + [step]) == Kinds(steps) + [step.description]
  {
  }

  /** A step copying the live maps, stamped and narrated as its index says, keeps the log good. */
  lemma ChainedSnoc(log: Log, step: AnimationStep)
    requires step.snapshot.timestamp == 1000 * |log.steps| && step.description == step.snapshot.message
    requires step.snapshot.nodesState == log.nodes && step.snapshot.edgesState == log.edges
    ensures Good(log) ==> Good(log.(steps := log.steps + [step]))
  {
    var steps := log.steps + [step];
    assert steps[..|log.steps|] == log.steps;
  }

  /** `if (t.id) nodesState.set(t.id, {val: t.val, ...})`. */
  function SetNode(log: Log, t: Tree, color: Color, scale: int, opacity: int): (r: Log)
    ensures r.steps == log.steps && r.edges == log.edges
    ensures r.nodes == if HasId(t) then log.nodes[t.id := NodeState(t.val, color, scale, opacity)] else log.nodes
    ensures Good(log) ==> Good(r)
  {
    if HasId(t) then log.(nodes := log.nodes[t.id := NodeState(t.val, color, scale, opacity)]) else log
  }

  /** `edgesState.set(key, st)`. */
  function SetEdge(log: Log, key: string, st: EdgeState): (r: Log)
    ensures r.steps == log.steps && r.nodes == log.nodes && r.edges == log.edges[key := st]
    ensures Good(log) ==> Good(r)
  {
    log.(edges := log.edges[key := st])
  }

  /** The key of the edge from the node with id `parent` to the node with id `child`. */
  function EdgeKey(parent: string, child: string): string
  {
    parent + "-" + child
  }

  /** The keys of the edges drawn into `t` (from `parent`, unless it is empty) and within it. */
  function EdgeKeys(parent: string, t: Tree): set<string>
    decreases t
  {
    match t
    case Nil => {}
    case Node(_, id, l, r) => EdgeInto(parent, id) + EdgeKeys(id, l) + EdgeKeys(id, r)
  }

  /** `{"<parent>-<id>"}` when there is a parent, else nothing. */
  function EdgeInto(parent: string, id: string): set<string>
  {
    if parent != "" then {EdgeKey(parent, id)} else {}
  }

  predicate Settled(st: NodeState)
  {
    st.scale == 10 && st.opacity == 10
  }

  predicate AllSettled(nodes: map<string, NodeState>)
  {
    forall k :: k in nodes ==> Settled(nodes[k])
  }

  /** The style of a freshly drawn merged edge (width 1.5, opacity 0.7). */
  const TentativeEdge := EdgeState(Green, 15, 7)

  /** The style of a settled merged edge (width 1, opacity 1). */
  const SettledEdge := EdgeState(Green, 10, 10)

  predicate AllEdgesAre(edges: map<string, EdgeState>, st: EdgeState)
  {
    forall k :: k in edges ==> edges[k] == st
  }

  /** `{id}` when the node exists with a truthy id, else nothing. */
  function IdSet(t: Tree): set<string>
  {
    if HasId(t) then {t.id} else {}
  }

  /**
   * `out` continues `log`: it appends steps narrating `kinds`, adds the node styles keyed by
   * `touched` and leaves the others alone, and adds the edges keyed by `drawn`, each at the
   * edge style `st`, leaving the others alone.
   */
  ghost predicate Extends(log: Log, out: Log, kinds: seq<StepKind>, touched: set<string>, drawn: set<string>, st: EdgeState)
  {
    Good(out)
    && |log.steps| <= |out.steps| && out.steps[..|log.steps|] == log.steps
    && Kinds(out.steps) == Kinds(log.steps) + kinds
    && out.nodes.Keys == log.nodes.Keys + touched
    && Unchanged(log.nodes, out.nodes, touched)
    && out.edges == log.edges + Drawn(drawn, st)
  }

  /** Every style outside `touched` is the same in `after` as in `before`. */
  ghost predicate Unchanged(before: map<string, NodeState>, after: map<string, NodeState>, touched: set<string>)
  {
    forall k :: k in before && k !in touched ==> k in after && after[k] == before[k]
  }

  /** Every key of `drawn` at the edge style `st`. */
  function Drawn(drawn: set<string>, st: EdgeState): map<string, EdgeState>
  {
    map k | k in drawn :: st
  }

  lemma ExtendsTrans(a: Log, b: Log, c: Log, k1: seq<StepKind>, t1: set<string>, d1: set<string>,
                     k2: seq<StepKind>, t2: set<string>, d2: set<string>, st: EdgeState)
    requires Extends(a, b, k1, t1, d1, st) && Extends(b, c, k2, t2, d2, st)
    ensures Extends(a, c, k1 + k2, t1 + t2, d1 + d2, st)
  {
    assert c.steps[..|a.steps|] == c.steps[..|b.steps|][..|a.steps|];
    DrawnUnion(a.edges, d1, d2, st);
  }

  /** `ExtendsTrans` with the combined narration, node keys and edge keys named by the caller. */
  lemma ExtendsChain(a: Log, b: Log, c: Log, k1: seq<StepKind>, t1: set<string>, d1: set<string>,
                     k2: seq<StepKind>, t2: set<string>, d2: set<string>,
                     k: seq<StepKind>, t: set<string>, d: set<string>, st: EdgeState)
    requires Extends(a, b, k1, t1, d1, st) && Extends(b, c, k2, t2, d2, st)
    requires k == k1 + k2 && t == t1 + t2 && d == d1 + d2
    ensures Extends(a, c, k, t, d, st)
  {
    ExtendsTrans(a, b, c, k1, t1, d1, k2, t2, d2, st);
  }

  lemma DrawnUnion(e: map<string, EdgeState>, d1: set<string>, d2: set<string>, st: EdgeState)
    ensures (e + Drawn(d1, st)) + Drawn(d2, st) == e + Drawn(d1 + d2, st)
  {
  }

  lemma PushExtends(log: Log, kind: StepKind, st: EdgeState)
    requires Good(log)
    ensures Extends(log, Push(log, kind), [kind], {}, {}, st)
  {
    assert log.edges + Drawn({}, st) == log.edges;
  }

  lemma SetNodeExtends(log: Log, t: Tree, color: Color, scale: int, opacity: int, st: EdgeState)
    requires Good(log)
    ensures Extends(log, SetNode(log, t, color, scale, opacity), [], IdSet(t), {}, st)
    ensures HasId(t) ==> SetNode(log, t, color, scale, opacity).nodes[t.id] == NodeState(t.val, color, scale, opacity)
  {
    assert Kinds(log.steps) + [] == Kinds(log.steps);
    assert log.edges + Drawn({}, st) == log.edges;
  }

  lemma SetEdgeExtends(log: Log, key: string, st: EdgeState)
    requires Good(log)
    ensures Extends(log, SetEdge(log, key, st), [], {}, {key}, st)
  {
    assert Kinds(log.steps) + [] == Kinds(log.steps);
    assert log.edges[key := st] == log.edges + Drawn({key}, st);
  }

  /** Styles outside `touched` are the old ones; if those and the touched ones are settled, all are. */
  lemma SettledAfter(before: map<string, NodeState>, after: map<string, NodeState>, touched: set<string>)
    requires after.Keys == before.Keys + touched && Unchanged(before, after, touched)
    requires forall k :: k in touched ==> Settled(after[k])
    requires forall k :: k in before && k !in touched ==> Settled(before[k])
    ensures AllSettled(after)
  {
    forall k | k in after ensures Settled(after[k]) {
    }
  }

  lemma ExtendsRefl(log: Log, st: EdgeState)
    requires Good(log)
    ensures Extends(log, log, [], {}, {}, st)
  {
    assert Kinds(log.steps) + [] == Kinds(log.steps);
    assert log.edges + Drawn({}, st) == log.edges;
  }

  /** Restates an `Extends` fact with equal narration, node keys and edge keys. */
  lemma ExtendsSame(a: Log, c: Log, k: seq<StepKind>, t: set<string>, d: set<string>,
                    k': seq<StepKind>, t': set<string>, d': set<string>, st: EdgeState)
    requires Extends(a, c, k, t, d, st) && k == k' && t == t' && d == d'
    ensures Extends(a, c, k', t', d', st)
  {
  }

  /** Steps that change no style, appended after an extension, change only its narration. */
  lemma ExtendsThenSteps(a: Log, b: Log, c: Log, k1: seq<StepKind>, t1: set<string>, d1: set<string>,
                         k2: seq<StepKind>, st: EdgeState)
    requires Extends(a, b, k1, t1, d1, st) && Extends(b, c, k2, {}, {}, st)
    ensures Extends(a, c, k1 + k2, t1, d1, st)
  {
    ExtendsTrans(a, b, c, k1, t1, d1, k2, {}, {}, st);
    assert t1 + {} == t1 && d1 + {} == d1;
  }

  /** Three extensions in a row, with the combined narration, node keys and edge keys named by the caller. */
  lemma ExtendsChain3(a: Log, b: Log, c: Log, e: Log, k1: seq<StepKind>, t1: set<string>, d1: set<string>,
                      k2: seq<StepKind>, t2: set<string>, d2: set<string>, k3: seq<StepKind>, t3: set<string>, d3: set<string>,
                      k: seq<StepKind>, t: set<string>, d: set<string>, st: EdgeState)
    requires Extends(a, b, k1, t1, d1, st) && Extends(b, c, k2, t2, d2, st) && Extends(c, e, k3, t3, d3, st)
    requires k == k1 + k2 + k3 && t == t1 + t2 + t3 && d == d1 + d2 + d3
    ensures Extends(a, e, k, t, d, st)
  {
    ExtendsTrans(a, b, c, k1, t1, d1, k2, t2, d2, st);
    ExtendsTrans(a, c, e, k1 + k2, t1 + t2, d1 + d2, k3, t3, d3, st);
  }

  /** Edges drawn at one style and then redrawn, the same keys, at another end up at the second. */
  lemma ExtendsRestyle(a: Log, b: Log, c: Log, k1: seq<StepKind>, t1: set<string>, k2: seq<StepKind>, t2: set<string>,
                       d: set<string>, st1: EdgeState, st2: EdgeState)
    requires Extends(a, b, k1, t1, d, st1) && Extends(b, c, k2, t2, d, st2)
    ensures Extends(a, c, k1 + k2, t1 + t2, d, st2)
  {
    assert c.steps[..|a.steps|] == c.steps[..|b.steps|][..|a.steps|];
    assert (a.edges + Drawn(d, st1)) + Drawn(d, st2) == a.edges + Drawn(d, st2);
  }

  /** What a node style shows apart from its size: the id it is keyed by, the value and the colour. */
  datatype Ink = Ink(id: string, val: int, color: Color)

  /** The ink of the node `t` drawn in `color`, when it has a truthy id. */
  function InkOf(t: Tree, color: Color): set<Ink>
  {
    if HasId(t) then {Ink(t.id, t.val, color)} else {}
  }

  /** The inks of every node of `t` with a truthy id, drawn in `color`. */
  function Inks(t: Tree, color: Color): set<Ink>
    decreases t
  {
    match t
    case Nil => {}
    case Node(_, _, l, r) => InkOf(t, color) + Inks(l, color) + Inks(r, color)
  }

  /** The ink the style keyed by `k` shows. */
  function InkAt(nodes: map<string, NodeState>, k: string): Ink
    requires k in nodes
  {
    Ink(k, nodes[k].val, nodes[k].color)
  }

  /** The inks a style map shows, one per key. */
  function InksIn(nodes: map<string, NodeState>): set<Ink>
  {
    set k | k in nodes :: InkAt(nodes, k)
  }

  /** Every style shows one of the inks of `pal`. */
  ghost predicate Painted(nodes: map<string, NodeState>, pal: set<Ink>)
  {
    InksIn(nodes) <= pal
  }

  /**
   * Every style of `after` shows one of the inks `written`, or the ink it showed in `before`
   * (an ink names its key, so an ink of `before` is the one shown at the same key).
   */
  ghost predicate Repainted(before: map<string, NodeState>, after: map<string, NodeState>, written: set<Ink>)
  {
    InksIn(after) <= written + InksIn(before)
  }

  /** The node `t`, when it has a truthy id, is shown with its value in `color` at the given scale and opacity. */
  ghost predicate Shows(nodes: map<string, NodeState>, t: Tree, color: Color, scale: int, opacity: int)
  {
    HasId(t) ==> t.id in nodes && nodes[t.id] == NodeState(t.val, color, scale, opacity)
  }

  /** `t` and `later` do not share a truthy id (so a style set for `later` does not overwrite that of `t`). */
  predicate Apart(t: Tree, later: Tree)
  {
    !(HasId(t) && HasId(later) && t.id == later.id)
  }

  /**
   * The styles of a merge highlight: the merged node green at scale 1.2 and
   * opacity 0.7, the second source orange and the first blue at scale 1.2 (each unless a
   * node styled after it shares its id).
   */
  ghost predicate Highlighted(nodes: map<string, NodeState>, n1: Tree, n2: Tree, merged: Tree)
  {
    Shows(nodes, merged, Green, 12, 7)
    && (Apart(n2, merged) ==> Shows(nodes, n2, Orange, 12, 10))
    && (Apart(n1, merged) && Apart(n1, n2) ==> Shows(nodes, n1, Blue, 12, 10))
  }

  /** Setting the style of `t` writes only the ink of `t` in the colour given. */
  lemma SetNodeRepaints(log: Log, t: Tree, color: Color, scale: int, opacity: int)
    ensures Repainted(log.nodes, SetNode(log, t, color, scale, opacity).nodes, InkOf(t, color))
  {
    var after := SetNode(log, t, color, scale, opacity).nodes;
    forall i | i in InksIn(after) ensures i in InkOf(t, color) + InksIn(log.nodes) {
      var k :| k in after && InkAt(after, k) == i;
      if !(HasId(t) && k == t.id) {
        assert InkAt(log.nodes, k) == i;
      }
    }
  }

  /** Two repaintings in a row write no more than the inks of both. */
  lemma RepaintedTrans(a: map<string, NodeState>, b: map<string, NodeState>, c: map<string, NodeState>,
                       w1: set<Ink>, w2: set<Ink>, w: set<Ink>)
    requires Repainted(a, b, w1) && Repainted(b, c, w2) && w1 + w2 <= w
    ensures Repainted(a, c, w)
  {
  }

  /** A repainting from inks of `pal` keeps every style within `pal`. */
  lemma PaintedAfter(before: map<string, NodeState>, after: map<string, NodeState>, w: set<Ink>, pal: set<Ink>)
    requires Painted(before, pal) && Repainted(before, after, w) && w <= pal
    ensures Painted(after, pal)
  {
  }

  /** `i` is the only ink of `pal` with its id. */
  ghost predicate Sole(pal: set<Ink>, i: Ink)
  {
    forall j :: j in pal && j.id == i.id ==> j == i
  }

  /**
   * Every ink of `pal` that no other ink of `pal` shares an id with is shown: its key holds
   * its value and colour at scale 1 and full opacity.
   */
  ghost predicate ShowsSettled(nodes: map<string, NodeState>, pal: set<Ink>)
  {
    forall i :: i in pal && Sole(pal, i) ==> i.id in nodes && nodes[i.id] == NodeState(i.val, i.color, 10, 10)
  }

  /** A settled style map painted from `pal`, with a key for every ink, shows each sole ink of `pal`. */
  lemma SettledShows(nodes: map<string, NodeState>, pal: set<Ink>)
    requires Painted(nodes, pal) && AllSettled(nodes)
    requires forall i :: i in pal ==> i.id in nodes
    ensures ShowsSettled(nodes, pal)
  {
    forall i | i in pal && Sole(pal, i) ensures nodes[i.id] == NodeState(i.val, i.color, 10, 10) {
      assert InkAt(nodes, i.id) in InksIn(nodes);
    }
  }

  /** The inks of `t` carry exactly the truthy ids of `t`. */
  lemma {:induction false} InkIds(t: Tree, color: Color)
    ensures forall i :: i in Inks(t, color) ==> i.id in Ids(t)
    decreases t
  {
    if t.Node? {
      InkIds(t.left, color);
      InkIds(t.right, color);
    }
  }

  /** The node at any position of `t` shows one of the inks of `t`. */
  lemma {:induction false} InkWithin(t: Tree, p: Path, color: Color)
    ensures InkOf(Subtree(t, p), color) <= Inks(t, color)
    decreases |p|
  {
    if p != [] && t != Nil {
      InkWithin(Child(t, p[0]), p[1..], color);
    }
  }
}
