/**
 * The animation store (animationSlice.ts:24-104): play/pause, speed, the chosen engine and a
 * cursor over that engine's steps, with the snapshot shown at the cursor. The two step
 * sequences are computed once when the module loads; here they are constructor parameters.
 */
module AnimationSlice {
  import opened Types
  import opened StepCursor

  class AnimationStore {
    var isPlaying: bool
    var currentStep: int
    var totalSteps: int
    var speed: real
    var algorithm: Algorithm
    const dfsSteps: seq<AnimationStep>
    const bfsSteps: seq<AnimationStep>
    var currentSnapshot: Option<Snapshot>

    /** The steps of the engine chosen now. */
    function ActiveSteps(): seq<AnimationStep>
      reads this
    {
      if algorithm == DFS then dfsSteps else bfsSteps
    }

    /**
     * The cursor is an index of the active steps (or 0 when there are none), and a shown
     * snapshot is the one at the cursor.
     */
    ghost predicate Valid()
      reads this
    {
      0 <= currentStep
      && (currentStep < |ActiveSteps()| || currentStep == 0)
      && (currentSnapshot.Some? ==> currentStep < |ActiveSteps()| && currentSnapshot.value == ActiveSteps()[currentStep].snapshot)
    }

    /** The initial state: paused, step 0 of 0, speed 1, depth-first, nothing shown. */
    constructor (dfs: seq<AnimationStep>, bfs: seq<AnimationStep>)
      ensures dfsSteps == dfs && bfsSteps == bfs
      ensures !isPlaying && currentStep == 0 && totalSteps == 0 && speed == 1.0 && algorithm == DFS
      ensures currentSnapshot == None
      ensures Valid()
    {
      dfsSteps, bfsSteps := dfs, bfs;
      isPlaying, currentStep, totalSteps, speed, algorithm := false, 0, 0, 1.0, DFS;
      currentSnapshot := None;
    }

    method PlayAnimation()
      requires Valid()
      modifies this
      ensures isPlaying
      ensures currentStep == old(currentStep) && totalSteps == old(totalSteps) && speed == old(speed)
      ensures algorithm == old(algorithm) && currentSnapshot == old(currentSnapshot)
      ensures Valid()
    {
      isPlaying := true;
    }

    method PauseAnimation()
      requires Valid()
      modifies this
      ensures !isPlaying
      ensures currentStep == old(currentStep) && totalSteps == old(totalSteps) && speed == old(speed)
      ensures algorithm == old(algorithm) && currentSnapshot == old(currentSnapshot)
      ensures Valid()
    {
      isPlaying := false;
    }

    method SetSpeed(payload: real)
      requires Valid()
      modifies this
      ensures speed == payload
      ensures isPlaying == old(isPlaying) && currentStep == old(currentStep) && totalSteps == old(totalSteps)
      ensures algorithm == old(algorithm) && currentSnapshot == old(currentSnapshot)
      ensures Valid()
    {
      speed := payload;
    }

    /** One step forward while not on the last step, showing the new step's snapshot. */
    method NextStep()
      requires Valid()
      modifies this
      ensures algorithm == old(algorithm)
      ensures currentStep == Next(old(currentStep), |ActiveSteps()| - 1)
      ensures currentSnapshot == if currentStep != old(currentStep) then Some(ActiveSteps()[currentStep].snapshot)
                                 else old(currentSnapshot)
      ensures isPlaying == old(isPlaying) && totalSteps == old(totalSteps) && speed == old(speed)
      ensures Valid()
    {
      var steps := if algorithm == DFS then dfsSteps else bfsSteps;
      if currentStep < |steps| - 1 {
        currentStep := currentStep + 1;
        currentSnapshot := Some(steps[currentStep].snapshot);
      }
    }

    /** One step back while not on the first step, showing the new step's snapshot. */
    method PrevStep()
      requires Valid()
      modifies this
      ensures algorithm == old(algorithm)
      ensures currentStep == Prev(old(currentStep))
      ensures currentSnapshot == if currentStep != old(currentStep) then Some(ActiveSteps()[currentStep].snapshot)
                                 else old(currentSnapshot)
      ensures isPlaying == old(isPlaying) && totalSteps == old(totalSteps) && speed == old(speed)
      ensures Valid()
    {
      if currentStep > 0 {
        currentStep := currentStep - 1;
        var steps := if algorithm == DFS then dfsSteps else bfsSteps;
        currentSnapshot := Some(steps[currentStep].snapshot);
      }
    }

    /** A jump to any requested index, clamped into the active steps. */
    method SetCurrentStep(payload: int)
      requires |ActiveSteps()| > 0
      modifies this
      ensures algorithm == old(algorithm)
      ensures currentStep == Clamp(payload, |ActiveSteps()|)
      ensures currentSnapshot == Some(ActiveSteps()[currentStep].snapshot)
      ensures isPlaying == old(isPlaying) && totalSteps == old(totalSteps) && speed == old(speed)
      ensures Valid()
    {
      var steps := if algorithm == DFS then dfsSteps else bfsSteps;
      var step := Clamp(payload, |steps|);
      currentStep := step;
      currentSnapshot := Some(steps[step].snapshot);
    }

    /** Switch engine: back to its first step, and `totalSteps` becomes its length. */
    method SetAlgorithm(payload: Algorithm)
      requires |if payload == DFS then dfsSteps else bfsSteps| > 0
      modifies this
      ensures algorithm == payload && currentStep == 0 && totalSteps == |ActiveSteps()|
      ensures currentSnapshot == Some(ActiveSteps()[0].snapshot)
      ensures isPlaying == old(isPlaying) && speed == old(speed)
      ensures Valid()
    {
      algorithm := payload;
      currentStep := 0;
      var steps := if payload == DFS then dfsSteps else bfsSteps;
      totalSteps := |steps|;
      currentSnapshot := Some(steps[0].snapshot);
    }

    /** Back to the first step, paused; the engine and the speed stay. */
    method ResetAnimation()
      requires |ActiveSteps()| > 0
      modifies this
      ensures algorithm == old(algorithm)
      ensures currentStep == 0 && !isPlaying
      ensures currentSnapshot == Some(ActiveSteps()[0].snapshot)
      ensures totalSteps == old(totalSteps) && speed == old(speed)
      ensures Valid()
    {
      currentStep := 0;
      isPlaying := false;
      var steps := if algorithm == DFS then dfsSteps else bfsSteps;
      currentSnapshot := Some(steps[0].snapshot);
    }
  }

  /**
   * With both engines' steps non-empty, the cursor of a valid store is always an index of
   * the active steps, whichever reducer ran last.
   */
  lemma CursorInRange(s: AnimationStore)
    requires s.Valid() && |s.dfsSteps| > 0 && |s.bfsSteps| > 0
    ensures 0 <= s.currentStep < |s.ActiveSteps()|
  {
  }
}
