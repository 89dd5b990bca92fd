/**
 * The step cursor that both playback stores move (animationSlice.ts:72-91 and
 * features/treeSlice.ts:72-85): one step forward while below the last index, one step
 * back while above zero, or a jump clamped into the index range.
 */
module StepCursor {
  /** `if (current < last) current += 1`. */
  function Next(current: int, last: int): (r: int)
    ensures current < last ==> r == current + 1
    ensures current >= last ==> r == current
    ensures 0 <= current <= last ==> 0 <= r <= last
  {
    if current < last then current + 1 else current
  }

  /** `if (current > 0) current -= 1`. */
  function Prev(current: int): (r: int)
    ensures current > 0 ==> r == current - 1
    ensures current <= 0 ==> r == current
    ensures 0 <= current ==> 0 <= r
  {
    if current > 0 then current - 1 else current
  }

  /** `Math.max(0, Math.min(n, len - 1))`: the index nearest to `n` when there is one. */
  function Clamp(n: int, len: int): (r: int)
    ensures 0 <= r
    ensures len > 0 ==> r < len
    ensures 0 <= n < len ==> r == n
    ensures n < 0 ==> r == 0
    ensures len > 0 && n >= len ==> r == len - 1
  {
    var m := if n < len - 1 then n else len - 1;
    if 0 > m then 0 else m
  }

  /** One step forward and one step back returns to where the cursor was, inside the range. */
  lemma PrevUndoesNext(current: int, last: int)
    requires 0 <= current < last
    ensures Prev(Next(current, last)) == current
    ensures Next(Prev(current + 1), last) == current + 1
  {
  }

  /** The cursor after `k` presses of "next", starting from `current`. */
  function NextTimes(current: int, last: int, k: nat): int
  {
    if k == 0 then current else Next(NextTimes(current, last, k - 1), last)
  }

  /**
   * Pressing "next" `k` times from the first step stops on step `k` or on the last step,
   * whichever comes first; it never runs past the end.
   */
  lemma {:induction false} NextTimesFromStart(last: int, k: nat)
    requires last >= 0
    ensures NextTimes(0, last, k) == if k < last then k else last
  {
    if k > 0 {
      NextTimesFromStart(last, k - 1);
    }
  }

  /** Pressing "next" from the last step, or beyond, changes nothing, however often. */
  lemma {:induction false} NextTimesAtEnd(current: int, last: int, k: nat)
    requires current >= last
    ensures NextTimes(current, last, k) == current
  {
    if k > 0 {
      NextTimesAtEnd(current, last, k - 1);
    }
  }

  /** Clamping is idempotent: a clamped index is already in range. */
  lemma ClampIdempotent(n: int, len: int)
    requires len > 0
    ensures Clamp(Clamp(n, len), len) == Clamp(n, len)
  {
  }
}
