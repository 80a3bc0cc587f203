/** The scene's frame settings and Python's `range` over them. */
module FrameRanges {

  /** `scene.frame_start`, `scene.frame_end`, `scene.frame_step`. */
  datatype Scene = Scene(frameStart: int, frameEnd: int, frameStep: int)
  {
    /** Blender keeps the step at least 1 and the end no earlier than the start. */
    predicate Valid() { frameStep >= 1 && frameStart <= frameEnd }
  }

  /** Python's `range(start, stop, step)` for a positive step: start, start+step,
      ... while below stop. */
  function Range(start: int, stop: int, step: int): (r: seq<int>)
    requires step >= 1
    ensures forall i :: 0 <= i < |r| ==> r[i] == start + i * step
    ensures forall i :: 0 <= i < |r| ==> r[i] < stop
    ensures start + |r| * step >= stop
    decreases stop - start
  {
    if start >= stop then []
    else
      var rest := Range(start + step, stop, step);
      assert forall i :: 1 <= i < |rest| + 1 ==> start + i * step == start + step + (i - 1) * step;
      assert start + (|rest| + 1) * step == start + step + |rest| * step;
      [start] + rest
  }

  /** Widening the stop by one adds at most the old stop itself, and with a
      step of 1 always adds it: the inclusive end of the older add-on samples
      at most one frame more than the exclusive end of the newer one. */
  lemma {:induction false} InclusiveEnd(start: int, end: int, step: int)
    requires step >= 1
    ensures var inclusive, exclusive := Range(start, end + 1, step), Range(start, end, step);
      inclusive == exclusive || inclusive == exclusive + [end]
    ensures step == 1 && start <= end ==> Range(start, end + 1, step) == Range(start, end, step) + [end]
    decreases end - start
  {
    if start < end {
      var rest1, rest0 := Range(start + step, end + 1, step), Range(start + step, end, step);
      assert Range(start, end + 1, step) == [start] + rest1;
      assert Range(start, end, step) == [start] + rest0;
      InclusiveEnd(start + step, end, step);
      assert rest1 == rest0 || rest1 == rest0 + [end];
    }
  }
}
