/**
 * The three timed helper coroutines of the movement controller:
 * `MoveOverTime`, `RotateAroundPivot` and `WaitOrSkip`, plus `AdjustDuration`.
 *
 * A Unity coroutine runs its body up to a `yield return null`, then is
 * resumed once per frame. The body between two yields is given here as a
 * pure function of the coroutine's locals and of what the frame shows it
 * (`Time.deltaTime` and whether the skip condition holds); the controller
 * calls these functions once per frame for every running timed action.
 * The methods of the same names run one coroutine on its own over a
 * schedule of frames, with the coroutine's own `while` loop, and state what
 * the whole run achieves.
 */
module Coroutines {
  import opened Wrappers
  import opened Geometry

  /** What a coroutine observes when it is resumed in one frame. */
  datatype Frame = Frame(dt: real, skipping: bool)

  /** Sum of the frame times of `frames`. */
  function SumDt(frames: seq<Frame>): real {
    if frames == [] then 0.0 else SumDt(frames[..|frames| - 1]) + frames[|frames| - 1].dt
  }

  /** Sum of a sequence of rotation increments. */
  function Sum(s: seq<real>): real {
    if s == [] then 0.0 else Sum(s[..|s| - 1]) + s[|s| - 1]
  }

  lemma SumDtSnoc(frames: seq<Frame>, f: Frame)
    ensures SumDt(frames + [f]) == SumDt(frames) + f.dt
  {
    assert (frames + [f])[..|frames|] == frames;
  }

  lemma SumSnoc(s: seq<real>, x: real)
    ensures Sum(s + [x]) == Sum(s) + x
  {
    assert (s + [x])[..|s|] == s;
  }

  /**
   * `AdjustDuration`: a timed action started while the plant is ahead of the
   * animation (skip requested, checkpoint not yet reached) gets duration 0,
   * so it jumps straight to its end state; otherwise its own duration.
   */
  function AdjustDuration(original: real, skipToCheckpoint: bool, reachedCheckpoint: bool): (d: real)
    ensures skipToCheckpoint && !reachedCheckpoint ==> d == 0.0
    ensures !(skipToCheckpoint && !reachedCheckpoint) ==> d == original
  {
    if !reachedCheckpoint && skipToCheckpoint then 0.0 else original
  }

  /** One pass of `MoveOverTime`'s loop: the position written, and the new `elapsed` if it yields. */
  datatype MoveStep = MoveStep(pos: Vec, next: Option<real>)

  /**
   * Resume `MoveOverTime(from, to, duration)` (with `duration > 0`) whose
   * loop has accumulated `elapsed`: while time remains and no skip is seen it
   * writes the interpolated position and yields; otherwise it writes `to`
   * and finishes.
   */
  function MoveResume(from: Vec, to: Vec, duration: real, elapsed: real, f: Frame): (r: MoveStep)
    requires duration > 0.0
    ensures r.next.None? ==> r.pos == to
    ensures r.next.Some? <==> elapsed < duration && !f.skipping
    ensures r.next.Some? ==> r.next.value == elapsed + f.dt && r.pos == Lerp(from, to, elapsed / duration)
    ensures r.next.Some? && elapsed >= 0.0 ==> r.pos == Add(from, Scale(Sub(to, from), elapsed / duration))
  {
    if elapsed < duration then
      if f.skipping then MoveStep(to, None)
      else MoveStep(Lerp(from, to, elapsed / duration), Some(elapsed + f.dt))
    else MoveStep(to, None)
  }

  /** One pass of `RotateAroundPivot`'s loop: the angle applied, and the new `elapsed` if it yields. */
  datatype RotateStep = RotateStep(increment: real, next: Option<real>)

  /** The angle `RotateAroundPivot` has applied once its loop has accumulated `elapsed`. */
  function RotatedSoFar(angle: real, duration: real, elapsed: real): real
    requires duration > 0.0
  {
    (angle / duration) * elapsed
  }

  function Abs(x: real): real {
    if x < 0.0 then -x else x
  }

  /**
   * Resume `RotateAroundPivot(angle, duration)` (with `duration > 0`) whose
   * loop has accumulated `elapsed`. The increments keep the applied total at
   * `RotatedSoFar`; a skip applies exactly the remaining angle, and the end
   * of the loop applies the leftover when it exceeds 0.0001 degrees.
   */
  function RotateResume(angle: real, duration: real, elapsed: real, f: Frame): (r: RotateStep)
    requires duration > 0.0
    ensures r.next.Some? ==>
              && elapsed < duration && !f.skipping && r.next.value == elapsed + f.dt
              && RotatedSoFar(angle, duration, r.next.value) == RotatedSoFar(angle, duration, elapsed) + r.increment
    ensures r.next.None? && elapsed < duration ==>
              f.skipping && RotatedSoFar(angle, duration, elapsed) + r.increment == angle
    ensures r.next.None? ==> Abs(RotatedSoFar(angle, duration, elapsed) + r.increment - angle) <= 0.0001
  {
    if elapsed < duration then
      if f.skipping then
        RotateStep(angle - RotatedSoFar(angle, duration, elapsed), None)
      else
        RotateStep((angle / duration) * f.dt, Some(elapsed + f.dt))
    else
      var leftover := angle - RotatedSoFar(angle, duration, elapsed);
      RotateStep(if Abs(leftover) > 0.0001 then leftover else 0.0, None)
  }

  /** Resume `WaitOrSkip(duration)` whose loop has accumulated `elapsed`: the new `elapsed` if it yields. */
  function WaitResume(duration: real, elapsed: real, f: Frame): (next: Option<real>)
    ensures next.Some? <==> elapsed < duration && !f.skipping
    ensures next.Some? ==> next.value == elapsed + f.dt
  {
    if elapsed < duration && !f.skipping then Some(elapsed + f.dt) else None
  }

  /**
   * `MoveOverTime` run over the frames it is resumed in (`frames[0]` is the
   * frame it starts in). `path[k]` is the position written in frame `k`.
   * Duration 0 or less writes `to` at once. Otherwise the run is described by
   * `MoveRun`: each frame before the last writes the interpolated point for
   * the time elapsed before it, and the move finishes, at exactly `to`, in the
   * first frame that sees a skip or finds the time used up.
   */
  method MoveOverTime(from: Vec, to: Vec, duration: real, frames: seq<Frame>)
    returns (path: seq<Vec>, finished: bool)
    ensures |path| <= |frames|
    ensures !finished ==> |path| == |frames|
    ensures finished ==> |path| > 0 && path[|path| - 1] == to
    ensures forall k :: 0 <= k < |path| ==> OnSegment(from, to, path[k])
    ensures duration <= 0.0 && frames != [] ==> finished && path == [to]
    ensures duration > 0.0 ==> MoveRun(from, to, duration, frames, path, finished)
  {
    path := [];
    finished := false;
    if frames == [] {
      return;
    }
    if duration <= 0.0 {
      LerpOnSegment(from, to, 1.0);
      path, finished := [to], true;
      return;
    }
    var elapsed := 0.0;
    assert frames[..0] == [];
    while !finished && |path| < |frames|
      invariant MoveRun(from, to, duration, frames, path, finished)
      invariant !finished ==> elapsed == SumDt(frames[..|path|])
      decreases |frames| - |path|, !finished
    {
      var step := MoveResume(from, to, duration, elapsed, frames[|path|]);
      MoveRunStep(from, to, duration, frames, path, elapsed);
      path := path + [step.pos];
      match step.next {
        case None => finished := true;
        case Some(e) => elapsed := e;
      }
    }
  }

  /**
   * What `MoveOverTime` with a positive duration has done after writing
   * `path`, one position per frame: every position lies on the segment; each
   * frame that yielded saw no skip, had time left, and wrote the interpolated
   * point for the time elapsed before it; a skip ends the run in the frame
   * it is seen; the frame that finished wrote `to` and either saw a skip or
   * found the time used up.
   */
  ghost predicate MoveRun(from: Vec, to: Vec, duration: real, frames: seq<Frame>, path: seq<Vec>, finished: bool)
  {
    && duration > 0.0
    && |path| <= |frames|
    && (finished ==> |path| > 0 && path[|path| - 1] == to)
    && (forall k :: 0 <= k < |path| ==> OnSegment(from, to, path[k]))
    && (forall k :: 0 <= k < |path| && frames[k].skipping ==> finished && |path| == k + 1)
    && (forall k :: 0 <= k < |path| && (k < |path| - 1 || !finished) ==>
          && SumDt(frames[..k]) < duration && !frames[k].skipping
          && path[k] == Lerp(from, to, SumDt(frames[..k]) / duration))
    && (finished ==> SumDt(frames[..|path| - 1]) >= duration || frames[|path| - 1].skipping)
  }

  /** One more frame of `MoveOverTime` extends a run that has not finished. */
  lemma MoveRunStep(from: Vec, to: Vec, duration: real, frames: seq<Frame>, path: seq<Vec>, elapsed: real)
    requires |path| < |frames|
    requires MoveRun(from, to, duration, frames, path, false) && elapsed == SumDt(frames[..|path|])
    ensures var step := MoveResume(from, to, duration, elapsed, frames[|path|]);
            && MoveRun(from, to, duration, frames, path + [step.pos], step.next.None?)
            && (step.next.Some? ==> step.next.value == SumDt(frames[..|path| + 1]))
  {
    var f := frames[|path|];
    var step := MoveResume(from, to, duration, elapsed, f);
    var path' := path + [step.pos];
    SumDtSnoc(frames[..|path|], f);
    assert frames[..|path|] + [f] == frames[..|path| + 1];
    LerpOnSegment(from, to, elapsed / duration);
    LerpOnSegment(from, to, 1.0);
    assert forall k :: 0 <= k < |path| ==> path'[k] == path[k];
    assert path'[|path|] == step.pos;
  }

  /** A move that does not see a skip in its first frame starts at `from`. */
  lemma MoveRunStartsAtFrom(from: Vec, to: Vec, duration: real, frames: seq<Frame>, path: seq<Vec>, finished: bool)
    requires MoveRun(from, to, duration, frames, path, finished)
    requires |path| > 0 && !frames[0].skipping
    ensures path[0] == from
  {
    assert frames[..0] == [];
    LerpOnSegment(from, to, 0.0);
  }

  /**
   * `RotateAroundPivot` run over the frames it is resumed in. `increments`
   * are the angles passed to `RotateAround`, one per frame. Duration 0 or
   * less applies the full angle at once. Otherwise the run is described by
   * `RotateRun`, and the totals follow: a skip applies exactly the remaining
   * angle, so the total is exactly `angle`; a natural finish leaves the total
   * within 0.0001 degrees of `angle`.
   */
  method RotateAroundPivot(angle: real, duration: real, frames: seq<Frame>)
    returns (increments: seq<real>, finished: bool, skipped: bool)
    ensures |increments| <= |frames|
    ensures !finished ==> |increments| == |frames| && !skipped
    ensures duration <= 0.0 && frames != [] ==> finished && increments == [angle]
    ensures finished ==> |increments| > 0 && Abs(Sum(increments) - angle) <= 0.0001
    ensures skipped ==> finished && Sum(increments) == angle && frames[|increments| - 1].skipping
    ensures duration > 0.0 ==> RotateRun(angle, duration, frames, increments, finished, skipped)
  {
    increments, finished, skipped := [], false, false;
    if frames == [] {
      return;
    }
    if duration <= 0.0 {
      increments, finished := [angle], true;
      return;
    }
    var elapsed := 0.0;
    assert frames[..0] == [];
    while !finished && |increments| < |frames|
      invariant RotateRun(angle, duration, frames, increments, finished, skipped)
      invariant !finished ==> !skipped && elapsed == SumDt(frames[..|increments|])
      invariant !finished ==> Sum(increments) == RotatedSoFar(angle, duration, elapsed)
      invariant finished ==> |increments| > 0 && Abs(Sum(increments) - angle) <= 0.0001
      invariant skipped ==> Sum(increments) == angle && frames[|increments| - 1].skipping
      decreases |frames| - |increments|, !finished
    {
      var step := RotateResume(angle, duration, elapsed, frames[|increments|]);
      RotateRunStep(angle, duration, frames, increments, elapsed);
      SumSnoc(increments, step.increment);
      var wasRunning := elapsed < duration;
      increments := increments + [step.increment];
      match step.next {
        case None =>
          finished := true;
          skipped := wasRunning;
        case Some(e) =>
          elapsed := e;
      }
    }
  }

  /**
   * What `RotateAroundPivot` with a positive duration has done after
   * applying `increments`, one per frame: each frame that yielded saw no
   * skip, had time left, and applied `angle / duration` times its frame
   * time; the frame that finished either saw a skip with time left and
   * applied exactly the angle still missing (`skipped`), or found the time
   * used up and applied the leftover when it exceeds 0.0001 degrees.
   */
  ghost predicate RotateRun(angle: real, duration: real, frames: seq<Frame>, increments: seq<real>,
                            finished: bool, skipped: bool)
  {
    && duration > 0.0
    && |increments| <= |frames|
    && (skipped ==> finished)
    && (forall k :: 0 <= k < |increments| && (k < |increments| - 1 || !finished) ==>
          && SumDt(frames[..k]) < duration && !frames[k].skipping
          && increments[k] == (angle / duration) * frames[k].dt)
    && (finished ==>
          && |increments| > 0
          && var k := |increments| - 1;
             var rest := angle - RotatedSoFar(angle, duration, SumDt(frames[..k]));
             && (skipped <==> SumDt(frames[..k]) < duration)
             && (skipped ==> frames[k].skipping && increments[k] == rest)
             && (!skipped ==> increments[k] == if Abs(rest) > 0.0001 then rest else 0.0))
  }

  /** One more frame of `RotateAroundPivot` extends a run that has not finished. */
  lemma RotateRunStep(angle: real, duration: real, frames: seq<Frame>, increments: seq<real>, elapsed: real)
    requires |increments| < |frames|
    requires RotateRun(angle, duration, frames, increments, false, false)
    requires elapsed == SumDt(frames[..|increments|])
    ensures var step := RotateResume(angle, duration, elapsed, frames[|increments|]);
            && RotateRun(angle, duration, frames, increments + [step.increment], step.next.None?,
                         step.next.None? && elapsed < duration)
            && (step.next.Some? ==> step.next.value == SumDt(frames[..|increments| + 1]))
  {
    var n := |increments|;
    var f := frames[n];
    var step := RotateResume(angle, duration, elapsed, f);
    SumDtSnoc(frames[..n], f);
    assert frames[..n] + [f] == frames[..n + 1];
    if step.next.Some? {
      RotateRunYield(angle, duration, frames, increments, step.increment);
    } else {
      RotateRunEnd(angle, duration, frames, increments, step.increment, elapsed < duration);
    }
  }

  /** A frame that yields, seeing no skip with time left, extends the run by `angle / duration` times its frame time. */
  lemma RotateRunYield(angle: real, duration: real, frames: seq<Frame>, increments: seq<real>, inc: real)
    requires |increments| < |frames|
    requires RotateRun(angle, duration, frames, increments, false, false)
    requires SumDt(frames[..|increments|]) < duration && !frames[|increments|].skipping
    requires inc == (angle / duration) * frames[|increments|].dt
    ensures RotateRun(angle, duration, frames, increments + [inc], false, false)
  {
    var increments' := increments + [inc];
    assert forall k :: 0 <= k < |increments| ==> increments'[k] == increments[k];
    assert increments'[|increments|] == inc;
  }

  /** The frame that finishes the run. */
  lemma RotateRunEnd(angle: real, duration: real, frames: seq<Frame>, increments: seq<real>, inc: real, skipped: bool)
    requires |increments| < |frames|
    requires RotateRun(angle, duration, frames, increments, false, false)
    requires var rest := angle - RotatedSoFar(angle, duration, SumDt(frames[..|increments|]));
             && (skipped <==> SumDt(frames[..|increments|]) < duration)
             && (skipped ==> frames[|increments|].skipping && inc == rest)
             && (!skipped ==> inc == if Abs(rest) > 0.0001 then rest else 0.0)
    ensures RotateRun(angle, duration, frames, increments + [inc], true, skipped)
  {
    var increments' := increments + [inc];
    assert forall k :: 0 <= k < |increments| ==> increments'[k] == increments[k];
    assert increments'[|increments|] == inc;
  }

  /**
   * `WaitOrSkip` run over the frames it is resumed in: it finishes in the
   * first frame in which either the accumulated frame time of the earlier
   * frames has reached `duration` or a skip is seen, and in no earlier frame.
   */
  method WaitOrSkip(duration: real, frames: seq<Frame>) returns (used: nat, finished: bool)
    ensures used <= |frames|
    ensures !finished ==> used == |frames|
    ensures finished ==> 0 < used && (SumDt(frames[..used - 1]) >= duration || frames[used - 1].skipping)
    ensures forall k :: 0 <= k < used - 1 ==> SumDt(frames[..k]) < duration && !frames[k].skipping
    ensures !finished ==> forall k :: 0 <= k < used ==> SumDt(frames[..k]) < duration && !frames[k].skipping
  {
    used, finished := 0, false;
    var elapsed := 0.0;
    while !finished && used < |frames|
      invariant used <= |frames|
      invariant !finished ==> elapsed == SumDt(frames[..used])
      invariant finished ==> 0 < used && (SumDt(frames[..used - 1]) >= duration || frames[used - 1].skipping)
      invariant forall k :: 0 <= k < used - 1 ==> SumDt(frames[..k]) < duration && !frames[k].skipping
      invariant !finished ==> forall k :: 0 <= k < used ==> SumDt(frames[..k]) < duration && !frames[k].skipping
      decreases |frames| - used, !finished
    {
      var f := frames[used];
      SumDtSnoc(frames[..used], f);
      assert frames[..used] + [f] == frames[..used + 1];
      match WaitResume(duration, elapsed, f) {
        case None =>
          finished := true;
        case Some(e) =>
          elapsed := e;
      }
      used := used + 1;
    }
  }
}
