/** The frame-rate gate of main's render loop (main.cpp:25-27, 34-37,
    119-136): every iteration reads the clock in milliseconds; while fewer
    than TARGET_FRAME_TIME milliseconds have passed since the last frame
    that ran, the iteration does nothing else; otherwise it records the
    elapsed time, moves previousFrameTime to the current time and runs
    update and render once. The clock is a parameter: `now` is what
    glfwGetTime() * 1000 converts to. */
module FrameGate {

  /** FPS_LIMIT */
  const FPS_LIMIT: bool := true
  /** TARGET_FPS */
  const TARGET_FPS: int := 60
  /** TARGET_FRAME_TIME, (1000 / TARGET_FPS) in integer division: 16. */
  const TARGET_FRAME_TIME: int := 1000 / TARGET_FPS

  /** An iteration at time `now` gets past main.cpp:128 when the last frame
      ran at `previous`. */
  predicate GateOpen(previous: int, now: int)
  {
    !(FPS_LIMIT && now - previous < TARGET_FRAME_TIME)
  }

  /** The times at which update and render run, for iterations at the
      times `nows`, when the last frame ran at `previous`. */
  function RunTimes(previous: int, nows: seq<int>): seq<int>
    decreases |nows|
  {
    if nows == [] then []
    else if GateOpen(previous, nows[0]) then [nows[0]] + RunTimes(nows[0], nows[1..])
    else RunTimes(previous, nows[1..])
  }

  /** previousFrameTime after iterations at the times `nows`. */
  function FinalPrevious(previous: int, nows: seq<int>): int
    decreases |nows|
  {
    if nows == [] then previous
    else FinalPrevious(if GateOpen(previous, nows[0]) then nows[0] else previous, nows[1..])
  }

  /** Each time in `runs` is at least TARGET_FRAME_TIME after the one
      before it, the first at least that long after `previous`. */
  predicate Spaced(previous: int, runs: seq<int>)
  {
    && (|runs| > 0 ==> runs[0] - previous >= TARGET_FRAME_TIME)
    && forall r :: 0 < r < |runs| ==> runs[r] - runs[r - 1] >= TARGET_FRAME_TIME
  }

  /** Frames that run are at least TARGET_FRAME_TIME = 16 ms apart. */
  lemma {:induction false} RunsAreSpaced(previous: int, nows: seq<int>)
    ensures Spaced(previous, RunTimes(previous, nows))
    decreases |nows|
  {
    if nows != [] {
      var rest := nows[1..];
      if GateOpen(previous, nows[0]) {
        RunsAreSpaced(nows[0], rest);
        var runs := RunTimes(nows[0], rest);
        assert RunTimes(previous, nows) == [nows[0]] + runs;
        forall r | 1 < r < |[nows[0]] + runs|
          ensures ([nows[0]] + runs)[r] - ([nows[0]] + runs)[r - 1] >= TARGET_FRAME_TIME
        {
          assert ([nows[0]] + runs)[r] == runs[r - 1];
        }
      } else {
        RunsAreSpaced(previous, rest);
      }
    }
  }

  /** The gate drops no frame it need not drop: every iteration runs
      exactly when the iteration times are themselves spaced by
      TARGET_FRAME_TIME. */
  lemma {:induction false} AllRunExactlyWhenSpaced(previous: int, nows: seq<int>)
    ensures RunTimes(previous, nows) == nows <==> Spaced(previous, nows)
    decreases |nows|
  {
    if RunTimes(previous, nows) == nows {
      RunsAreSpaced(previous, nows);
    }
    if Spaced(previous, nows) && nows != [] {
      var rest := nows[1..];
      assert Spaced(nows[0], rest) by {
        forall r | 0 < r < |rest| ensures rest[r] - rest[r - 1] >= TARGET_FRAME_TIME {
          assert rest[r] == nows[r + 1];
        }
        if |rest| > 0 {
          assert rest[0] == nows[1];
        }
      }
      AllRunExactlyWhenSpaced(nows[0], rest);
      assert RunTimes(previous, nows) == [nows[0]] + rest;
    }
  }

  /** Update and render run at most once per iteration, and only at the
      time of some iteration. */
  lemma {:induction false} RunsComeFromIterations(previous: int, nows: seq<int>)
    ensures |RunTimes(previous, nows)| <= |nows|
    ensures forall t :: t in RunTimes(previous, nows) ==> t in nows
    decreases |nows|
  {
    if nows != [] {
      var p := if GateOpen(previous, nows[0]) then nows[0] else previous;
      RunsComeFromIterations(p, nows[1..]);
    }
  }

  /** After the iterations, previousFrameTime is the time of the last frame
      that ran, or unchanged when none did. */
  lemma {:induction false} FinalPreviousIsLastRun(previous: int, nows: seq<int>)
    ensures var runs := RunTimes(previous, nows);
      FinalPrevious(previous, nows) == if runs == [] then previous else runs[|runs| - 1]
    decreases |nows|
  {
    if nows != [] {
      var p := if GateOpen(previous, nows[0]) then nows[0] else previous;
      FinalPreviousIsLastRun(p, nows[1..]);
    }
  }

  /** The globals the loop updates: previousFrameTime, currentFrameTime and
      deltaTime (kept in milliseconds, deltaTime being deltaMs / 1000
      seconds). `runs` records the time of every update-and-render. */
  class FrameClock {
    var previousFrameTime: int
    var currentFrameTime: int
    var deltaMs: int
    ghost var runs: seq<int>

    /** The initial values (main.cpp:35-37): all zero, nothing run yet. */
    constructor ()
      ensures previousFrameTime == 0 && currentFrameTime == 0 && deltaMs == 0
      ensures runs == []
    {
      previousFrameTime := 0;
      currentFrameTime := 0;
      deltaMs := 0;
      runs := [];
    }

    /** One iteration of the loop body (main.cpp:125-135) at time `now`.
        A skipped iteration changes only currentFrameTime; one that runs
        records the elapsed time, moves previousFrameTime to `now` and runs
        update and render once. */
    method Tick(now: int) returns (ran: bool)
      modifies this
      ensures currentFrameTime == now
      ensures ran <==> GateOpen(old(previousFrameTime), now)
      ensures ran ==> (previousFrameTime == now && deltaMs == now - old(previousFrameTime)
                       && runs == old(runs) + [now])
      ensures !ran ==> (previousFrameTime == old(previousFrameTime) && deltaMs == old(deltaMs)
                        && runs == old(runs))
    {
      currentFrameTime := now;
      var frameTime := currentFrameTime - previousFrameTime;
      if FPS_LIMIT && frameTime < TARGET_FRAME_TIME {
        return false;
      }
      deltaMs := frameTime;
      previousFrameTime := currentFrameTime;
      runs := runs + [now];
      ran := true;
    }

    /** The loop (main.cpp:121-136) for iterations at the times `nows`:
        frames run at RunTimes and previousFrameTime ends at
        FinalPrevious. */
    method Loop(nows: seq<int>)
      modifies this
      ensures runs == old(runs) + RunTimes(old(previousFrameTime), nows)
      ensures previousFrameTime == FinalPrevious(old(previousFrameTime), nows)
    {
      var k := 0;
      while k < |nows|
        invariant 0 <= k <= |nows|
        invariant old(runs) + RunTimes(old(previousFrameTime), nows)
          == runs + RunTimes(previousFrameTime, nows[k..])
        invariant FinalPrevious(old(previousFrameTime), nows)
          == FinalPrevious(previousFrameTime, nows[k..])
      {
        assert nows[k..][0] == nows[k] && nows[k..][1..] == nows[k + 1..];
        var _ := Tick(nows[k]);
        k := k + 1;
      }
    }
  }
}
