/** The loop timer: elapsed time net of pauses, the time within the current
    loop, and the loop counter. The wall clock is the parameter `now`, in
    milliseconds, read by the caller. */
module Timing {

  /** Length of one loop: ten seconds. */
  const LOOP_DURATION: int := 10 * 1000

  class TimerManager {
    const loopDuration: int
    const maxLoops: int
    const startTime: int
    var currentLoop: int
    var paused: bool
    var pauseTime: int
    var totalPauseTime: int

    /** Starts counting at `now`, in loop 1, running. */
    constructor (loopDuration: int, maxLoops: int, now: int)
      requires loopDuration > 0
      ensures this.loopDuration == loopDuration && this.maxLoops == maxLoops && startTime == now
      ensures currentLoop == 1 && !paused && pauseTime == 0 && totalPauseTime == 0
    {
      this.loopDuration := loopDuration;
      this.maxLoops := maxLoops;
      startTime := now;
      currentLoop := 1;
      paused := false;
      pauseTime := 0;
      totalPauseTime := 0;
    }

    /** Time since the start, less all the time spent paused: the finished
        pauses and, while paused, the pause still in progress. */
    function GetElapsedTime(now: int): (r: int)
      reads this
      ensures r == (now - startTime) - (totalPauseTime + (if paused then now - pauseTime else 0))
    {
      if paused then pauseTime - startTime - totalPauseTime
      else now - startTime - totalPauseTime
    }

    /** While paused, elapsed time does not depend on the clock. */
    lemma ElapsedFrozenWhilePaused(t1: int, t2: int)
      requires paused
      ensures GetElapsedTime(t1) == GetElapsedTime(t2)
    {
    }

    /** While running, elapsed time advances exactly with the clock. */
    lemma ElapsedFollowsClock(t1: int, t2: int)
      requires !paused
      ensures GetElapsedTime(t2) - GetElapsedTime(t1) == t2 - t1
    {
    }

    /** Elapsed time modulo the loop length. The remainder by a positive
        divisor lies in [0, loopDuration), also for a negative elapsed time. */
    function GetLoopTime(now: int): (r: int)
      reads this
      requires loopDuration > 0
      ensures 0 <= r < loopDuration
      ensures 0 <= GetElapsedTime(now) < loopDuration ==> r == GetElapsedTime(now)
    {
      GetElapsedTime(now) % loopDuration
    }

    function GetTimeRemaining(now: int): (r: int)
      reads this
      requires loopDuration > 0
      ensures 0 < r <= loopDuration
      ensures r == loopDuration <==> GetElapsedTime(now) % loopDuration == 0
    {
      loopDuration - GetLoopTime(now)
    }

    /** The end-of-loop test compares the loop time with the loop length;
        since the loop time is already reduced modulo that length, the test
        never succeeds. */
    function ShouldResetLoop(now: int): (b: bool)
      reads this
      requires loopDuration > 0
      ensures !b
    {
      GetLoopTime(now) >= loopDuration
    }

    /** The counter names the loop being played; the game is over once it
        passes the limit. */
    predicate IsGameOver()
      reads this
    {
      currentLoop > maxLoops
    }

    /** Counting from loop 1, the game is over exactly after `maxLoops`
        resets, and not one reset earlier. */
    lemma GameOverAfterMaxResets(resets: nat)
      requires currentLoop == 1 + resets
      ensures IsGameOver() <==> resets >= maxLoops
    {
    }

    /** Advance the loop counter; the start time is not touched. */
    method ResetLoop()
      modifies this
      ensures currentLoop == old(currentLoop) + 1
      ensures paused == old(paused) && pauseTime == old(pauseTime) && totalPauseTime == old(totalPauseTime)
      ensures IsGameOver() <==> old(currentLoop) >= maxLoops
      ensures forall t :: GetElapsedTime(t) == old(GetElapsedTime(t))
    {
      currentLoop := currentLoop + 1;
    }

    /** A no-op when already paused; otherwise freeze elapsed time at its
        value at `now`. */
    method Pause(now: int)
      modifies this
      ensures old(paused) ==> unchanged(this)
      ensures !old(paused) ==> paused && pauseTime == now
      ensures currentLoop == old(currentLoop) && totalPauseTime == old(totalPauseTime)
      ensures !old(paused) ==> forall t :: GetElapsedTime(t) == old(GetElapsedTime(now))
    {
      if !paused {
        paused := true;
        pauseTime := now;
      }
    }

    /** A no-op when not paused; otherwise add the length of the pause to the
        total, so elapsed time resumes from where it was frozen. */
    method Unpause(now: int)
      modifies this
      ensures !old(paused) ==> unchanged(this)
      ensures old(paused) ==> !paused && totalPauseTime == old(totalPauseTime) + (now - old(pauseTime))
      ensures currentLoop == old(currentLoop) && pauseTime == old(pauseTime)
      ensures old(paused) ==> GetElapsedTime(now) == old(GetElapsedTime(now))
    {
      if paused {
        paused := false;
        totalPauseTime := totalPauseTime + (now - pauseTime);
      }
    }
  }
}
