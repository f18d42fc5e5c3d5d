/**
 * The level timer (`LevelTimer`): counts the time of a run while it is
 * running and not finished. The first `FinishLevel` freezes the count until
 * the next reset; the count is read with `GetElapsedTime`.
 */
module LevelTimer {

  class Timer {
    var elapsedTime: real
    var isRunning: bool
    var finished: bool

    /** A timer is never running once finished. */
    ghost predicate Valid()
      reads this
    {
      !(isRunning && finished)
    }

    /** The field initialisers, before `Start` resets the timer. */
    constructor ()
      ensures Valid()
      ensures elapsedTime == 0.0 && !isRunning && !finished
    {
      elapsedTime, isRunning, finished := 0.0, false, false;
    }

    /** The frame update: the count advances by `dt` only while running and not finished. */
    method Update(dt: real)
      modifies this
      ensures elapsedTime == old(elapsedTime) + (if old(isRunning) && !old(finished) then dt else 0.0)
      ensures isRunning == old(isRunning) && finished == old(finished)
    {
      if isRunning && !finished {
        elapsedTime := elapsedTime + dt;
      }
    }

    /** A new run: zero, running, not finished. */
    method ResetTimer()
      modifies this
      ensures Valid()
      ensures elapsedTime == 0.0 && isRunning && !finished
    {
      elapsedTime := 0.0;
      isRunning := true;
      finished := false;
    }

    /** The first call finishes the run and stops the timer; later calls change nothing. */
    method FinishLevel()
      modifies this
      ensures finished && elapsedTime == old(elapsedTime)
      ensures !old(finished) ==> !isRunning
      ensures old(finished) ==> isRunning == old(isRunning)
      ensures old(Valid()) ==> Valid() && !isRunning
    {
      if !finished {
        finished := true;
        isRunning := false;
      }
    }

    /** The count, read without changing anything. */
    method GetElapsedTime() returns (t: real)
      ensures t == elapsedTime
    {
      t := elapsedTime;
    }
  }

  /**
   * A run counts the sum of its frame times: from a reset, any frames with
   * non-negative `dt` leave the timer running at the total of their times
   * (which never decreases from frame to frame: `SumGrows`).
   */
  method RunFrames(timer: Timer, dts: seq<real>)
    requires forall i :: 0 <= i < |dts| ==> dts[i] >= 0.0
    modifies timer
    ensures timer.Valid() && timer.isRunning && !timer.finished
    ensures timer.elapsedTime == Sum(dts)
  {
    timer.ResetTimer();
    var i := 0;
    while i < |dts|
      invariant 0 <= i <= |dts|
      invariant timer.Valid() && timer.isRunning && !timer.finished
      invariant timer.elapsedTime == Sum(dts[..i])
    {
      timer.Update(dts[i]);
      SumSnoc(dts[..i], dts[i]);
      assert dts[..i + 1] == dts[..i] + [dts[i]];
      i := i + 1;
    }
    assert dts[..|dts|] == dts;
  }

  /**
   * Once finished the count is frozen: no number of frames changes it, and
   * finishing again changes nothing, until the next reset.
   */
  method FrozenAfterFinish(timer: Timer, dts: seq<real>) returns (t: real)
    requires timer.Valid()
    modifies timer
    ensures timer.finished && !timer.isRunning
    ensures t == old(timer.elapsedTime) && timer.elapsedTime == t
  {
    timer.FinishLevel();
    var i := 0;
    while i < |dts|
      invariant 0 <= i <= |dts|
      invariant timer.finished && !timer.isRunning
      invariant timer.elapsedTime == old(timer.elapsedTime)
    {
      timer.Update(dts[i]);
      timer.FinishLevel();
      i := i + 1;
    }
    t := timer.GetElapsedTime();
  }

  /** The total of a sequence of frame times. */
  function Sum(dts: seq<real>): (total: real)
    ensures (forall i :: 0 <= i < |dts| ==> dts[i] >= 0.0) ==> total >= 0.0
  {
    if |dts| == 0 then 0.0 else Sum(dts[..|dts| - 1]) + dts[|dts| - 1]
  }

  /**
   * The count never decreases: with non-negative frame times, the total of
   * a longer prefix of frames is at least that of a shorter one.
   */
  lemma {:induction false} SumGrows(dts: seq<real>, i: nat, j: nat)
    requires i <= j <= |dts|
    requires forall k :: 0 <= k < |dts| ==> dts[k] >= 0.0
    ensures Sum(dts[..i]) <= Sum(dts[..j])
    decreases j - i
  {
    if i < j {
      SumGrows(dts, i, j - 1);
      assert dts[..j] == dts[..j - 1] + [dts[j - 1]];
      SumSnoc(dts[..j - 1], dts[j - 1]);
    }
  }

  lemma SumSnoc(dts: seq<real>, dt: real)
    ensures Sum(dts + [dt]) == Sum(dts) + dt
  {
    assert (dts + [dt])[..|dts|] == dts;
  }
}
