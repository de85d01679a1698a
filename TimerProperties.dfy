/** Properties of the timer's button rules: how the rules relate to each
    other, and the invariant that any sequence of clicks keeps. */
module TimerProperties {
  import opened TimerButtons

  /** Reset forgets everything but the duration: two timers with the same
      duration reset to the same record, and resetting twice is resetting once. */
  lemma ResetDependsOnlyOnDuration(p: TimerProps, q: TimerProps)
    requires p.initialTime == q.initialTime
    ensures Reset(p) == Reset(q)
    ensures Reset(Reset(p)) == Reset(p)
  {
  }

  /** The decrease step at `t` is the increase step at `t - 1`: the two
      buttons switch step sizes one millisecond apart. */
  lemma StepBoundariesOneApart(t: int)
    ensures t - DecreasedTime(t) == IncreasedTime(t - 1) - (t - 1)
  {
  }

  /** Decrease undoes Increase except from just below a threshold, where
      the increase crosses into a coarser decrease step. */
  lemma DecreaseUndoesIncrease(t: int)
    ensures DecreasedTime(IncreasedTime(t)) == t
        <==> !(ThirtySeconds - FiveSeconds < t < ThirtySeconds) && !(FiveMinutes - ThirtySeconds < t < FiveMinutes)
  {
  }

  /** Increase undoes Decrease except from just above a threshold, where
      the decrease crosses into a finer increase step. */
  lemma IncreaseUndoesDecrease(t: int)
    ensures IncreasedTime(DecreasedTime(t)) == t
        <==> t <= ThirtySeconds || 2 * ThirtySeconds <= t <= FiveMinutes || FiveMinutes + OneMinute <= t
  {
  }

  /** A longer duration stays longer after Increase. */
  lemma IncreaseMonotone(s: int, t: int)
    requires s < t
    ensures IncreasedTime(s) < IncreasedTime(t)
  {
  }

  /** Decrease is not monotone: just above a threshold, the coarser step
      takes a longer duration below a shorter one. */
  lemma DecreaseNotMonotone()
    ensures DecreasedTime(ThirtySeconds + 1) < DecreasedTime(ThirtySeconds)
    ensures DecreasedTime(FiveMinutes + 1) < DecreasedTime(FiveMinutes)
  {
  }

  /** Step examples on both sides of each threshold. */
  lemma StepExamples()
    ensures IncreasedTime(20000) == 25000
    ensures IncreasedTime(40000) == 70000
    ensures IncreasedTime(300000) == 360000
    ensures DecreasedTime(30000) == 25000
    ensures DecreasedTime(300000) == 270000
  {
  }

  /** Pausing right after Play takes the elapsed time off whatever Play
      started from: the full duration if the timer had completed. */
  lemma PauseAfterPlay(p: TimerProps, serverTime: int, elapsed: int)
    ensures Pause(Play(p, serverTime), elapsed)
         == Some(TimerProps(p.initialTime,
                            Max(0, (if p.state == Completed then p.initialTime else p.remainingTime) - elapsed),
                            Paused))
  {
  }

  /** A paused timer ignores a second Pause. */
  lemma PauseTwiceIgnored(p: TimerProps, e1: int, e2: int)
    requires Pause(p, e1).Some?
    ensures Pause(Pause(p, e1).value, e2) == None
  {
  }

  /** A stopped 60 s timer played at 1000 and paused 10 s later has 50 s
      left; a completed one restarts from its full duration. */
  lemma Scenarios()
    ensures Play(TimerProps(60000, 60000, Stopped), 1000) == TimerProps(60000, 60000, Running(1000))
    ensures Pause(TimerProps(60000, 60000, Running(1000)), 10000) == Some(TimerProps(60000, 50000, Paused))
    ensures Play(TimerProps(60000, 0, Completed), 5000).remainingTime == 60000
  {
  }

  /** Every click keeps the invariant, as long as Pause is never told that a
      negative time has elapsed. */
  lemma StepKeepsWellFormed(p: TimerProps, c: Click)
    requires WellFormed(p)
    requires c.PauseClick? ==> c.elapsed >= 0
    ensures WellFormed(Step(p, c))
  {
  }

  /** `0 <= remainingTime <= initialTime` holds after any sequence of clicks
      from a well-formed timer. */
  lemma {:induction false} RunKeepsWellFormed(p: TimerProps, clicks: seq<Click>)
    requires WellFormed(p)
    requires ElapsedNonNegative(clicks)
    ensures WellFormed(Run(p, clicks))
    decreases |clicks|
  {
    if clicks != [] {
      StepKeepsWellFormed(p, clicks[0]);
      assert ElapsedNonNegative(clicks[1..]) by {
        forall i | 0 <= i < |clicks[1..]| && clicks[1..][i].PauseClick?
          ensures clicks[1..][i].elapsed >= 0
        {
          assert clicks[1..][i] == clicks[i + 1];
        }
      }
      RunKeepsWellFormed(Step(p, clicks[0]), clicks[1..]);
    }
  }

  /** No click completes a timer: `completed` is entered only by the
      countdown itself, never by the buttons. */
  lemma {:induction false} RunNeverCompletes(p: TimerProps, clicks: seq<Click>)
    requires p.state != Completed
    ensures Run(p, clicks).state != Completed
    decreases |clicks|
  {
    if clicks != [] {
      RunNeverCompletes(Step(p, clicks[0]), clicks[1..]);
    }
  }

  /** Only the two duration buttons change the duration: Reset, Play and
      Pause keep it, however they are interleaved. */
  lemma {:induction false} OnlyDurationButtonsChangeDuration(p: TimerProps, clicks: seq<Click>)
    requires forall i :: 0 <= i < |clicks| ==> !clicks[i].DecreaseClick? && !clicks[i].IncreaseClick?
    ensures Run(p, clicks).initialTime == p.initialTime
    decreases |clicks|
  {
    if clicks != [] {
      OnlyDurationButtonsChangeDuration(Step(p, clicks[0]), clicks[1..]);
    }
  }
}
