/** The countdown timer's button logic: the timer record kept in the document's
    settings, the rule each button applies to it, when each button is disabled,
    and the document field that every click writes exactly once.
    All times are integer milliseconds. */
module TimerButtons {

  const FiveSeconds: int := 5 * 1000
  const TenSeconds: int := 10 * 1000
  const ThirtySeconds: int := 30 * 1000
  const OneMinute: int := 60 * 1000
  const FiveMinutes: int := 5 * OneMinute

  datatype Option<T> = None | Some(value: T)

  /** The tagged `state` of the timer; only a running timer carries the
      server timestamp at which its countdown was (re)started. */
  datatype TimerState = Stopped | Running(lastStartTime: int) | Paused | Completed

  datatype TimerProps = TimerProps(initialTime: int, remainingTime: int, state: TimerState)

  /** The countdown never has more time left than its configured duration,
      and never less than none. */
  predicate WellFormed(p: TimerProps)
  {
    0 <= p.remainingTime <= p.initialTime
  }

  function Max(a: int, b: int): (m: int)
    ensures m >= a && m >= b && (m == a || m == b)
  {
    if a >= b then a else b
  }

  /** Reset: the full duration is back and the timer is stopped, whatever it
      was doing before. */
  function Reset(p: TimerProps): (r: TimerProps)
    ensures r.initialTime == p.initialTime
    ensures r.remainingTime == p.initialTime && r.state == Stopped
    ensures p.initialTime >= 0 ==> WellFormed(r)
  {
    TimerProps(p.initialTime, p.initialTime, Stopped)
  }

  /** The new duration chosen by the decrease button: the step shrinks to
      5 s at or below 30 s and to 30 s at or below 5 min (inclusive bounds). */
  function DecreasedTime(t: int): (n: int)
    ensures n < t
    ensures t - n == FiveSeconds <==> t <= ThirtySeconds
    ensures t - n == ThirtySeconds <==> ThirtySeconds < t <= FiveMinutes
    ensures t - n == OneMinute <==> FiveMinutes < t
  {
    if t <= ThirtySeconds then t - FiveSeconds
    else if t <= FiveMinutes then t - ThirtySeconds
    else t - OneMinute
  }

  /** The new duration chosen by the increase button: the step is 5 s
      below 30 s, 30 s below 5 min, and 1 min from 5 min on (exclusive bounds). */
  function IncreasedTime(t: int): (n: int)
    ensures n > t
    ensures n - t == FiveSeconds <==> t < ThirtySeconds
    ensures n - t == ThirtySeconds <==> ThirtySeconds <= t < FiveMinutes
    ensures n - t == OneMinute <==> FiveMinutes <= t
  {
    if t < ThirtySeconds then t + FiveSeconds
    else if t < FiveMinutes then t + ThirtySeconds
    else t + OneMinute
  }

  /** Decrease: a shorter duration that also restarts the countdown from it;
      the state is carried over. */
  function Decrease(p: TimerProps): (r: TimerProps)
    ensures r.initialTime == DecreasedTime(p.initialTime) && r.initialTime < p.initialTime
    ensures r.remainingTime == r.initialTime && r.state == p.state
    ensures !DecreaseDisabled(p) ==> WellFormed(r)
  {
    var newTime := DecreasedTime(p.initialTime);
    TimerProps(newTime, newTime, p.state)
  }

  /** Increase: a longer duration that also restarts the countdown from it;
      the state is carried over. */
  function Increase(p: TimerProps): (r: TimerProps)
    ensures r.initialTime == IncreasedTime(p.initialTime) && r.initialTime > p.initialTime
    ensures r.remainingTime == r.initialTime && r.state == p.state
    ensures p.initialTime >= 0 ==> WellFormed(r)
  {
    var newTime := IncreasedTime(p.initialTime);
    TimerProps(newTime, newTime, p.state)
  }

  /** Play: the countdown runs from `serverTime`. A completed timer starts
      again from its full duration; any other keeps the time it had left.
      Nothing prevents playing a timer that is already running. */
  function Play(p: TimerProps, serverTime: int): (r: TimerProps)
    ensures r.initialTime == p.initialTime && r.state == Running(serverTime)
    ensures p.state == Completed ==> r.remainingTime == p.initialTime
    ensures p.state != Completed ==> r.remainingTime == p.remainingTime
    ensures p.initialTime >= 0 && (p.state == Completed || WellFormed(p)) ==> WellFormed(r)
  {
    TimerProps(p.initialTime,
               if p.state == Completed then p.initialTime else p.remainingTime,
               Running(serverTime))
  }

  /** Pause: `None` when the timer is not running (the click is ignored and
      nothing is written); otherwise the elapsed time comes off the time left,
      never going below zero, and the timer is paused. */
  function Pause(p: TimerProps, elapsed: int): (r: Option<TimerProps>)
    ensures r.None? <==> !p.state.Running?
    ensures r.Some? ==> r.value.initialTime == p.initialTime && r.value.state == Paused
    ensures r.Some? ==> r.value.remainingTime >= 0
    ensures r.Some? && elapsed >= 0 ==> r.value.remainingTime <= Max(0, p.remainingTime)
    ensures r.Some? && p.remainingTime >= elapsed ==> r.value.remainingTime == p.remainingTime - elapsed
    ensures r.Some? && p.remainingTime <= elapsed ==> r.value.remainingTime == 0
    ensures r.Some? && elapsed >= 0 && WellFormed(p) ==> WellFormed(r.value)
  {
    if !p.state.Running? then None
    else Some(TimerProps(p.initialTime, Max(0, p.remainingTime - elapsed), Paused))
  }

  /** The decrease button is greyed out while running and below ten seconds;
      when it is enabled, shrinking cannot reach zero or below. */
  function DecreaseDisabled(p: TimerProps): (disabled: bool)
    ensures !disabled <==> !p.state.Running? && p.initialTime >= TenSeconds
    ensures !disabled ==> DecreasedTime(p.initialTime) > 0
  {
    p.state.Running? || p.initialTime < TenSeconds
  }

  /** The increase button is greyed out only while running, so it is enabled
      whenever the decrease button is. */
  function IncreaseDisabled(p: TimerProps): (disabled: bool)
    ensures disabled <==> p.state.Running?
    ensures disabled ==> DecreaseDisabled(p)
  {
    p.state.Running?
  }

  /** One click on one of the five buttons, with the server time (Play) or
      the elapsed time (Pause) that the timer hook supplies at that moment. */
  datatype Click = ResetClick | DecreaseClick | IncreaseClick | PlayClick(serverTime: int) | PauseClick(elapsed: int)

  /** What a click does to the timer: a disabled button does nothing, and a
      pause that is ignored leaves the timer as it was. */
  function Step(p: TimerProps, c: Click): (r: TimerProps)
    ensures c.ResetClick? ==> r.state == Stopped
    ensures c.PlayClick? ==> r.state == Running(c.serverTime)
    ensures (c.DecreaseClick? && DecreaseDisabled(p)) || (c.IncreaseClick? && IncreaseDisabled(p)) ==> r == p
    ensures c.PauseClick? && !p.state.Running? ==> r == p
    ensures r.initialTime != p.initialTime ==> !p.state.Running? && (c.DecreaseClick? || c.IncreaseClick?)
  {
    match c
    case ResetClick => Reset(p)
    case DecreaseClick => if DecreaseDisabled(p) then p else Decrease(p)
    case IncreaseClick => if IncreaseDisabled(p) then p else Increase(p)
    case PlayClick(now) => Play(p, now)
    case PauseClick(elapsed) =>
      match Pause(p, elapsed)
      case None => p
      case Some(q) => q
  }

  /** The timer after a sequence of clicks, in order. */
  function Run(p: TimerProps, clicks: seq<Click>): TimerProps
    decreases |clicks|
  {
    if clicks == [] then p else Run(Step(p, clicks[0]), clicks[1..])
  }

  /** Clicks whose elapsed time, as reported to Pause, is never negative. */
  predicate ElapsedNonNegative(clicks: seq<Click>)
  {
    forall i :: 0 <= i < |clicks| && clicks[i].PauseClick? ==> clicks[i].elapsed >= 0
  }

  /** The timer record stored in the document's settings (`meta.timer`).
      `writes` records every value written through `UpdateTimer`, so that
      each click is seen to write once, or (an ignored pause) not at all. */
  class TimerDocument {
    var timer: TimerProps
    ghost var writes: seq<TimerProps>

    constructor (initial: TimerProps)
      ensures timer == initial && writes == []
    {
      timer := initial;
      writes := [];
    }

    /** The single write to the document's settings. */
    method UpdateTimer(props: TimerProps)
      modifies this
      ensures timer == props && writes == old(writes) + [props]
    {
      timer := props;
      writes := writes + [props];
    }

    method OnReset()
      modifies this
      ensures timer == Reset(old(timer)) && writes == old(writes) + [timer]
      ensures old(timer).initialTime >= 0 ==> WellFormed(timer)
    {
      UpdateTimer(Reset(timer));
    }

    method OnDecrease()
      modifies this
      ensures timer == Decrease(old(timer)) && writes == old(writes) + [timer]
      ensures !DecreaseDisabled(old(timer)) ==> WellFormed(timer)
    {
      UpdateTimer(Decrease(timer));
    }

    method OnIncrease()
      modifies this
      ensures timer == Increase(old(timer)) && writes == old(writes) + [timer]
      ensures WellFormed(old(timer)) ==> WellFormed(timer)
    {
      UpdateTimer(Increase(timer));
    }

    method OnPlay(serverTime: int)
      modifies this
      ensures timer == Play(old(timer), serverTime) && writes == old(writes) + [timer]
      ensures WellFormed(old(timer)) ==> WellFormed(timer)
    {
      UpdateTimer(Play(timer, serverTime));
    }

    method OnPause(elapsed: int)
      modifies this
      ensures !old(timer).state.Running? ==> timer == old(timer) && writes == old(writes)
      ensures old(timer).state.Running? ==>
                Pause(old(timer), elapsed) == Some(timer) && writes == old(writes) + [timer]
      ensures WellFormed(old(timer)) && elapsed >= 0 ==> WellFormed(timer)
    {
      if !timer.state.Running? {
        return;
      }
      var next := Pause(timer, elapsed);
      UpdateTimer(next.value);
    }
  }
}
