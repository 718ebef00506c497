/**
 * The secure viewer's session countdown (app/components/SecureViewer.tsx):
 * 59 seconds, one tick per second, then the interval stops and `onLock`
 * runs; the remaining time is shown as `MM:SS`.
 */
module SecureViewerModel {
  import opened Text
  import opened TimeFormat

  const Start: int := 59

  /** The countdown value and whether its interval still runs. */
  datatype Countdown = Countdown(timeRemaining: int, running: bool)

  const Initial: Countdown := Countdown(Start, true)

  /**
   * One interval tick: above 1 the value drops by one; at 1 or below it
   * becomes 0, the interval is cleared and `onLock` is called (the boolean).
   */
  function Tick(c: Countdown): (r: (Countdown, bool))
    requires c.running
    ensures r.1 <==> c.timeRemaining <= 1
    ensures r.1 ==> r.0 == Countdown(0, false)
    ensures !r.1 ==> r.0 == Countdown(c.timeRemaining - 1, true)
  {
    if c.timeRemaining <= 1 then (Countdown(0, false), true)
    else (Countdown(c.timeRemaining - 1, true), false)
  }

  /** The countdown after `n` ticks of its interval, and how many times `onLock` ran. */
  function AfterTicks(n: nat): (Countdown, nat)
    requires n <= Start
  {
    if n == 0 then (Initial, 0)
    else
      var (c, locks) := AfterTicks(n - 1);
      if c.running then
        var (c', locked) := Tick(c);
        (c', locks + if locked then 1 else 0)
      else (c, locks)
  }

  /**
   * Tick by tick the value drops by one from 59 and never goes negative;
   * the 59th tick locks, once, and clears the interval.
   */
  lemma {:induction false} CountdownSchedule(n: nat)
    requires n <= Start
    ensures n < Start ==> AfterTicks(n) == (Countdown(Start - n, true), 0)
    ensures n == Start ==> AfterTicks(n) == (Countdown(0, false), 1)
    ensures 0 <= AfterTicks(n).0.timeRemaining <= Start
  {
    if n > 0 {
      CountdownSchedule(n - 1);
    }
  }

  /** The value never rises, and drops on every tick while the interval runs. */
  lemma StrictlyDecreasing(m: nat, n: nat)
    requires m < n <= Start
    ensures AfterTicks(n).0.timeRemaining < AfterTicks(m).0.timeRemaining
  {
    CountdownSchedule(m);
    CountdownSchedule(n);
  }

  /** "Session expires in": always `00:SS` with the seconds left. */
  lemma DisplayedTime(c: Countdown)
    requires 0 <= c.timeRemaining <= Start
    ensures var s := PaddedMinSec(c.timeRemaining);
      |s| == 5 && IsClock(s) && ClockMinutes(s) == 0 && ClockSeconds(s) == c.timeRemaining
  {
    var n := c.timeRemaining;
    assert n / 60 == 0 && n % 60 == n;
    PaddedMinSecRoundTrip(n);
  }

  class SecureViewer {
    var timeRemaining: int
    var running: bool

    predicate Valid()
      reads this
    {
      0 <= timeRemaining <= Start && (running <==> timeRemaining > 0)
    }

    constructor ()
      ensures Countdown(timeRemaining, running) == Initial && Valid()
    {
      timeRemaining := Start;
      running := true;
    }

    /** The interval's updater; returns whether it called `onLock`. */
    method IntervalTick() returns (locked: bool)
      requires Valid() && running
      modifies this
      ensures (Countdown(timeRemaining, running), locked) == Tick(old(Countdown(timeRemaining, running)))
      ensures Valid() && timeRemaining < old(timeRemaining)
    {
      if timeRemaining <= 1 {
        running := false;
        locked := true;
        timeRemaining := 0;
      } else {
        timeRemaining := timeRemaining - 1;
        locked := false;
      }
    }

    /** The header's remaining time. */
    function Display(): (s: string)
      requires Valid()
      reads this
      ensures |s| == 5 && IsClock(s) && ClockSeconds(s) == timeRemaining
    {
      DisplayedTime(Countdown(timeRemaining, running));
      PaddedMinSec(timeRemaining)
    }
  }
}
